/**
 * The three-step visitor sign-up wizard (src/components/electoral/VisitorsFunnel.tsx):
 * the `currentStep` counter, the progress indicator it drives, and the
 * `visitorData` record filled in field by field.
 */
module VisitorsFunnel {

  datatype VisitorData = VisitorData(
    nombre: string,
    apellido: string,
    telefono: string,
    email: string,
    barrio: string,
    comuna: string,
    edad: string,
    profesion: string,
    intereses: string)

  datatype VisitorField = Nombre | Apellido | Telefono | Email | Barrio | Comuna | Edad | Profesion | Intereses

  const EmptyVisitor := VisitorData("", "", "", "", "", "", "", "", "")

  /** The values the "Comuna" select offers. */
  const ComunaOptions: seq<string> := ["1", "2", "3", "4", "5"]

  function Get(d: VisitorData, f: VisitorField): string
  {
    match f
    case Nombre => d.nombre
    case Apellido => d.apellido
    case Telefono => d.telefono
    case Email => d.email
    case Barrio => d.barrio
    case Comuna => d.comuna
    case Edad => d.edad
    case Profesion => d.profesion
    case Intereses => d.intereses
  }

  /** `setVisitorData(prev => ({ ...prev, f: v }))`: only `f` changes. */
  function Set(d: VisitorData, f: VisitorField, v: string): (e: VisitorData)
    ensures Get(e, f) == v
    ensures forall g :: g != f ==> Get(e, g) == Get(d, g)
  {
    match f
    case Nombre => d.(nombre := v)
    case Apellido => d.(apellido := v)
    case Telefono => d.(telefono := v)
    case Email => d.(email := v)
    case Barrio => d.(barrio := v)
    case Comuna => d.(comuna := v)
    case Edad => d.(edad := v)
    case Profesion => d.(profesion := v)
    case Intereses => d.(intereses := v)
  }

  /** Two records with the same value in every field are the same record. */
  lemma SameFields(d: VisitorData, e: VisitorData)
    requires forall f :: Get(d, f) == Get(e, f)
    ensures d == e
  {
    assert Get(d, Nombre) == Get(e, Nombre) && Get(d, Apellido) == Get(e, Apellido);
    assert Get(d, Telefono) == Get(e, Telefono) && Get(d, Email) == Get(e, Email);
    assert Get(d, Barrio) == Get(e, Barrio) && Get(d, Comuna) == Get(e, Comuna);
    assert Get(d, Edad) == Get(e, Edad) && Get(d, Profesion) == Get(e, Profesion);
    assert Get(d, Intereses) == Get(e, Intereses);
  }

  /** Writing back a field's own value changes nothing. */
  lemma SetOwnValue(d: VisitorData, f: VisitorField)
    ensures Set(d, f, Get(d, f)) == d
  {
    SameFields(Set(d, f, Get(d, f)), d);
  }

  /** Edits of two different fields commute. */
  lemma SetsCommute(d: VisitorData, f: VisitorField, v: string, g: VisitorField, w: string)
    requires f != g
    ensures Set(Set(d, f, v), g, w) == Set(Set(d, g, w), f, v)
  {
    SameFields(Set(Set(d, f, v), g, w), Set(Set(d, g, w), f, v));
  }

  /** The step whose card holds the input of each field. */
  function FieldStep(f: VisitorField): (step: int)
    ensures 1 <= step <= 3
    ensures step == 3 <==> f == Intereses
  {
    match f
    case Nombre | Apellido | Telefono | Email => 1
    case Barrio | Comuna | Edad | Profesion => 2
    case Intereses => 3
  }

  predicate ValidStep(step: int)
  {
    1 <= step <= 3
  }

  /** `handleNext`: one step on, except from the last step. */
  function Next(step: int): (s: int)
    requires ValidStep(step)
    ensures ValidStep(s)
    ensures step < 3 ==> s == step + 1
    ensures step == 3 ==> s == 3
  {
    if step < 3 then step + 1 else step
  }

  /** `n` presses of "Continuar" from `step`. */
  function NextTimes(step: int, n: nat): (s: int)
    requires ValidStep(step)
    ensures ValidStep(s)
    decreases n
  {
    if n == 0 then step else NextTimes(Next(step), n - 1)
  }

  /** Pressing "Continuar" n times climbs n steps and stops at step 3. */
  lemma {:induction false} NextTimesStops(step: int, n: nat)
    requires ValidStep(step)
    ensures NextTimes(step, n) == if step + n <= 3 then step + n else 3
    decreases n
  {
    if n > 0 {
      NextTimesStops(Next(step), n - 1);
    }
  }

  /** Progress circle `i` is coloured once the wizard has reached step `i`. */
  function CircleHighlighted(step: int, i: int): bool
  {
    step >= i
  }

  /** The arrow after circle `i` (circles 1 and 2 only) is coloured once the wizard is past `i`. */
  function ArrowHighlighted(step: int, i: int): bool
  {
    i < 3 && step > i
  }

  function CountCircles(step: int): nat
  {
    (if CircleHighlighted(step, 1) then 1 else 0)
    + (if CircleHighlighted(step, 2) then 1 else 0)
    + (if CircleHighlighted(step, 3) then 1 else 0)
  }

  function CountArrows(step: int): nat
  {
    (if ArrowHighlighted(step, 1) then 1 else 0)
    + (if ArrowHighlighted(step, 2) then 1 else 0)
    + (if ArrowHighlighted(step, 3) then 1 else 0)
  }

  /**
   * At step `s` exactly the first `s` circles and the `s - 1` arrows between
   * them are coloured, so the indicator shows the step.
   */
  lemma ProgressShowsStep(step: int)
    requires ValidStep(step)
    ensures CountCircles(step) == step
    ensures CountArrows(step) == step - 1
    ensures forall i :: 1 <= i <= 3 ==> (CircleHighlighted(step, i) <==> i <= step)
    ensures forall i :: 1 <= i < 3 ==> (ArrowHighlighted(step, i) <==> CircleHighlighted(step, i + 1))
  {
  }

  class Funnel {
    var currentStep: int
    var visitorData: VisitorData

    predicate Valid()
      reads this
    {
      ValidStep(currentStep)
    }

    /** The wizard opens at step 1 with every field empty. */
    constructor ()
      ensures Valid() && currentStep == 1 && visitorData == EmptyVisitor
    {
      currentStep := 1;
      visitorData := EmptyVisitor;
    }

    /** "Continuar" (steps 1 and 2; at step 3 it would leave the step as it is). */
    method HandleNext()
      requires Valid()
      modifies this`currentStep
      ensures Valid() && currentStep == Next(old(currentStep))
    {
      if currentStep < 3 {
        currentStep := currentStep + 1;
      }
    }

    /** "Atrás", shown on steps 2 and 3 only (VisitorsFunnel.tsx lines 212 and 267): step 2 goes back to 1 and step 3 to 2. */
    method Back()
      requires currentStep == 2 || currentStep == 3
      modifies this`currentStep
      ensures Valid() && currentStep == old(currentStep) - 1
    {
      if currentStep == 2 {
        currentStep := 1;
      } else {
        currentStep := 2;
      }
    }

    /**
     * An input's change: the input is on screen only in its own step's card
     * (VisitorsFunnel.tsx lines 92, 154 and 225), and the "Comuna" select
     * offers only its five values (lines 183-187).
     */
    method SetField(f: VisitorField, v: string)
      requires currentStep == FieldStep(f)
      requires f == Comuna ==> v in ComunaOptions
      modifies this`visitorData
      ensures visitorData == Set(old(visitorData), f, v)
    {
      visitorData := Set(visitorData, f, v);
    }

    /** "Unirse a la Revolución": offered only on step 3 (VisitorsFunnel.tsx line 270); hands over the collected record. */
    method Submit() returns (data: VisitorData)
      requires currentStep == 3
      ensures data == visitorData
    {
      data := visitorData;
    }
  }
}
