/**
 * The resource-request form of the victim-support screens
 * (src/components/victims/ResourceRequest.tsx): the list of checked resources,
 * the text fields, the gate on the submit button and the submitted record.
 */
module ResourceRequest {
  import opened Wrappers

  /** One entry of `availableResources`. */
  datatype ResourceOption = ResourceOption(id: string, caption: string)

  const AvailableResources: seq<ResourceOption> := [
    ResourceOption("food", "Alimentos no perecederos"),
    ResourceOption("water", "Agua potable"),
    ResourceOption("clothing", "Ropa y calzado"),
    ResourceOption("hygiene", "Kit de higiene"),
    ResourceOption("baby", "Artículos para bebés"),
    ResourceOption("medicine", "Medicamentos básicos"),
    ResourceOption("shelter", "Materiales de refugio"),
    ResourceOption("tools", "Herramientas básicas")]

  /** `formData`. */
  datatype ResourceForm = ResourceForm(
    resources: seq<string>,
    peopleCount: string,
    duration: string,
    specificNeeds: string,
    deliveryAddress: string,
    contactInfo: string)

  /** The form's text inputs, each with its own `onChange` handler. */
  datatype TextField = PeopleCount | Duration | SpecificNeeds | DeliveryAddress | ContactInfo

  /** The submitted request: the form's fields plus the fields `handleSubmit` adds. */
  datatype ResourceRequestRecord = ResourceRequestRecord(
    form: ResourceForm,
    id: string,
    timestamp: int,
    userId: string,
    requestType: string,
    status: string)

  const InitialForm := ResourceForm([], "", "", "", "", "")

  /** `resources.filter(x => x !== id)`. */
  function Without(s: seq<string>, id: string): (r: seq<string>)
    ensures forall x :: x in r <==> x in s && x != id
    ensures multiset(r) == multiset(s)[id := 0]
  {
    if s == [] then []
    else
      assert s == [s[0]] + s[1..];
      if s[0] == id then Without(s[1..], id) else [s[0]] + Without(s[1..], id)
  }

  /** Filtering distributes over concatenation: the kept ids stay in their order. */
  lemma {:induction false} WithoutAppend(a: seq<string>, b: seq<string>, id: string)
    ensures Without(a + b, id) == Without(a, id) + Without(b, id)
  {
    if a == [] {
      assert a + b == b;
    } else {
      assert (a + b)[1..] == a[1..] + b;
      WithoutAppend(a[1..], b, id);
    }
  }

  /** Filtering out an id that is absent changes nothing. */
  lemma {:induction false} WithoutAbsent(s: seq<string>, id: string)
    requires id !in s
    ensures Without(s, id) == s
  {
    if s != [] {
      WithoutAbsent(s[1..], id);
    }
  }

  /** Checking an unchecked resource and unchecking it again restores the list. */
  lemma CheckUncheckRoundTrip(s: seq<string>, id: string)
    requires id !in s
    ensures Without(s + [id], id) == s
  {
    WithoutAppend(s, [id], id);
    WithoutAbsent(s, id);
    assert Without([id], id) == [];
  }

  predicate NoDuplicates(s: seq<string>)
  {
    forall i, j :: 0 <= i < j < |s| ==> s[i] != s[j]
  }

  /** Filtering keeps a duplicate-free list duplicate-free. */
  lemma {:induction false} WithoutNoDuplicates(s: seq<string>, id: string)
    requires NoDuplicates(s)
    ensures NoDuplicates(Without(s, id))
  {
    if s != [] {
      WithoutNoDuplicates(s[1..], id);
      assert s[0] !in s[1..];
    }
  }

  /** The text in one input of the form. */
  function Text(f: ResourceForm, field: TextField): string
  {
    match field
    case PeopleCount => f.peopleCount
    case Duration => f.duration
    case SpecificNeeds => f.specificNeeds
    case DeliveryAddress => f.deliveryAddress
    case ContactInfo => f.contactInfo
  }

  /** `setFormData({...formData, [field]: value})`. */
  function WithText(f: ResourceForm, field: TextField, value: string): (g: ResourceForm)
    ensures Text(g, field) == value
    ensures forall other :: other != field ==> Text(g, other) == Text(f, other)
    ensures g.resources == f.resources
  {
    match field
    case PeopleCount => f.(peopleCount := value)
    case Duration => f.(duration := value)
    case SpecificNeeds => f.(specificNeeds := value)
    case DeliveryAddress => f.(deliveryAddress := value)
    case ContactInfo => f.(contactInfo := value)
  }

  /** The label a badge shows for a selected id (`availableResources.find`). */
  function LabelOf(options: seq<ResourceOption>, id: string): (caption: Option<string>)
    ensures caption.Some? ==> exists k :: 0 <= k < |options| && options[k] == ResourceOption(id, caption.value)
    ensures caption.None? ==> forall k :: 0 <= k < |options| ==> options[k].id != id
  {
    if options == [] then None
    else if options[0].id == id then Some(options[0].caption)
    else LabelOf(options[1..], id)
  }

  /** The "Recursos solicitados" badges: one per selected id, in selection order. */
  function SelectedBadges(f: ResourceForm): (badges: seq<Option<string>>)
    ensures |badges| == |f.resources|
    ensures forall i :: 0 <= i < |badges| ==> badges[i] == LabelOf(AvailableResources, f.resources[i])
  {
    seq(|f.resources|, i requires 0 <= i < |f.resources| => LabelOf(AvailableResources, f.resources[i]))
  }

  /** The submit button's `disabled` attribute. */
  predicate SubmitDisabled(f: ResourceForm)
  {
    |f.resources| == 0
  }

  /**
   * The form can be submitted: the button is enabled and the browser finds
   * the two `required` inputs (people count, delivery address) filled in.
   */
  predicate SubmitAllowed(f: ResourceForm)
  {
    !SubmitDisabled(f) && f.peopleCount != "" && f.deliveryAddress != ""
  }

  /**
   * The form as first shown cannot be submitted; checking a resource is what
   * enables the button, typing in the text inputs never does, and a form that
   * can be submitted shows at least one resource badge.
   */
  lemma SubmitGate(f: ResourceForm, id: string)
    ensures !SubmitAllowed(InitialForm)
    ensures SubmitAllowed(f) ==> |SelectedBadges(f)| > 0
    ensures forall field, value :: SubmitDisabled(WithText(f, field, value)) == SubmitDisabled(f)
    ensures !SubmitDisabled(f.(resources := f.resources + [id]))
  {
  }

  class ResourceRequestForm {
    var formData: ResourceForm

    constructor ()
      ensures formData == InitialForm
    {
      formData := InitialForm;
    }

    /** `handleResourceChange`: append the id when checked, drop every copy of it when unchecked. */
    method HandleResourceChange(id: string, checked: bool)
      modifies this
      ensures checked ==> formData.resources == old(formData.resources) + [id]
      ensures !checked ==> formData.resources == Without(old(formData.resources), id)
      ensures formData == old(formData).(resources := formData.resources)
    {
      if checked {
        formData := formData.(resources := formData.resources + [id]);
      } else {
        formData := formData.(resources := Without(formData.resources, id));
      }
    }

    /**
     * A click on a checkbox: the checkbox passes the negation of its current
     * `includes` state, so the list never holds an id twice.
     */
    method ClickResource(id: string)
      requires NoDuplicates(formData.resources)
      modifies this
      ensures NoDuplicates(formData.resources)
      ensures id in formData.resources <==> id !in old(formData.resources)
      ensures id !in old(formData.resources) ==> formData.resources == old(formData.resources) + [id]
      ensures id in old(formData.resources) ==> formData.resources == Without(old(formData.resources), id)
      ensures formData == old(formData).(resources := formData.resources)
    {
      var checked := id !in formData.resources;
      HandleResourceChange(id, checked);
      if !checked {
        WithoutNoDuplicates(old(formData.resources), id);
      }
    }

    /** The `onChange` handler of one text input. */
    method HandleTextChange(field: TextField, value: string)
      modifies this
      ensures formData == WithText(old(formData), field, value)
    {
      formData := WithText(formData, field, value);
    }

    /**
     * `handleSubmit`, which the form's submit event reaches only when allowed:
     * the button is disabled while no resource is checked (ResourceRequest.tsx
     * line 187), and the browser holds back empty required inputs (lines 113
     * and 148). The record is the form's fields plus id, time, user, type and
     * status; the form is kept.
     */
    method HandleSubmit(id: string, timestamp: int, userId: string) returns (request: ResourceRequestRecord)
      requires SubmitAllowed(formData)
      ensures request.form == formData
      ensures request.id == id && request.timestamp == timestamp && request.userId == userId
      ensures request.requestType == "resource_request" && request.status == "pending"
    {
      request := ResourceRequestRecord(formData, id, timestamp, userId, "resource_request", "pending");
    }
  }
}
