/**
 * The incident report form (src/components/incidents/ReportIncident.tsx):
 * field edits, the guard on type and severity, the record built from the form
 * with its fallbacks, and the `loading`/`success`/form state around a submit.
 */
module ReportIncident {
  import opened Wrappers
  import opened Types
  import JsNumbers

  /** `formData`; an unset select is `None` (the source's empty string). */
  datatype ReportForm = ReportForm(
    title: string,
    description: string,
    kind: Option<IncidentType>,
    location: string,
    severity: Option<Severity>,
    affectedPeople: string)

  /** One call of `handleChange(field, value)`, with the value the input produced. */
  datatype ReportEdit =
    | SetTitle(title: string)
    | SetDescription(description: string)
    | SetType(kind: IncidentType)
    | SetLocation(location: string)
    | SetSeverity(severity: Severity)
    | SetAffectedPeople(affectedPeople: string)

  datatype ReportField = TitleField | DescriptionField | TypeField | LocationField | SeverityField | AffectedPeopleField

  /**
   * What `handleSubmit` passes on: an incident without the `id`, `reportedAt`,
   * `verified` and `verifiedBy` fields, which the index page adds.
   */
  datatype IncidentDraft = IncidentDraft(
    title: string,
    description: string,
    kind: IncidentType,
    status: IncidentStatus,
    location: Location,
    reportedBy: string,
    severity: Severity,
    affectedPeople: Option<ParsedNumber>)

  /** Popayán's position, used when the device gave none. */
  const FallbackLat: real := 2.4448
  const FallbackLng: real := -76.6147

  function FieldOf(e: ReportEdit): ReportField
  {
    match e
    case SetTitle(_) => TitleField
    case SetDescription(_) => DescriptionField
    case SetType(_) => TypeField
    case SetLocation(_) => LocationField
    case SetSeverity(_) => SeverityField
    case SetAffectedPeople(_) => AffectedPeopleField
  }

  /** `f` and `g` hold the same value in `field`. */
  predicate AgreeOn(f: ReportForm, g: ReportForm, field: ReportField)
  {
    match field
    case TitleField => f.title == g.title
    case DescriptionField => f.description == g.description
    case TypeField => f.kind == g.kind
    case LocationField => f.location == g.location
    case SeverityField => f.severity == g.severity
    case AffectedPeopleField => f.affectedPeople == g.affectedPeople
  }

  /** `handleChange`: the named field takes the new value and every other field is kept. */
  function ApplyEdit(f: ReportForm, e: ReportEdit): (g: ReportForm)
    ensures forall field :: field != FieldOf(e) ==> AgreeOn(f, g, field)
    ensures match e
      case SetTitle(v) => g.title == v
      case SetDescription(v) => g.description == v
      case SetType(t) => g.kind == Some(t)
      case SetLocation(v) => g.location == v
      case SetSeverity(s) => g.severity == Some(s)
      case SetAffectedPeople(v) => g.affectedPeople == v
  {
    match e
    case SetTitle(v) => f.(title := v)
    case SetDescription(v) => f.(description := v)
    case SetType(t) => f.(kind := Some(t))
    case SetLocation(v) => f.(location := v)
    case SetSeverity(s) => f.(severity := Some(s))
    case SetAffectedPeople(v) => f.(affectedPeople := v)
  }

  /** Two forms that agree on every field are the same form. */
  lemma AgreeEverywhere(f: ReportForm, g: ReportForm)
    requires forall field :: AgreeOn(f, g, field)
    ensures f == g
  {
    assert AgreeOn(f, g, TitleField) && AgreeOn(f, g, DescriptionField) && AgreeOn(f, g, TypeField);
    assert AgreeOn(f, g, LocationField) && AgreeOn(f, g, SeverityField) && AgreeOn(f, g, AffectedPeopleField);
  }

  /** Editing a field twice keeps only the second value. */
  lemma EditOverwrites(f: ReportForm, e1: ReportEdit, e2: ReportEdit)
    requires FieldOf(e1) == FieldOf(e2)
    ensures ApplyEdit(ApplyEdit(f, e1), e2) == ApplyEdit(f, e2)
  {
    var g1 := ApplyEdit(ApplyEdit(f, e1), e2);
    var g2 := ApplyEdit(f, e2);
    forall field ensures AgreeOn(g1, g2, field) {
      if field != FieldOf(e2) {
        assert AgreeOn(ApplyEdit(f, e1), g1, field);
      }
    }
    AgreeEverywhere(g1, g2);
  }

  /** The form as first shown and after a reset: empty, with the location prefilled. */
  function EmptyForm(prefill: string): ReportForm
  {
    ReportForm("", "", None, prefill, None, "")
  }

  /**
   * The location input's prefill: the device coordinates as text
   * (`${lat}, ${lng}`, formatted by `format`), or empty without them.
   */
  function Prefill(userLocation: Option<UserLocation>, format: (real, real) -> string): (text: string)
    ensures userLocation.None? ==> text == ""
  {
    if userLocation.Some? then format(userLocation.value.lat, userLocation.value.lng) else ""
  }

  /** `x || fallback` on a number: a missing value or zero gives the fallback. */
  function NumberOr(x: Option<real>, fallback: real): (r: real)
    ensures x.Some? && x.value != 0.0 ==> r == x.value
    ensures x.None? || x.value == 0.0 ==> r == fallback
  {
    if x.Some? && x.value != 0.0 then x.value else fallback
  }

  /** `s || fallback` on a string: the empty string gives the fallback. */
  function TextOr(s: string, fallback: string): (r: string)
    ensures s != "" ==> r == s
    ensures s == "" ==> r == fallback
  {
    if s != "" then s else fallback
  }

  function LatOf(l: UserLocation): real { l.lat }
  function LngOf(l: UserLocation): real { l.lng }

  /**
   * The incident `handleSubmit` builds, or `None` when the guard stops it
   * because no type or no severity was chosen.
   */
  function BuildIncident(f: ReportForm, userLocation: Option<UserLocation>, user: User): (r: Option<IncidentDraft>)
    ensures r.None? <==> f.kind.None? || f.severity.None?
    ensures r.Some? ==>
      && r.value.title == f.title && r.value.description == f.description
      && Some(r.value.kind) == f.kind && Some(r.value.severity) == f.severity
      && r.value.status == Active
      && r.value.reportedBy == user.id
      && r.value.location.municipality == Some(user.region)
      && r.value.location.address == Some(if f.location != "" then f.location else user.region)
      && (userLocation.Some? && userLocation.value.lat != 0.0 ==> r.value.location.lat == userLocation.value.lat)
      && (userLocation.None? || userLocation.value.lat == 0.0 ==> r.value.location.lat == FallbackLat)
      && (userLocation.Some? && userLocation.value.lng != 0.0 ==> r.value.location.lng == userLocation.value.lng)
      && (userLocation.None? || userLocation.value.lng == 0.0 ==> r.value.location.lng == FallbackLng)
      && (r.value.affectedPeople.None? <==> f.affectedPeople == "")
      && (f.affectedPeople != "" ==> r.value.affectedPeople == Some(JsNumbers.ParseInt(f.affectedPeople)))
  {
    if f.kind.None? || f.severity.None? then None
    else
      var location := Location(
        NumberOr(if userLocation.Some? then Some(LatOf(userLocation.value)) else None, FallbackLat),
        NumberOr(if userLocation.Some? then Some(LngOf(userLocation.value)) else None, FallbackLng),
        Some(TextOr(f.location, user.region)),
        Some(user.region));
      Some(IncidentDraft(
        f.title,
        f.description,
        f.kind.value,
        Active,
        location,
        user.id,
        f.severity.value,
        if f.affectedPeople != "" then Some(JsNumbers.ParseInt(f.affectedPeople)) else None))
  }

  /** Every built incident carries an address and a municipality, as the type declares. */
  lemma BuiltLocationComplete(f: ReportForm, userLocation: Option<UserLocation>, user: User)
    requires BuildIncident(f, userLocation, user).Some?
    ensures CompleteLocation(BuildIncident(f, userLocation, user).value.location)
  {
  }

  /** The browser submits only when the `required` title, location and description inputs are filled in. */
  predicate RequiredFilled(f: ReportForm)
  {
    f.title != "" && f.location != "" && f.description != ""
  }

  /**
   * Since the location input is required, the address of a submitted report
   * is always the typed location; the fallback to the region is never taken.
   */
  lemma AddressIsTyped(f: ReportForm, userLocation: Option<UserLocation>, user: User)
    requires RequiredFilled(f) && f.kind.Some? && f.severity.Some?
    ensures BuildIncident(f, userLocation, user).value.location.address == Some(f.location)
  {
  }

  /** Because the fallback uses `||`, a device latitude of exactly 0 is replaced like a missing one. */
  lemma ZeroLatitudeFallsBack(f: ReportForm, user: User, lng: real, t: Timestamp)
    requires f.kind.Some? && f.severity.Some?
    ensures BuildIncident(f, Some(UserLocation(0.0, lng, None, t)), user).value.location.lat == FallbackLat
  {
  }

  /** A typed affected-people count in decimal reaches the incident as that number. */
  lemma AffectedPeopleParsed(f: ReportForm, userLocation: Option<UserLocation>, user: User, n: nat)
    requires f.kind.Some? && f.severity.Some?
    requires f.affectedPeople == JsNumbers.DecimalString(n)
    ensures BuildIncident(f, userLocation, user).value.affectedPeople == Some(Number(n))
  {
    JsNumbers.ParseIntDecimal(n);
  }

  class ReportIncidentForm {
    var formData: ReportForm
    var loading: bool
    var success: bool

    /** The initial state, with the location prefilled from the device position. */
    constructor (userLocation: Option<UserLocation>, format: (real, real) -> string)
      ensures formData == EmptyForm(Prefill(userLocation, format))
      ensures !loading && !success
    {
      formData := EmptyForm(Prefill(userLocation, format));
      loading := false;
      success := false;
    }

    method HandleChange(e: ReportEdit)
      modifies this
      ensures formData == ApplyEdit(old(formData), e)
      ensures loading == old(loading) && success == old(success)
    {
      formData := ApplyEdit(formData, e);
    }

    /**
     * `handleSubmit`, from the click to the settled state. The button is
     * disabled while loading (ReportIncident.tsx line 188), and the browser
     * holds back a form whose required title, location or description input
     * is empty (lines 111, 154 and 182). `callbackFails` says whether the awaited `onSubmit`
     * threw. Without a type or a severity nothing happens. Otherwise the draft
     * is handed on; on success the form is reset (location prefilled again) and
     * `success` raised; on failure the form is kept. Either way `loading` ends
     * false.
     */
    method HandleSubmit(userLocation: Option<UserLocation>, user: User, format: (real, real) -> string, callbackFails: bool)
      returns (submitted: Option<IncidentDraft>)
      requires !loading && RequiredFilled(formData)
      modifies this
      ensures submitted == BuildIncident(old(formData), userLocation, user)
      ensures submitted.None? ==> formData == old(formData) && loading == old(loading) && success == old(success)
      ensures submitted.Some? && !callbackFails ==> formData == EmptyForm(Prefill(userLocation, format)) && !loading && success
      ensures submitted.Some? && callbackFails ==> formData == old(formData) && !loading && success == old(success)
    {
      submitted := BuildIncident(formData, userLocation, user);
      if submitted.None? {
        return;
      }
      loading := true;
      if !callbackFails {
        loading := false;
        success := true;
        formData := EmptyForm(Prefill(userLocation, format));
      } else {
        loading := false;
      }
    }
  }
}
