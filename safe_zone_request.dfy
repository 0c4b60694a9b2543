/**
 * The safe-zone (shelter) request form (src/components/victims/SafeZoneRequest.tsx):
 * its initial state, the field updates, the conditional vulnerable-details
 * input, and the urgent request it submits with its priority rule.
 */
module SafeZoneRequest {

  datatype ReasonType = Violence | Disaster | Conflict | OtherReason

  datatype StayDuration = Temporary | Extended | Permanent

  /** `formData`. */
  datatype SafeZoneForm = SafeZoneForm(
    reasonType: ReasonType,
    peopleCount: string,
    hasVulnerable: bool,
    vulnerableDetails: string,
    currentLocation: string,
    duration: StayDuration,
    description: string,
    contactPhone: string)

  /** The submitted request: the form's fields plus the fields `handleSubmit` adds. */
  datatype SafeZoneRecord = SafeZoneRecord(
    form: SafeZoneForm,
    id: string,
    timestamp: int,
    userId: string,
    requestType: string,
    status: string,
    priority: string)

  /** One input's change handler, with the value it sets. */
  datatype SafeZoneEdit =
    | SetReasonType(reasonType: ReasonType)
    | SetPeopleCount(peopleCount: string)
    | SetHasVulnerable(hasVulnerable: bool)
    | SetVulnerableDetails(vulnerableDetails: string)
    | SetCurrentLocation(currentLocation: string)
    | SetDuration(duration: StayDuration)
    | SetDescription(description: string)
    | SetContactPhone(contactPhone: string)

  datatype SafeZoneField =
    ReasonField | PeopleCountField | HasVulnerableField | VulnerableDetailsField
    | CurrentLocationField | DurationField | DescriptionField | ContactPhoneField

  /** Violence, a temporary stay, nobody vulnerable, every text empty. */
  const InitialForm := SafeZoneForm(Violence, "", false, "", "", Temporary, "", "")

  /** The priority rule: a request for reasons of violence is critical, any other high. */
  function PriorityFor(reason: ReasonType): (p: string)
    ensures p == "critical" <==> reason == Violence
    ensures p == "critical" || p == "high"
  {
    if reason == Violence then "critical" else "high"
  }

  /** `handleSubmit`'s request: the form copied whole, with id, time, user, type, status and priority. */
  function BuildRequest(f: SafeZoneForm, id: string, timestamp: int, userId: string): (r: SafeZoneRecord)
    ensures r.form == f && r.id == id && r.timestamp == timestamp && r.userId == userId
    ensures r.requestType == "safe_zone_request" && r.status == "urgent"
    ensures r.priority == "critical" <==> f.reasonType == Violence
    ensures f.reasonType != Violence ==> r.priority == "high"
  {
    SafeZoneRecord(f, id, timestamp, userId, "safe_zone_request", "urgent", PriorityFor(f.reasonType))
  }

  /** Only the reason decides the priority: two forms with the same reason get the same priority. */
  lemma PriorityOnlyFromReason(f: SafeZoneForm, g: SafeZoneForm, id: string, t: int, u: string, id': string, t': int, u': string)
    requires f.reasonType == g.reasonType
    ensures BuildRequest(f, id, t, u).priority == BuildRequest(g, id', t', u').priority
  {
  }

  /** The details input is on screen only while "vulnerable people" is checked. */
  predicate VulnerableDetailsShown(f: SafeZoneForm)
  {
    f.hasVulnerable
  }

  /** The browser submits only when the four `required` inputs are filled in. */
  predicate RequiredFilled(f: SafeZoneForm)
  {
    f.peopleCount != "" && f.currentLocation != "" && f.description != "" && f.contactPhone != ""
  }

  function FieldOf(e: SafeZoneEdit): SafeZoneField
  {
    match e
    case SetReasonType(_) => ReasonField
    case SetPeopleCount(_) => PeopleCountField
    case SetHasVulnerable(_) => HasVulnerableField
    case SetVulnerableDetails(_) => VulnerableDetailsField
    case SetCurrentLocation(_) => CurrentLocationField
    case SetDuration(_) => DurationField
    case SetDescription(_) => DescriptionField
    case SetContactPhone(_) => ContactPhoneField
  }

  /** `f` and `g` hold the same value in `field`. */
  predicate AgreeOn(f: SafeZoneForm, g: SafeZoneForm, field: SafeZoneField)
  {
    match field
    case ReasonField => f.reasonType == g.reasonType
    case PeopleCountField => f.peopleCount == g.peopleCount
    case HasVulnerableField => f.hasVulnerable == g.hasVulnerable
    case VulnerableDetailsField => f.vulnerableDetails == g.vulnerableDetails
    case CurrentLocationField => f.currentLocation == g.currentLocation
    case DurationField => f.duration == g.duration
    case DescriptionField => f.description == g.description
    case ContactPhoneField => f.contactPhone == g.contactPhone
  }

  /** `setFormData({...formData, field: value})`: the named field changes and no other. */
  function ApplyEdit(f: SafeZoneForm, e: SafeZoneEdit): (g: SafeZoneForm)
    ensures forall field :: field != FieldOf(e) ==> AgreeOn(f, g, field)
    ensures match e
      case SetReasonType(v) => g.reasonType == v
      case SetPeopleCount(v) => g.peopleCount == v
      case SetHasVulnerable(v) => g.hasVulnerable == v
      case SetVulnerableDetails(v) => g.vulnerableDetails == v
      case SetCurrentLocation(v) => g.currentLocation == v
      case SetDuration(v) => g.duration == v
      case SetDescription(v) => g.description == v
      case SetContactPhone(v) => g.contactPhone == v
  {
    match e
    case SetReasonType(v) => f.(reasonType := v)
    case SetPeopleCount(v) => f.(peopleCount := v)
    case SetHasVulnerable(v) => f.(hasVulnerable := v)
    case SetVulnerableDetails(v) => f.(vulnerableDetails := v)
    case SetCurrentLocation(v) => f.(currentLocation := v)
    case SetDuration(v) => f.(duration := v)
    case SetDescription(v) => f.(description := v)
    case SetContactPhone(v) => f.(contactPhone := v)
  }

  lemma AgreeEverywhere(f: SafeZoneForm, g: SafeZoneForm)
    requires forall field :: AgreeOn(f, g, field)
    ensures f == g
  {
    assert AgreeOn(f, g, ReasonField) && AgreeOn(f, g, PeopleCountField);
    assert AgreeOn(f, g, HasVulnerableField) && AgreeOn(f, g, VulnerableDetailsField);
    assert AgreeOn(f, g, CurrentLocationField) && AgreeOn(f, g, DurationField);
    assert AgreeOn(f, g, DescriptionField) && AgreeOn(f, g, ContactPhoneField);
  }

  /** Edits of two different fields commute. */
  lemma EditsCommute(f: SafeZoneForm, e1: SafeZoneEdit, e2: SafeZoneEdit)
    requires FieldOf(e1) != FieldOf(e2)
    ensures ApplyEdit(ApplyEdit(f, e1), e2) == ApplyEdit(ApplyEdit(f, e2), e1)
  {
    var g1 := ApplyEdit(ApplyEdit(f, e1), e2);
    var g2 := ApplyEdit(ApplyEdit(f, e2), e1);
    forall field ensures AgreeOn(g1, g2, field) {
      if field == FieldOf(e1) {
        assert AgreeOn(ApplyEdit(f, e1), g1, field);
      } else if field == FieldOf(e2) {
        assert AgreeOn(ApplyEdit(f, e2), g2, field);
      } else {
        assert AgreeOn(f, ApplyEdit(f, e1), field) && AgreeOn(f, ApplyEdit(f, e2), field);
      }
    }
    AgreeEverywhere(g1, g2);
  }

  /**
   * Unchecking "vulnerable people" hides the details input but keeps its text,
   * which the request then still carries.
   */
  lemma HiddenDetailsKept(f: SafeZoneForm, id: string, t: int, u: string)
    ensures !VulnerableDetailsShown(ApplyEdit(f, SetHasVulnerable(false)))
    ensures BuildRequest(ApplyEdit(f, SetHasVulnerable(false)), id, t, u).form.vulnerableDetails == f.vulnerableDetails
  {
    assert AgreeOn(f, ApplyEdit(f, SetHasVulnerable(false)), VulnerableDetailsField);
  }

  class SafeZoneRequestForm {
    var formData: SafeZoneForm

    constructor ()
      ensures formData == InitialForm
    {
      formData := InitialForm;
    }

    /**
     * An input's change; the details input can only change while it is shown
     * (SafeZoneRequest.tsx line 119).
     */
    method HandleEdit(e: SafeZoneEdit)
      requires e.SetVulnerableDetails? ==> VulnerableDetailsShown(formData)
      modifies this
      ensures formData == ApplyEdit(old(formData), e)
    {
      formData := ApplyEdit(formData, e);
    }

    /**
     * `handleSubmit`, reached once the browser lets the form through: its
     * required inputs (SafeZoneRequest.tsx lines 97, 137, 172 and 186) are
     * filled in. The form is kept.
     */
    method HandleSubmit(id: string, timestamp: int, userId: string) returns (request: SafeZoneRecord)
      requires RequiredFilled(formData)
      ensures request == BuildRequest(formData, id, timestamp, userId)
    {
      request := BuildRequest(formData, id, timestamp, userId);
    }
  }
}
