/**
 * The emergency-help request form (src/components/victims/EmergencyRequest.tsx):
 * its initial state, the radio, text and checkbox updates, and the pending
 * request it submits with the caller's last known location.
 */
module EmergencyRequest {
  import opened Wrappers
  import opened Types

  datatype Urgency = UrgencyCritical | UrgencyHigh | UrgencyMedium

  datatype RequestKind = Medical | Shelter | Food | Evacuation | Protection | OtherNeed

  datatype ContactMethod = Phone | WhatsApp | Sms

  /** The three "vulnerable people" checkboxes. */
  datatype VulnerabilityFlag = Minors | Elderly | Disabilities

  /** `formData`. */
  datatype EmergencyForm = EmergencyForm(
    urgency: Urgency,
    requestType: RequestKind,
    peopleAffected: string,
    description: string,
    contactMethod: ContactMethod,
    hasMinors: bool,
    hasElderly: bool,
    hasDisabilities: bool)

  /** The submitted request: the form's fields plus the fields `handleSubmit` adds. */
  datatype EmergencyRecord = EmergencyRecord(
    form: EmergencyForm,
    id: string,
    timestamp: int,
    userId: string,
    status: string,
    location: Option<UserLocation>)

  /** High urgency, medical help, contact by phone, no flag set, every text empty. */
  const InitialForm := EmergencyForm(UrgencyHigh, Medical, "", "", Phone, false, false, false)

  function Flag(f: EmergencyForm, flag: VulnerabilityFlag): bool
  {
    match flag
    case Minors => f.hasMinors
    case Elderly => f.hasElderly
    case Disabilities => f.hasDisabilities
  }

  /** A checkbox's change handler: its own flag takes the checked state. */
  function SetFlag(f: EmergencyForm, flag: VulnerabilityFlag, checked: bool): (g: EmergencyForm)
    ensures Flag(g, flag) == checked
    ensures forall other :: other != flag ==> Flag(g, other) == Flag(f, other)
    ensures g.urgency == f.urgency && g.requestType == f.requestType && g.contactMethod == f.contactMethod
    ensures g.peopleAffected == f.peopleAffected && g.description == f.description
  {
    match flag
    case Minors => f.(hasMinors := checked)
    case Elderly => f.(hasElderly := checked)
    case Disabilities => f.(hasDisabilities := checked)
  }

  /** The three flags start cleared. */
  lemma InitialFlagsClear(flag: VulnerabilityFlag)
    ensures !Flag(InitialForm, flag)
  {
  }

  /** Setting a flag to the state it already has changes nothing; setting it twice keeps the second state. */
  lemma SetFlagLaws(f: EmergencyForm, flag: VulnerabilityFlag, a: bool, b: bool)
    ensures SetFlag(f, flag, Flag(f, flag)) == f
    ensures SetFlag(SetFlag(f, flag, a), flag, b) == SetFlag(f, flag, b)
  {
  }

  /** The browser submits only when the two `required` inputs are filled in. */
  predicate RequiredFilled(f: EmergencyForm)
  {
    f.peopleAffected != "" && f.description != ""
  }

  /**
   * `handleSubmit`'s request: the form copied whole, with id, time, user and
   * status, and `lastKnownLocation || null` as the location.
   */
  function BuildRequest(f: EmergencyForm, id: string, timestamp: int, userId: string, lastKnownLocation: Option<UserLocation>)
    : (r: EmergencyRecord)
    ensures r.form == f && r.id == id && r.timestamp == timestamp && r.userId == userId
    ensures r.status == "pending"
    ensures r.location.None? <==> lastKnownLocation.None?
    ensures lastKnownLocation.Some? ==> r.location == lastKnownLocation
  {
    EmergencyRecord(f, id, timestamp, userId, "pending",
      if lastKnownLocation.Some? then lastKnownLocation else None)
  }

  class EmergencyRequestForm {
    var formData: EmergencyForm

    constructor ()
      ensures formData == InitialForm
    {
      formData := InitialForm;
    }

    method SetUrgency(u: Urgency)
      modifies this
      ensures formData == old(formData).(urgency := u)
    {
      formData := formData.(urgency := u);
    }

    method SetRequestType(k: RequestKind)
      modifies this
      ensures formData == old(formData).(requestType := k)
    {
      formData := formData.(requestType := k);
    }

    method SetPeopleAffected(v: string)
      modifies this
      ensures formData == old(formData).(peopleAffected := v)
    {
      formData := formData.(peopleAffected := v);
    }

    method SetDescription(v: string)
      modifies this
      ensures formData == old(formData).(description := v)
    {
      formData := formData.(description := v);
    }

    method SetContactMethod(m: ContactMethod)
      modifies this
      ensures formData == old(formData).(contactMethod := m)
    {
      formData := formData.(contactMethod := m);
    }

    /** One of the three checkboxes. */
    method HandleCheckbox(flag: VulnerabilityFlag, checked: bool)
      modifies this
      ensures formData == SetFlag(old(formData), flag, checked)
    {
      formData := SetFlag(formData, flag, checked);
    }

    /**
     * `handleSubmit`, reached once the browser lets the form through: its
     * required inputs (EmergencyRequest.tsx lines 122 and 168) are filled in.
     * The form is kept.
     */
    method HandleSubmit(id: string, timestamp: int, userId: string, lastKnownLocation: Option<UserLocation>)
      returns (request: EmergencyRecord)
      requires RequiredFilled(formData)
      ensures request == BuildRequest(formData, id, timestamp, userId, lastKnownLocation)
    {
      request := BuildRequest(formData, id, timestamp, userId, lastKnownLocation);
    }
  }
}
