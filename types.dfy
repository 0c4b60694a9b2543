/**
 * The entities shared by the components (src/types/index.ts): users, incidents
 * and the label tables that present the incident type, severity and role enums.
 *
 * Dates are kept as opaque integer timestamps supplied by the caller, and
 * latitudes and longitudes as `real` values that are only stored and copied.
 */
module Types {
  import opened Wrappers

  datatype Role = Citizen | Leader | Admin

  datatype IncidentType = Attack | Displacement | Threat | NaturalDisaster | Other

  datatype IncidentStatus = Active | Resolved | Investigating | Pending

  datatype Severity = Low | Medium | High | Critical

  /** A `Date` value, as an opaque timestamp. */
  type Timestamp = int

  /** The number `parseInt` produces: an integer, or `NaN` when no digit was read. */
  datatype ParsedNumber = Number(value: int) | NaN

  /** A position reported by the device (`UserLocation`). */
  datatype UserLocation = UserLocation(lat: real, lng: real, accuracy: Option<real>, timestamp: Timestamp)

  /**
   * `Incident.location`. The interface declares `address` and `municipality`
   * as required strings; the sample incidents of the index page leave them out,
   * so at run time they can be absent, and the model says so with `Option`.
   */
  datatype Location = Location(lat: real, lng: real, address: Option<string>, municipality: Option<string>)

  datatype User = User(
    id: string,
    name: string,
    email: string,
    phone: Option<string>,
    role: Role,
    region: string,
    municipality: Option<string>,
    verified: bool,
    createdAt: Timestamp,
    lastAccess: Timestamp)

  datatype Incident = Incident(
    id: string,
    title: string,
    description: string,
    kind: IncidentType,
    status: IncidentStatus,
    location: Location,
    reportedBy: string,
    reportedAt: Timestamp,
    severity: Severity,
    affectedPeople: Option<ParsedNumber>,
    verified: bool,
    verifiedBy: Option<string>)

  /** A location carries every field the `Incident` interface declares. */
  predicate CompleteLocation(l: Location)
  {
    l.address.Some? && l.municipality.Some?
  }

  /** `INCIDENT_TYPES`: the display label of each incident type. */
  const IncidentTypes: map<IncidentType, string> := map[
    Attack := "Ataque armado",
    Displacement := "Desplazamiento forzado",
    Threat := "Amenaza",
    NaturalDisaster := "Desastre natural",
    Other := "Otro"]

  /** `SEVERITY_LEVELS`: the display label of each severity. */
  const SeverityLevels: map<Severity, string> := map[
    Low := "Bajo",
    Medium := "Medio",
    High := "Alto",
    Critical := "Crítico"]

  /** `USER_ROLES`: the display label of each role. */
  const UserRoles: map<Role, string> := map[
    Citizen := "Ciudadano",
    Leader := "Líder Comunitario",
    Admin := "Administrador"]

  /** Every incident type has exactly one label, and no two types share one. */
  lemma IncidentTypesTable()
    ensures forall t: IncidentType :: t in IncidentTypes
    ensures |IncidentTypes| == 5
    ensures forall a, b :: a in IncidentTypes && b in IncidentTypes && a != b ==> IncidentTypes[a] != IncidentTypes[b]
  {
    forall t: IncidentType ensures t in IncidentTypes {
      match t
      case Attack =>
      case Displacement =>
      case Threat =>
      case NaturalDisaster =>
      case Other =>
    }
  }

  /** Every severity has exactly one label, and no two severities share one. */
  lemma SeverityLevelsTable()
    ensures forall s: Severity :: s in SeverityLevels
    ensures |SeverityLevels| == 4
    ensures forall a, b :: a in SeverityLevels && b in SeverityLevels && a != b ==> SeverityLevels[a] != SeverityLevels[b]
  {
    forall s: Severity ensures s in SeverityLevels {
      match s
      case Low =>
      case Medium =>
      case High =>
      case Critical =>
    }
  }

  /** Every role has exactly one label, and no two roles share one. */
  lemma UserRolesTable()
    ensures forall r: Role :: r in UserRoles
    ensures |UserRoles| == 3
    ensures forall a, b :: a in UserRoles && b in UserRoles && a != b ==> UserRoles[a] != UserRoles[b]
  {
    forall r: Role ensures r in UserRoles {
      match r
      case Citizen =>
      case Leader =>
      case Admin =>
    }
  }
}
