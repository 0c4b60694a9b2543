/**
 * The main page (src/pages/Index.tsx): the signed-in user, the incident list
 * with its sample content and newest-first submissions, the device location,
 * the menu and report sheet flags, and the per-user report count.
 */
module IndexPage {
  import opened Wrappers
  import opened Types
  import ReportIncident

  datatype Tab = MapTab | IncidentsTab | NetworkTab | ProfileTab

  /**
   * The three sample incidents loaded on mount, in order. Their locations carry
   * only lat and lng. The report dates are read as UTC milliseconds.
   */
  const SampleIncidents: seq<Incident> := [
    Incident("1", "Bloqueo de vía principal",
      "Manifestación pacífica bloqueando la vía Popayán-Cali a la altura del peaje",
      Other, Active, Location(2.4448, -76.6147, None, None), "user-1", 1718361000000,
      Medium, None, true, Some("leader-1")),
    Incident("2", "Deslizamiento en zona rural",
      "Deslizamiento de tierra afecta acceso a veredas en la zona alta de Timbío",
      NaturalDisaster, Active, Location(2.3444, -76.6847, None, None), "user-2", 1718352900000,
      High, Some(Number(15)), false, None),
    Incident("3", "Amenaza a líder comunitario",
      "Líder social recibe amenazas por WhatsApp en el norte del Cauca",
      Threat, Investigating, Location(2.8448, -76.4147, None, None), "user-3", 1718318700000,
      Critical, None, true, Some("leader-2"))]

  /**
   * `handleIncidentSubmit`'s record: the submitted fields spread, with a fresh
   * id and date, and marked unverified.
   */
  function NewIncident(d: ReportIncident.IncidentDraft, id: string, reportedAt: Timestamp): (inc: Incident)
    ensures inc.id == id && inc.reportedAt == reportedAt
    ensures !inc.verified && inc.verifiedBy.None?
    ensures DraftOf(inc) == d
  {
    Incident(id, d.title, d.description, d.kind, d.status, d.location, d.reportedBy, reportedAt,
      d.severity, d.affectedPeople, false, None)
  }

  /** The fields of an incident that its reporter supplies. */
  function DraftOf(inc: Incident): ReportIncident.IncidentDraft
  {
    ReportIncident.IncidentDraft(inc.title, inc.description, inc.kind, inc.status, inc.location,
      inc.reportedBy, inc.severity, inc.affectedPeople)
  }

  /** `incidents.filter(i => i.reportedBy === userId)`. */
  function ReportsBy(incidents: seq<Incident>, userId: string): (r: seq<Incident>)
    ensures |r| <= |incidents|
    ensures forall x :: x in r <==> x in incidents && x.reportedBy == userId
    ensures forall x :: multiset(r)[x] == if x.reportedBy == userId then multiset(incidents)[x] else 0
  {
    if incidents == [] then []
    else
      assert incidents == [incidents[0]] + incidents[1..];
      (if incidents[0].reportedBy == userId then [incidents[0]] else []) + ReportsBy(incidents[1..], userId)
  }

  /** The "Reportes realizados" figure of the profile tab. */
  function ReportsMade(incidents: seq<Incident>, user: User): nat
  {
    |ReportsBy(incidents, user.id)|
  }

  /** Filtering distributes over concatenation, preserving order. */
  lemma {:induction false} ReportsByConcat(a: seq<Incident>, b: seq<Incident>, userId: string)
    ensures ReportsBy(a + b, userId) == ReportsBy(a, userId) + ReportsBy(b, userId)
  {
    if a == [] {
      assert a + b == b;
    } else {
      assert (a + b)[1..] == a[1..] + b;
      ReportsByConcat(a[1..], b, userId);
    }
  }

  /** A user has made no report exactly when no incident names them as reporter. */
  lemma NoReportsIff(incidents: seq<Incident>, user: User)
    ensures ReportsMade(incidents, user) == 0 <==> forall i :: 0 <= i < |incidents| ==> incidents[i].reportedBy != user.id
  {
    var r := ReportsBy(incidents, user.id);
    if |r| != 0 {
      assert r[0] in r;
    }
    if |r| == 0 {
      forall i | 0 <= i < |incidents| ensures incidents[i].reportedBy != user.id {
        assert incidents[i] in incidents;
      }
    }
  }

  /**
   * Submitting raises the count of the reporter by one and leaves every other
   * user's count as it was.
   */
  lemma SubmitCountsOnce(incidents: seq<Incident>, d: ReportIncident.IncidentDraft, id: string, t: Timestamp, user: User)
    ensures ReportsMade([NewIncident(d, id, t)] + incidents, user)
      == ReportsMade(incidents, user) + (if d.reportedBy == user.id then 1 else 0)
  {
    ReportsByConcat([NewIncident(d, id, t)], incidents, user.id);
  }

  /** Each sample incident has a different reporter, so every one of them counts one report. */
  lemma SampleReportCounts(user: User)
    ensures user.id in {"user-1", "user-2", "user-3"} ==> ReportsMade(SampleIncidents, user) == 1
    ensures user.id !in {"user-1", "user-2", "user-3"} ==> ReportsMade(SampleIncidents, user) == 0
  {
    var s := SampleIncidents;
    assert s == [s[0]] + [s[1]] + [s[2]];
    ReportsByConcat([s[0]] + [s[1]], [s[2]], user.id);
    ReportsByConcat([s[0]], [s[1]], user.id);
  }

  /** The menu entries, in order; "Mi Red" only for a leader. */
  function MenuEntries(role: Role): (tabs: seq<Tab>)
    ensures NetworkTab in tabs <==> role == Leader
    ensures |tabs| >= 3 && tabs[0] == MapTab && tabs[|tabs| - 1] == ProfileTab
  {
    [MapTab, IncidentsTab] + (if role == Leader then [NetworkTab] else []) + [ProfileTab]
  }

  /** The tab panels rendered; the network panel only for a leader. */
  function TabPanels(role: Role): (tabs: set<Tab>)
    ensures NetworkTab in tabs <==> role == Leader
    ensures forall t :: t in MenuEntries(role) ==> t in tabs
  {
    {MapTab, IncidentsTab, ProfileTab} + (if role == Leader then {NetworkTab} else {})
  }

  /** The severity badge of the incident list, written inline as a chain of conditionals. */
  function SeverityBadge(s: Severity): string
  {
    if s == Critical then "Crítico"
    else if s == High then "Alto"
    else if s == Medium then "Medio"
    else "Bajo"
  }

  /** The inline severity badge agrees with `SEVERITY_LEVELS`. */
  lemma SeverityBadgeMatchesTable(s: Severity)
    ensures s in SeverityLevels && SeverityBadge(s) == SeverityLevels[s]
  {
    SeverityLevelsTable();
  }

  /** The icon of the incident list, written inline as a chain of conditionals. */
  function ListIcon(kind: IncidentType): string
  {
    if kind == Attack then "\U{1F6A8}"
    else if kind == Displacement then "\U{1F3E0}"
    else if kind == Threat then "\U{26A0}\U{FE0F}"
    else if kind == NaturalDisaster then "\U{1F30A}"
    else "\U{1F4CD}"
  }

  /** The role badge of the side menu, as written: only a leader is told apart. */
  function MenuRoleBadge(role: Role): string
  {
    if role == Leader then "Líder" else "Ciudadano"
  }

  /** The account-type badge of the profile tab, as written: only a leader is told apart. */
  function ProfileRoleBadge(role: Role): string
  {
    if role == Leader then "Líder Comunitario" else "Ciudadano"
  }

  /** As written, an administrator's profile says "Ciudadano", not the role's label. */
  lemma AdminShownAsCitizen()
    ensures ProfileRoleBadge(Admin) == ProfileRoleBadge(Citizen) == "Ciudadano"
    ensures Admin in UserRoles && ProfileRoleBadge(Admin) != UserRoles[Admin]
    ensures MenuRoleBadge(Admin) == MenuRoleBadge(Citizen)
  {
  }

  /** The profile badge taken from `USER_ROLES`, which tells every role apart. */
  function ProfileRoleLabel(role: Role): (caption: string)
    ensures role in UserRoles && caption == UserRoles[role]
  {
    UserRolesTable();
    UserRoles[role]
  }

  /** The corrected badge keeps the two roles the page already shows and names every role differently. */
  lemma ProfileRoleLabelCorrect(a: Role, b: Role)
    ensures a != Admin ==> ProfileRoleLabel(a) == ProfileRoleBadge(a)
    ensures a != b ==> ProfileRoleLabel(a) != ProfileRoleLabel(b)
  {
    UserRolesTable();
  }

  class IndexState {
    var user: Option<User>
    var incidents: seq<Incident>
    var userLocation: Option<UserLocation>
    var isMenuOpen: bool
    var activeTab: Tab
    var isReportSheetOpen: bool

    /** The first render: signed out, no incidents yet, map tab, menus closed. */
    constructor ()
      ensures user.None? && incidents == [] && userLocation.None?
      ensures !isMenuOpen && activeTab == MapTab && !isReportSheetOpen
    {
      user := None;
      incidents := [];
      userLocation := None;
      isMenuOpen := false;
      activeTab := MapTab;
      isReportSheetOpen := false;
    }

    /** The mount effect: the sample incidents replace the list. */
    method LoadSampleIncidents()
      modifies this`incidents
      ensures incidents == SampleIncidents
    {
      incidents := SampleIncidents;
    }

    /** `handleLogin`: stores the given user record as it is. */
    method HandleLogin(u: User)
      modifies this`user
      ensures user == Some(u)
    {
      user := Some(u);
    }

    /** `handleLogout`: signs out, forgets the location and closes the menu; the list stays. */
    method HandleLogout()
      modifies this`user, this`userLocation, this`isMenuOpen
      ensures user.None? && userLocation.None? && !isMenuOpen
    {
      user := None;
      userLocation := None;
      isMenuOpen := false;
    }

    /** `handleLocationUpdate`: stores the reported position. */
    method HandleLocationUpdate(l: UserLocation)
      modifies this`userLocation
      ensures userLocation == Some(l)
    {
      userLocation := Some(l);
    }

    /**
     * A menu entry, of those the signed-in user is shown (Index.tsx lines
     * 192-240; "Mi Red" for leaders only, line 216): switches to its tab and
     * closes the menu.
     */
    method SelectFromMenu(tab: Tab)
      requires user.Some? && tab in MenuEntries(user.value.role)
      modifies this`activeTab, this`isMenuOpen
      ensures activeTab == tab && !isMenuOpen
    {
      activeTab := tab;
      isMenuOpen := false;
    }

    /**
     * `handleIncidentSubmit`: the completed incident goes first, the previous
     * list follows unchanged, and the report sheet closes.
     */
    method HandleIncidentSubmit(d: ReportIncident.IncidentDraft, id: string, reportedAt: Timestamp)
      modifies this`incidents, this`isReportSheetOpen
      ensures incidents == [NewIncident(d, id, reportedAt)] + old(incidents)
      ensures |incidents| == |old(incidents)| + 1 && incidents[1..] == old(incidents)
      ensures !incidents[0].verified && !isReportSheetOpen
    {
      incidents := [NewIncident(d, id, reportedAt)] + incidents;
      isReportSheetOpen := false;
    }
  }
}
