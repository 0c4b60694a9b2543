/**
 * The OpenStreetMap variant of the map (src/components/map/OpenStreetCaucaMap.tsx):
 * the marker colour and icon tables, the initial centre, the marker list that
 * is rebuilt from the incident list, recentering, and the locating flag.
 *
 * A Leaflet map is modelled by the view it shows and a Leaflet marker by the
 * data it is built from; the library itself is not part of this model.
 */
module OpenStreetCaucaMap {
  import opened Wrappers
  import opened Types
  import RegionCoords
  import IndexPage
  import CaucaMap

  /** `getIncidentColor`: one hex colour per type, darker for a critical incident. */
  function IncidentColor(kind: IncidentType, s: Severity): string
  {
    var critical := s == Critical;
    match kind
    case Attack => if critical then "#dc2626" else "#ef4444"
    case Displacement => if critical then "#ea580c" else "#f97316"
    case Threat => if critical then "#d97706" else "#f59e0b"
    case NaturalDisaster => if critical then "#2563eb" else "#3b82f6"
    case Other => if critical then "#475569" else "#64748b"
  }

  /**
   * Severity matters to the colour only as critical or not, and for every type
   * the critical colour differs from the other one.
   */
  lemma ColorOnlyByCritical(kind: IncidentType, s1: Severity, s2: Severity)
    ensures (s1 == Critical <==> s2 == Critical) ==> IncidentColor(kind, s1) == IncidentColor(kind, s2)
    ensures (s1 == Critical) != (s2 == Critical) ==> IncidentColor(kind, s1) != IncidentColor(kind, s2)
  {
  }

  /** `getIncidentIcon`: one emoji per type. */
  function IncidentIcon(kind: IncidentType): string
  {
    match kind
    case Attack => "\U{1F6A8}"
    case Displacement => "\U{1F3E0}"
    case Threat => "\U{26A0}\U{FE0F}"
    case NaturalDisaster => "\U{1F30A}"
    case Other => "\U{1F4CD}"
  }

  /** The icons agree with the incident list's and with the corrected drawn-map icons. */
  lemma IconsAgree(kind: IncidentType)
    ensures IncidentIcon(kind) == IndexPage.ListIcon(kind)
    ensures IncidentIcon(kind) == CaucaMap.IncidentIcon(kind)
  {
  }

  /** The severity label of a marker's popup, written inline. */
  function PopupSeverity(s: Severity): string
  {
    if s == Critical then "Crítico"
    else if s == High then "Alto"
    else if s == Medium then "Medio"
    else "Bajo"
  }

  /** The popup's label agrees with `SEVERITY_LEVELS`. */
  lemma PopupSeverityMatchesTable(s: Severity)
    ensures s in SeverityLevels && PopupSeverity(s) == SeverityLevels[s]
  {
    IndexPage.SeverityBadgeMatchesTable(s);
  }

  /** A marker: where it stands, how it looks, and the incident its click selects. */
  datatype Marker = Marker(lat: real, lng: real, color: string, icon: string, incident: Incident)

  function MarkerFor(incident: Incident): (m: Marker)
    ensures m.incident == incident
    ensures m.lat == incident.location.lat && m.lng == incident.location.lng
    ensures m.color == IncidentColor(incident.kind, incident.severity) && m.icon == IncidentIcon(incident.kind)
  {
    Marker(incident.location.lat, incident.location.lng,
      IncidentColor(incident.kind, incident.severity), IncidentIcon(incident.kind), incident)
  }

  /** The markers of a list of incidents: one per incident, in the same order. */
  function MarkersFor(incidents: seq<Incident>): (ms: seq<Marker>)
    ensures |ms| == |incidents|
    ensures forall i :: 0 <= i < |incidents| ==> ms[i] == MarkerFor(incidents[i])
  {
    if incidents == [] then []
    else MarkersFor(incidents[..|incidents| - 1]) + [MarkerFor(incidents[|incidents| - 1])]
  }

  /** The markers give back the incident list they were built from. */
  lemma MarkersKeepIncidents(incidents: seq<Incident>)
    ensures seq(|MarkersFor(incidents)|, i requires 0 <= i < |MarkersFor(incidents)| => MarkersFor(incidents)[i].incident)
      == incidents
  {
  }

  /** The centre the map is created with: the user's region, else Popayán at zoom 8. */
  function InitialCenter(region: Option<string>): (c: RegionCoords.Coords)
    ensures CaucaMap.HasRegion(region) ==> c == RegionCoords.GetCoordsForRegion(region.value)
    ensures !CaucaMap.HasRegion(region) ==> c == RegionCoords.Coords(2.4448, -76.6147, 8)
  {
    if CaucaMap.HasRegion(region) then RegionCoords.GetCoordsForRegion(region.value)
    else RegionCoords.Coords(2.4448, -76.6147, 8)
  }

  /** Both maps start on the same view, and without a region that view is the lookup's fallback. */
  lemma SameStartAsDrawnMap(region: Option<string>)
    ensures InitialCenter(region) == CaucaMap.Focus(CaucaMap.InitialView, region)
    ensures !CaucaMap.HasRegion(region) ==> InitialCenter(region) == RegionCoords.DefaultCoords
  {
  }

  /** The zoom of `setView` after a position was found. */
  const LocatedZoom := 14

  class MapState {
    /** The Leaflet map's view; `None` while there is no map. */
    var view: Option<RegionCoords.Coords>
    /** `markersRef.current`. */
    var markers: seq<Marker>
    var isLocating: bool
    var selectedIncident: Option<Incident>

    /** Mounting: the map is created, centred by `InitialCenter`, once its container exists. */
    constructor (region: Option<string>, hasContainer: bool)
      ensures view == (if hasContainer then Some(InitialCenter(region)) else None)
      ensures markers == [] && !isLocating && selectedIncident.None?
    {
      view := if hasContainer then Some(InitialCenter(region)) else None;
      markers := [];
      isLocating := false;
      selectedIncident := None;
    }

    /**
     * The marker effect: without a map nothing happens; otherwise the old
     * markers are removed and one marker per incident is added, in order.
     */
    method RefreshMarkers(incidents: seq<Incident>)
      modifies this`markers
      ensures view.None? ==> markers == old(markers)
      ensures view.Some? ==> markers == MarkersFor(incidents)
    {
      if view.None? {
        return;
      }
      markers := [];
      var i := 0;
      while i < |incidents|
        invariant 0 <= i <= |incidents|
        invariant markers == MarkersFor(incidents[..i])
      {
        assert incidents[..i + 1][..i] == incidents[..i];
        markers := markers + [MarkerFor(incidents[i])];
        i := i + 1;
      }
      assert incidents[..i] == incidents;
    }

    /** `handleRecenterToUser`: only with a region and a map. */
    method HandleRecenterToUser(region: Option<string>)
      modifies this`view
      ensures CaucaMap.HasRegion(region) && old(view).Some? ==> view == Some(RegionCoords.GetCoordsForRegion(region.value))
      ensures !(CaucaMap.HasRegion(region) && old(view).Some?) ==> view == old(view)
    {
      if CaucaMap.HasRegion(region) && view.Some? {
        view := Some(RegionCoords.GetCoordsForRegion(region.value));
      }
    }

    /**
     * `handleGetLocation`, offered while not already locating (the button is
     * disabled at OpenStreetCaucaMap.tsx line 309): the flag goes
     * up; a request is made when the API exists.
     */
    method HandleGetLocation(hasGeolocation: bool) returns (requested: bool)
      requires !isLocating
      modifies this`isLocating
      ensures isLocating && requested == hasGeolocation
    {
      isLocating := true;
      requested := hasGeolocation;
    }

    /** The position callback: reported upward, the map centred on it at zoom 14, the flag down. */
    method LocationReceived(location: UserLocation) returns (reported: UserLocation)
      requires isLocating
      modifies this`view, this`isLocating
      ensures reported == location && !isLocating
      ensures old(view).Some? ==> view == Some(RegionCoords.Coords(location.lat, location.lng, LocatedZoom))
      ensures old(view).None? ==> view.None?
    {
      reported := location;
      if view.Some? {
        view := Some(RegionCoords.Coords(location.lat, location.lng, LocatedZoom));
      }
      isLocating := false;
    }

    /** The error callback: the flag drops. */
    method LocationFailed()
      requires isLocating
      modifies this`isLocating
      ensures !isLocating
    {
      isLocating := false;
    }

    /** A marker click: its incident is selected and reported upward. */
    method ClickMarker(k: nat) returns (clicked: Incident)
      requires k < |markers|
      modifies this`selectedIncident
      ensures clicked == old(markers)[k].incident && selectedIncident == Some(clicked)
    {
      clicked := markers[k].incident;
      selectedIncident := Some(clicked);
    }

    /** The details card's close button. */
    method CloseDetails()
      modifies this`selectedIncident
      ensures selectedIncident.None?
    {
      selectedIncident := None;
    }
  }
}
