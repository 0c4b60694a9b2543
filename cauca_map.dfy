/**
 * The drawn map of the incident screen (src/components/map/CaucaMap.tsx): the
 * icon and colour class of each incident marker, the map's centre and zoom
 * driven by the region lookup, the locating flag and the selected incident.
 */
module CaucaMap {
  import opened Wrappers
  import opened Types
  import RegionCoords
  import IndexPage
  import JsNumbers
  import TextEncoding

  /**
   * `getIncidentIcon` as the file holds it: each literal is the Mac OS Roman
   * reading of the UTF-8 bytes of the intended emoji.
   */
  function IconAsWritten(kind: IncidentType): string
  {
    match kind
    case Attack => "\U{F8FF}\U{FC}\U{F6}\U{AE}"
    case Displacement => "\U{F8FF}\U{FC}\U{E8}\U{2020}"
    case Threat => "\U{201A}\U{F6}\U{2020}\U{D4}\U{220F}\U{E8}"
    case NaturalDisaster => "\U{F8FF}\U{FC}\U{E5}\U{E4}"
    case Other => "\U{F8FF}\U{FC}\U{EC}\U{E7}"
  }

  /** `getIncidentIcon` with the emoji it was meant to hold; `other` is the default branch. */
  function IncidentIcon(kind: IncidentType): string
  {
    match kind
    case Attack => "\U{1F6A8}"
    case Displacement => "\U{1F3E0}"
    case Threat => "\U{26A0}\U{FE0F}"
    case NaturalDisaster => "\U{1F30A}"
    case Other => "\U{1F4CD}"
  }

  /** Misreading a character whose UTF-8 form is the four given bytes. */
  lemma Misread4(c: char, b0: int, b1: int, b2: int, b3: int)
    requires TextEncoding.Utf8(c) == [b0, b1, b2, b3]
    ensures TextEncoding.Misread([c]) == [TextEncoding.MacRomanChar(b0), TextEncoding.MacRomanChar(b1),
      TextEncoding.MacRomanChar(b2), TextEncoding.MacRomanChar(b3)]
  {
    TextEncoding.MisreadChar(c);
    TextEncoding.MacRomanDecodeEach([b0, b1, b2, b3]);
  }

  /** Misreading a character whose UTF-8 form is the three given bytes. */
  lemma Misread3(c: char, b0: int, b1: int, b2: int)
    requires TextEncoding.Utf8(c) == [b0, b1, b2]
    ensures TextEncoding.Misread([c]) == [TextEncoding.MacRomanChar(b0), TextEncoding.MacRomanChar(b1),
      TextEncoding.MacRomanChar(b2)]
  {
    TextEncoding.MisreadChar(c);
    TextEncoding.MacRomanDecodeEach([b0, b1, b2]);
  }

  /** Misreading a character whose UTF-8 form is the two given bytes. */
  lemma Misread2(c: char, b0: int, b1: int)
    requires TextEncoding.Utf8(c) == [b0, b1]
    ensures TextEncoding.Misread([c]) == [TextEncoding.MacRomanChar(b0), TextEncoding.MacRomanChar(b1)]
  {
    TextEncoding.MisreadChar(c);
    TextEncoding.MacRomanDecodeEach([b0, b1]);
  }

  lemma AttackIconMisread()
    ensures TextEncoding.Misread(IncidentIcon(Attack)) == IconAsWritten(Attack)
  {
    var c := '\U{1F6A8}';
    assert c as int == 0x1F6A8;
    Misread4(c, 0xF0, 0x9F, 0x9A, 0xA8);
  }

  lemma DisplacementIconMisread()
    ensures TextEncoding.Misread(IncidentIcon(Displacement)) == IconAsWritten(Displacement)
  {
    var c := '\U{1F3E0}';
    assert c as int == 0x1F3E0;
    Misread4(c, 0xF0, 0x9F, 0x8F, 0xA0);
  }

  lemma ThreatIconMisread()
    ensures TextEncoding.Misread(IncidentIcon(Threat)) == IconAsWritten(Threat)
  {
    var c1, c2 := '\U{26A0}', '\U{FE0F}';
    assert c1 as int == 0x26A0 && c2 as int == 0xFE0F;
    Misread3(c1, 0xE2, 0x9A, 0xA0);
    Misread3(c2, 0xEF, 0xB8, 0x8F);
    TextEncoding.MisreadConcat([c1], [c2]);
    assert IncidentIcon(Threat) == [c1] + [c2];
  }

  lemma NaturalDisasterIconMisread()
    ensures TextEncoding.Misread(IncidentIcon(NaturalDisaster)) == IconAsWritten(NaturalDisaster)
  {
    var c := '\U{1F30A}';
    assert c as int == 0x1F30A;
    Misread4(c, 0xF0, 0x9F, 0x8C, 0x8A);
  }

  lemma OtherIconMisread()
    ensures TextEncoding.Misread(IncidentIcon(Other)) == IconAsWritten(Other)
  {
    var c := '\U{1F4CD}';
    assert c as int == 0x1F4CD;
    Misread4(c, 0xF0, 0x9F, 0x93, 0x8D);
  }

  /** Every icon the file holds is the misread intended emoji, and none of them is that emoji. */
  lemma IconMisencoded(kind: IncidentType)
    ensures IconAsWritten(kind) == TextEncoding.Misread(IncidentIcon(kind))
    ensures IconAsWritten(kind) != IncidentIcon(kind)
  {
    match kind
    case Attack => AttackIconMisread();
    case Displacement => DisplacementIconMisread();
    case Threat => ThreatIconMisread();
    case NaturalDisaster => NaturalDisasterIconMisread();
    case Other => OtherIconMisread();
  }

  /** The corrected icons are the ones the incident list shows. */
  lemma IncidentIconMatchesList(kind: IncidentType)
    ensures IncidentIcon(kind) == IndexPage.ListIcon(kind)
  {
  }

  /** The severity badge of the details card as the file holds it: "Crítico" misread. */
  function PopupSeverityAsWritten(s: Severity): string
  {
    if s == Critical then "Cr\U{221A}\U{2260}tico"
    else if s == High then "Alto"
    else if s == Medium then "Medio"
    else "Bajo"
  }

  /** The accented letter of "Crítico" misreads as the characters of its two bytes. */
  lemma AccentMisread()
    ensures TextEncoding.Misread(['\U{ED}']) == "\U{221A}\U{2260}"
  {
    var c := '\U{ED}';
    assert c as int == 0xED;
    Misread2(c, 0xC3, 0xAD);
  }

  /** Between ASCII text, a misread character is the only thing that changes. */
  lemma MisreadBetweenAscii(head: string, c: char, tail: string, m: string)
    requires forall i :: 0 <= i < |head| ==> TextEncoding.IsAscii(head[i])
    requires forall i :: 0 <= i < |tail| ==> TextEncoding.IsAscii(tail[i])
    requires TextEncoding.Misread([c]) == m
    ensures TextEncoding.Misread(head + [c] + tail) == head + m + tail
  {
    TextEncoding.AsciiUnchanged(head);
    TextEncoding.AsciiUnchanged(tail);
    TextEncoding.MisreadConcat(head, [c]);
    TextEncoding.MisreadConcat(head + [c], tail);
  }

  /** "Crítico" misread: only the accented letter changes. */
  lemma CriticalLabelMisread()
    ensures TextEncoding.Misread("Cr\U{ED}tico") == "Cr\U{221A}\U{2260}tico"
  {
    AccentMisread();
    MisreadBetweenAscii("Cr", '\U{ED}', "tico", "\U{221A}\U{2260}");
    assert "Cr" + ['\U{ED}'] + "tico" == "Cr\U{ED}tico";
    assert "Cr" + "\U{221A}\U{2260}" + "tico" == "Cr\U{221A}\U{2260}tico";
  }

  /** Only the label with an accent is damaged, and it is the misread intended label. */
  lemma PopupSeverityMisencoded(s: Severity)
    ensures PopupSeverityAsWritten(s) == TextEncoding.Misread(IndexPage.SeverityBadge(s))
    ensures PopupSeverityAsWritten(s) == IndexPage.SeverityBadge(s) <==> s != Critical
  {
    var badge := IndexPage.SeverityBadge(s);
    if s == Critical {
      assert badge == "Cr\U{ED}tico";
      CriticalLabelMisread();
    } else {
      TextEncoding.AsciiUnchanged(badge);
    }
  }

  /** `baseColors`: one background class per incident type. */
  function BaseColor(kind: IncidentType): string
  {
    match kind
    case Attack => "bg-red-500"
    case Displacement => "bg-orange-500"
    case Threat => "bg-yellow-500"
    case NaturalDisaster => "bg-blue-500"
    case Other => "bg-cauca-morado-500"
  }

  /** The percentage of `severityOpacity`. */
  function OpacityPercent(s: Severity): nat
  {
    match s
    case Low => 60
    case Medium => 75
    case High => 90
    case Critical => 100
  }

  /** `severityOpacity`: one opacity class per severity. */
  function SeverityOpacity(s: Severity): string
  {
    match s
    case Low => "opacity-60"
    case Medium => "opacity-75"
    case High => "opacity-90"
    case Critical => "opacity-100"
  }

  /** The order of the severities, lowest first. */
  function SeverityRank(s: Severity): nat
  {
    match s
    case Low => 0
    case Medium => 1
    case High => 2
    case Critical => 3
  }

  /** `getIncidentColor`: the type's colour class, a space, the severity's opacity class. */
  function IncidentColor(kind: IncidentType, s: Severity): (cls: string)
    ensures |cls| == |BaseColor(kind)| + 1 + |SeverityOpacity(s)|
    ensures cls[..|BaseColor(kind)|] == BaseColor(kind)
    ensures cls[|BaseColor(kind)|] == ' '
    ensures cls[|BaseColor(kind)| + 1..] == SeverityOpacity(s)
  {
    BaseColor(kind) + " " + SeverityOpacity(s)
  }

  /** The opacity class names its percentage, and a higher severity is more opaque. */
  lemma OpacityIncreasing(a: Severity, b: Severity)
    ensures SeverityOpacity(a) == "opacity-" + JsNumbers.DecimalString(OpacityPercent(a))
    ensures SeverityRank(a) < SeverityRank(b) ==> OpacityPercent(a) < OpacityPercent(b)
  {
    match a
    case Low =>
      assert JsNumbers.DecimalString(6) == "6";
      assert JsNumbers.DecimalString(60) == "60";
    case Medium =>
      assert JsNumbers.DecimalString(7) == "7";
      assert JsNumbers.DecimalString(75) == "75";
    case High =>
      assert JsNumbers.DecimalString(9) == "9";
      assert JsNumbers.DecimalString(90) == "90";
    case Critical =>
      assert JsNumbers.DecimalString(1) == "1";
      assert JsNumbers.DecimalString(10) == "10";
      assert JsNumbers.DecimalString(100) == "100";
  }

  /** The position of the first space of `s`, or `|s|` when there is none. */
  function FirstSpace(s: string): (k: nat)
    ensures k <= |s|
  {
    if s == [] || s[0] == ' ' then 0 else 1 + FirstSpace(s[1..])
  }

  /** The first space of `a + " " + b` is the one after `a` when `a` has none. */
  lemma {:induction false} FirstSpaceAfter(a: string, b: string)
    requires ' ' !in a
    ensures FirstSpace(a + " " + b) == |a|
  {
    if a != [] {
      assert (a + " " + b)[1..] == a[1..] + " " + b;
      assert a[0] != ' ';
      FirstSpaceAfter(a[1..], b);
    }
  }

  /** Two strings joined by a space split back at their first space when the first has none. */
  lemma SplitAtSpace(a: string, b: string, c: string, d: string)
    requires ' ' !in a && ' ' !in c
    requires a + " " + b == c + " " + d
    ensures a == c && b == d
  {
    var x := a + " " + b;
    FirstSpaceAfter(a, b);
    FirstSpaceAfter(c, d);
    assert a == x[..|a|] && c == x[..|c|];
    assert b == x[|a| + 1..] && d == x[|c| + 1..];
  }

  /** The colour class tells both the type and the severity: no two pairs share one. */
  lemma IncidentColorInjective(k1: IncidentType, s1: Severity, k2: IncidentType, s2: Severity)
    requires IncidentColor(k1, s1) == IncidentColor(k2, s2)
    ensures k1 == k2 && s1 == s2
  {
    assert ' ' !in BaseColor(k1) && ' ' !in BaseColor(k2);
    SplitAtSpace(BaseColor(k1), SeverityOpacity(s1), BaseColor(k2), SeverityOpacity(s2));
  }

  /** `mapCenter` and `mapZoom` as first set: Popayán at the departmental zoom. */
  const InitialView := RegionCoords.Coords(2.4448, -76.6147, 8)

  /** `user?.region` is truthy: there is a user and the region is not empty. */
  predicate HasRegion(region: Option<string>)
  {
    region.Some? && region.value != ""
  }

  /** Focusing on the user's region: its lookup result when there is one, else the view as it was. */
  function Focus(view: RegionCoords.Coords, region: Option<string>): (v: RegionCoords.Coords)
    ensures !HasRegion(region) ==> v == view
    ensures HasRegion(region) ==> v == RegionCoords.GetCoordsForRegion(region.value)
  {
    if HasRegion(region) then RegionCoords.GetCoordsForRegion(region.value) else view
  }

  /** Focusing twice is focusing once, and from the initial view the zoom is always 8, 10, 11 or 12. */
  lemma FocusLaws(view: RegionCoords.Coords, region: Option<string>)
    ensures Focus(Focus(view, region), region) == Focus(view, region)
    ensures Focus(InitialView, region).zoom in {8, 10, 11, 12}
  {
    if HasRegion(region) {
      RegionCoords.AnyRegionZoom(region.value);
    }
  }

  /** A region the table does not know leaves the map exactly where it started. */
  lemma UnknownRegionKeepsInitialView(region: string)
    requires region !in RegionCoords.MunicipioNames
    ensures Focus(InitialView, Some(region)) == InitialView
  {
    if region != "" {
      RegionCoords.LookupMiss(region);
    }
  }

  class MapState {
    var view: RegionCoords.Coords
    var isLocating: bool
    var selectedIncident: Option<Incident>

    /** Mounting: the initial view, then the effect that focuses on the user's region. */
    constructor (region: Option<string>)
      ensures view == Focus(InitialView, region)
      ensures !isLocating && selectedIncident.None?
    {
      view := Focus(InitialView, region);
      isLocating := false;
      selectedIncident := None;
    }

    /**
     * `handleRecenterToUser`; the mount effect runs the same update again
     * whenever the user's region changes.
     */
    method HandleRecenterToUser(region: Option<string>)
      modifies this`view
      ensures view == Focus(old(view), region)
    {
      if HasRegion(region) {
        var coords := RegionCoords.GetCoordsForRegion(region.value);
        view := coords;
      }
    }

    /**
     * `handleGetLocation`, offered while not already locating (the button is
     * disabled at CaucaMap.tsx line 185): the flag goes
     * up, and a position request is made when the browser has the geolocation
     * API. Without it nothing ever lowers the flag again.
     */
    method HandleGetLocation(hasGeolocation: bool) returns (requested: bool)
      requires !isLocating
      modifies this`isLocating
      ensures isLocating && requested == hasGeolocation
    {
      isLocating := true;
      requested := hasGeolocation;
    }

    /** The position callback: the new location is reported upward and the flag drops. */
    method LocationReceived(location: UserLocation) returns (reported: UserLocation)
      requires isLocating
      modifies this`isLocating
      ensures !isLocating && reported == location
    {
      reported := location;
      isLocating := false;
    }

    /** The error callback: the flag drops. */
    method LocationFailed()
      requires isLocating
      modifies this`isLocating
      ensures !isLocating
    {
      isLocating := false;
    }

    /** A marker click: its incident is selected and reported upward. */
    method SelectIncident(incident: Incident) returns (clicked: Incident)
      modifies this`selectedIncident
      ensures selectedIncident == Some(incident) && clicked == incident
    {
      selectedIncident := Some(incident);
      clicked := incident;
    }

    /** The details card's close button. */
    method CloseDetails()
      modifies this`selectedIncident
      ensures selectedIncident.None?
    {
      selectedIncident := None;
    }
  }
}
