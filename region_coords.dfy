/**
 * The municipality table of the Cauca department and the lookup the maps use
 * to centre themselves on a user's region (src/utils/municipiosCoords.ts).
 *
 * The lookup is an exact, case-sensitive match on the table's own keys, with a
 * fixed fallback (Popayán's coordinates at the departmental zoom 8) on a miss.
 */
module RegionCoords {
  import opened Wrappers

  datatype Coords = Coords(lat: real, lng: real, zoom: int)

  /** One `name: {lat, lng, zoom}` property of the table. */
  datatype Entry = Entry(name: string, coords: Coords)

  /** `municipiosCoords`, its properties in source order. */
  const MunicipiosCoords: seq<Entry> := [
    Entry("Popayán", Coords(2.4448, -76.6147, 12)),
    Entry("Patía", Coords(2.0667, -77.0333, 11)),
    Entry("Guapi", Coords(2.5667, -77.8833, 11)),
    Entry("Timbiquí", Coords(2.7667, -77.6833, 11)),
    Entry("López de Micay", Coords(2.9333, -77.2667, 11)),
    Entry("Santander de Quilichao", Coords(3.0167, -76.4833, 12)),
    Entry("Puerto Tejada", Coords(3.2333, -76.4167, 12)),
    Entry("Caldono", Coords(2.8333, -76.5667, 11)),
    Entry("Toribío", Coords(3.1167, -76.0667, 11)),
    Entry("Jambaló", Coords(2.7667, -76.2833, 11)),
    Entry("Silvia", Coords(2.6167, -76.3833, 11)),
    Entry("Páez (Belalcázar)", Coords(2.5833, -76.0667, 11)),
    Entry("Inzá", Coords(2.5500, -76.0500, 11)),
    Entry("Tierradentro", Coords(2.6000, -76.0000, 10)),
    Entry("Bolívar", Coords(1.8667, -77.1833, 11)),
    Entry("Mercaderes", Coords(1.8167, -77.2167, 11)),
    Entry("Florencia", Coords(1.6167, -76.6167, 11)),
    Entry("Sotará", Coords(2.1167, -76.6333, 11)),
    Entry("Rosas", Coords(1.6500, -77.1500, 11)),
    Entry("La Sierra", Coords(1.5833, -76.8833, 11)),
    Entry("El Tambo", Coords(2.4500, -76.8167, 11)),
    Entry("Timbío", Coords(2.3444, -76.6847, 12)),
    Entry("Morales", Coords(3.1167, -76.6167, 11)),
    Entry("Piendamó", Coords(2.6333, -76.9833, 11)),
    Entry("Cajibío", Coords(2.5667, -76.8333, 11)),
    Entry("Argelia", Coords(2.3000, -77.0333, 11)),
    Entry("Balboa", Coords(1.8000, -77.4000, 11)),
    Entry("Almaguer", Coords(1.9167, -76.8667, 11)),
    Entry("San Sebastián", Coords(1.7167, -76.9333, 11)),
    Entry("Santa Rosa", Coords(1.5667, -76.9167, 11)),
    Entry("Sucre", Coords(1.2833, -77.1167, 11))]

  /** The fallback for a name the table does not hold (Popayán at zoom 8). */
  const DefaultCoords := Coords(2.4448, -76.6147, 8)

  /** The table's keys are pairwise distinct, as the keys of an object literal are. */
  predicate DistinctNames(entries: seq<Entry>)
  {
    forall i, j :: 0 <= i < j < |entries| ==> entries[i].name != entries[j].name
  }

  /** Property access on the table: the entry whose key equals `name` exactly. */
  function Lookup(entries: seq<Entry>, name: string): (r: Option<Coords>)
    ensures r.Some? ==> exists i :: 0 <= i < |entries| && entries[i] == Entry(name, r.value)
    ensures r.None? ==> forall i :: 0 <= i < |entries| ==> entries[i].name != name
  {
    if entries == [] then None
    else if entries[0].name == name then Some(entries[0].coords)
    else Lookup(entries[1..], name)
  }

  /** `getCoordsForRegion`: the table entry, or the fallback when the lookup misses. */
  function GetCoordsForRegion(region: string): Coords
  {
    Lookup(MunicipiosCoords, region).GetOr(DefaultCoords)
  }

  /** The table holds 31 municipalities, each at zoom 10, 11 or 12. */
  lemma TableShape()
    ensures |MunicipiosCoords| == 31
    ensures forall i :: 0 <= i < |MunicipiosCoords| ==> MunicipiosCoords[i].coords.zoom in {10, 11, 12}
  {
  }

  /** The table's keys, in source order. */
  const MunicipioNames: seq<string> := ["Popayán", "Patía", "Guapi", "Timbiquí", "López de Micay", "Santander de Quilichao", "Puerto Tejada", "Caldono", "Toribío", "Jambaló", "Silvia", "Páez (Belalcázar)", "Inzá", "Tierradentro", "Bolívar", "Mercaderes", "Florencia", "Sotará", "Rosas", "La Sierra", "El Tambo", "Timbío", "Morales", "Piendamó", "Cajibío", "Argelia", "Balboa", "Almaguer", "San Sebastián", "Santa Rosa", "Sucre"]

  lemma NamesDistinct()
    ensures forall i, j :: 0 <= i < j < |MunicipioNames| ==> MunicipioNames[i] != MunicipioNames[j]
  {
  }

  lemma NamesOfTable()
    ensures |MunicipioNames| == |MunicipiosCoords|
    ensures forall i :: 0 <= i < |MunicipiosCoords| ==> MunicipiosCoords[i].name == MunicipioNames[i]
  {
  }

  /** No municipality is listed twice. */
  lemma TableNamesDistinct()
    ensures DistinctNames(MunicipiosCoords)
  {
    NamesDistinct();
    NamesOfTable();
  }

  /** In a table with distinct keys, a key present yields exactly its own entry. */
  lemma LookupHit(entries: seq<Entry>, i: nat)
    requires DistinctNames(entries) && i < |entries|
    ensures Lookup(entries, entries[i].name) == Some(entries[i].coords)
  {
  }

  /** Every municipality of the table resolves to its own entry. */
  lemma TableHit(i: nat)
    requires i < |MunicipioNames|
    ensures GetCoordsForRegion(MunicipioNames[i]) == MunicipiosCoords[i].coords
  {
    TableNamesDistinct();
    NamesOfTable();
    LookupHit(MunicipiosCoords, i);
  }

  /** Whatever the name, the lookup yields one of the zooms 8, 10, 11 or 12. */
  lemma AnyRegionZoom(region: string)
    ensures GetCoordsForRegion(region).zoom in {8, 10, 11, 12}
  {
    TableShape();
  }

  /** A name that is no key of the table yields the fallback; nothing fails. */
  lemma LookupMiss(region: string)
    requires region !in MunicipioNames
    ensures GetCoordsForRegion(region) == DefaultCoords
  {
    NamesOfTable();
    assert forall i :: 0 <= i < |MunicipiosCoords| ==> MunicipiosCoords[i].name != region;
  }

  /** Popayán resolves to its own entry, at the city zoom 12. */
  lemma PopayanEntry()
    ensures GetCoordsForRegion("Popayán") == Coords(2.4448, -76.6147, 12)
  {
    TableHit(0);
  }

  /** Matching is case-sensitive: a differently cased name misses. */
  lemma CaseSensitive()
    ensures GetCoordsForRegion("popayán") == DefaultCoords
  {
    assert "popayán" !in MunicipioNames;
    LookupMiss("popayán");
  }

  /** The fallback is Popayán's position at the departmental zoom: only the zoom differs. */
  lemma DefaultIsPopayanZoomedOut()
    ensures DefaultCoords.lat == GetCoordsForRegion("Popayán").lat
    ensures DefaultCoords.lng == GetCoordsForRegion("Popayán").lng
    ensures DefaultCoords.zoom == 8 && GetCoordsForRegion("Popayán").zoom == 12
  {
    PopayanEntry();
  }
}
