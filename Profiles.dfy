/**
 The satellite profile registry of `SentinelSTACDialog.atualizar_parametros_satelite`:
 a combo-box label containing "Sentinel" selects the Sentinel-2 L2A collection
 and its six band compositions; otherwise a label containing "Landsat" selects
 Landsat Collection 2 Level-2 and its three compositions; any other label
 selects nothing, and the dialog then keeps its previous profile.
 */
module Profiles {
  import opened StacTypes
  import Naming

  datatype Profile = Profile(collection: string, compositions: map<string, seq<string>>)

  const SentinelCollection: string := "sentinel-2-l2a"
  const LandsatCollection: string := "landsat-c2-l2"

  function SentinelProfile(): Profile {
    Profile(SentinelCollection, map[
      "True Color (B04, B03, B02)" := ["B04", "B03", "B02"],
      "False Color NIR (B08, B04, B03)" := ["B08", "B04", "B03"],
      "False Color SWIR (B12, B08, B04)" := ["B12", "B08", "B04"],
      "Agriculture (B11, B08, B02)" := ["B11", "B08", "B02"],
      "Geology (B12, B11, B02)" := ["B12", "B11", "B02"],
      "Urban / Soil (B12, B11, B04)" := ["B12", "B11", "B04"]
    ])
  }

  function LandsatProfile(): Profile {
    Profile(LandsatCollection, map[
      "True Color (R, G, B)" := ["red", "green", "blue"],
      "False Color NIR (NIR, R, G)" := ["nir08", "red", "green"],
      "Agriculture (SWIR1, NIR, B)" := ["swir16", "nir08", "blue"]
    ])
  }

  /** The profile a satellite label selects; `None` leaves the current one in place. */
  function ProfileFor(satellite: string): Option<Profile> {
    if Contains(satellite, "Sentinel") then Some(SentinelProfile())
    else if Contains(satellite, "Landsat") then Some(LandsatProfile())
    else None
  }

  /** The three cases of the selection, with "Sentinel" tested first. */
  lemma ProfileForCases(satellite: string)
    ensures ProfileFor(satellite) == Some(SentinelProfile()) <==> Contains(satellite, "Sentinel")
    ensures ProfileFor(satellite) == Some(LandsatProfile()) <==> !Contains(satellite, "Sentinel") && Contains(satellite, "Landsat")
    ensures ProfileFor(satellite).None? <==> !Contains(satellite, "Sentinel") && !Contains(satellite, "Landsat")
  {
    assert SentinelProfile().collection != LandsatProfile().collection;
  }

  /** A satellite naming both satellites selects Sentinel-2. */
  lemma SentinelWinsOverLandsat(a: string, b: string, c: string)
    ensures ProfileFor(a + "Sentinel" + b + "Landsat" + c) == Some(SentinelProfile())
    ensures ProfileFor(a + "Landsat" + b + "Sentinel" + c) == Some(SentinelProfile())
  {
    ContainsConcat(a, "Sentinel", b + "Landsat" + c);
    assert a + "Sentinel" + b + "Landsat" + c == a + "Sentinel" + (b + "Landsat" + c);
    ContainsConcat(a + "Landsat" + b, "Sentinel", c);
  }

  /** Sentinel-2 offers six compositions and Landsat three, each of three bands. */
  lemma ProfileShapes()
    ensures |SentinelProfile().compositions| == 6
    ensures |LandsatProfile().compositions| == 3
    ensures forall name :: name in SentinelProfile().compositions ==> |SentinelProfile().compositions[name]| == 3
    ensures forall name :: name in LandsatProfile().compositions ==> |LandsatProfile().compositions[name]| == 3
  {
  }

  /** No window of the Landsat collection id spells "sentinel". */
  lemma LandsatCollectionNotSentinel()
    ensures forall i :: !OccursAt(LandsatCollection, Naming.SentinelMarker, i)
  {
    var l, m := LandsatCollection, Naming.SentinelMarker;
    forall i ensures !OccursAt(l, m, i) {
      if 0 <= i <= 5 {
        NotOccursAt(l, m, i);
      }
    }
  }

  /** Layers built under the Sentinel-2 profile are prefixed "S2", those built
      under the Landsat profile "LS". */
  lemma ProfilePrefixes()
    ensures Naming.PrefixFor(SentinelProfile().collection) == "S2"
    ensures Naming.PrefixFor(LandsatProfile().collection) == "LS"
  {
    ContainsConcat("", "sentinel", "-2-l2a");
    assert "" + "sentinel" + "-2-l2a" == SentinelCollection;
    LandsatCollectionNotSentinel();
    NoOccurrenceNotContained(LandsatCollection, Naming.SentinelMarker);
  }
}
