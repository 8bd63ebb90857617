/**
 Band resolution of `SentinelSTACLoader.load_vrt`: walk the composition's band
 list in order, keep each band the item has an asset for, sign the asset's
 href and prefix it with GDAL's `/vsicurl/` marker. The reference description
 is by positions: the kept bands are exactly the positions of the composition
 whose band is an asset key, in increasing order.
 */
module Bands {
  import opened StacTypes

  /** GDAL's virtual-file prefix for streaming a remote file over HTTP. */
  const VsiCurl: string := "/vsicurl/"

  /** `f"/vsicurl/{signed_href}"`. */
  function VsiCurlUrl(signed: string): string {
    VsiCurl + signed
  }

  /** Strictly increasing, so the positions describe a subsequence. */
  predicate StrictlyIncreasing(p: seq<nat>) {
    forall a, b :: 0 <= a < b < |p| ==> p[a] < p[b]
  }

  /** The positions in `bands` whose band is a key of `assets`, in order. */
  function KeptPositions(bands: seq<string>, assets: map<string, string>): (p: seq<nat>)
    ensures StrictlyIncreasing(p)
    ensures forall k :: 0 <= k < |p| ==> p[k] < |bands| && bands[p[k]] in assets
    ensures forall j :: 0 <= j < |bands| && bands[j] in assets ==> j in p
    decreases |bands|
  {
    if bands == [] then []
    else
      var n := |bands| - 1;
      var init := KeptPositions(bands[..n], assets);
      if bands[n] in assets then init + [n] else init
  }

  /** The URLs handed to the raster build, computed the way the loop does:
      one entry appended per band of `bands` that has an asset. */
  function ResolvedHrefs(bands: seq<string>, assets: map<string, string>, sign: string -> string): seq<string>
    decreases |bands|
  {
    if bands == [] then []
    else
      var n := |bands| - 1;
      ResolvedHrefs(bands[..n], assets, sign)
        + (if bands[n] in assets then [VsiCurlUrl(sign(assets[bands[n]]))] else [])
  }

  /** The resolved list is, entry by entry, the signed `/vsicurl/` URL of the
      asset at each kept position: a subsequence of the composition in the
      composition's order, holding exactly the bands the item has. */
  lemma {:induction false} ResolvedHrefsAtPositions(bands: seq<string>, assets: map<string, string>, sign: string -> string)
    ensures |ResolvedHrefs(bands, assets, sign)| == |KeptPositions(bands, assets)|
    ensures forall k :: 0 <= k < |KeptPositions(bands, assets)| ==>
      ResolvedHrefs(bands, assets, sign)[k]
        == VsiCurlUrl(sign(assets[bands[KeptPositions(bands, assets)[k]]]))
    decreases |bands|
  {
    if bands != [] {
      var n := |bands| - 1;
      ResolvedHrefsAtPositions(bands[..n], assets, sign);
      var init := KeptPositions(bands[..n], assets);
      forall k | 0 <= k < |init| ensures bands[..n][init[k]] == bands[init[k]] { }
    }
  }

  /** At most one URL per band of the composition. */
  lemma {:induction false} ResolvedHrefsBounded(bands: seq<string>, assets: map<string, string>, sign: string -> string)
    ensures |ResolvedHrefs(bands, assets, sign)| <= |bands|
    decreases |bands|
  {
    if bands != [] {
      ResolvedHrefsBounded(bands[..|bands| - 1], assets, sign);
    }
  }

  /** Nothing resolves exactly when the item has none of the composition's bands;
      this is the case where `load_vrt` gives up before building a raster. */
  lemma {:induction false} ResolvedHrefsEmptyIff(bands: seq<string>, assets: map<string, string>, sign: string -> string)
    ensures ResolvedHrefs(bands, assets, sign) == [] <==> forall j :: 0 <= j < |bands| ==> bands[j] !in assets
    decreases |bands|
  {
    if bands != [] {
      var n := |bands| - 1;
      ResolvedHrefsEmptyIff(bands[..n], assets, sign);
      assert forall j :: 0 <= j < n ==> bands[..n][j] == bands[j];
    }
  }

  /** Every resolved URL carries the `/vsicurl/` marker followed by a signed href
      of one of the item's assets. */
  lemma ResolvedHrefsAreSignedAssets(bands: seq<string>, assets: map<string, string>, sign: string -> string, k: nat)
    requires k < |ResolvedHrefs(bands, assets, sign)|
    ensures StartsWith(ResolvedHrefs(bands, assets, sign)[k], VsiCurl)
    ensures exists b :: b in assets && ResolvedHrefs(bands, assets, sign)[k] == VsiCurlUrl(sign(assets[b]))
  {
    ResolvedHrefsAtPositions(bands, assets, sign);
    var p := KeptPositions(bands, assets);
    var url := ResolvedHrefs(bands, assets, sign)[k];
    assert url == VsiCurlUrl(sign(assets[bands[p[k]]]));
    assert url[..|VsiCurl|] == VsiCurl;
  }

  /** True Color on an item that has B04 and B02 but not B03: two URLs, B04's
      first, B03 skipped. */
  lemma SkipsMissingBandScenario(assets: map<string, string>, sign: string -> string)
    requires "B04" in assets && "B02" in assets && "B03" !in assets
    ensures ResolvedHrefs(["B04", "B03", "B02"], assets, sign)
      == [VsiCurlUrl(sign(assets["B04"])), VsiCurlUrl(sign(assets["B02"]))]
  {
    var bands := ["B04", "B03", "B02"];
    assert bands[..2] == ["B04", "B03"] && bands[..2][..1] == ["B04"] && bands[..2][..1][..0] == [];
    assert ResolvedHrefs(["B04"], assets, sign) == [VsiCurlUrl(sign(assets["B04"]))];
    assert ResolvedHrefs(["B04", "B03"], assets, sign) == [VsiCurlUrl(sign(assets["B04"]))];
  }
}
