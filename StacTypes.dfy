/**
 The values the plugin passes around: STAC items as the catalog returns them,
 the item-search query, the canvas rectangle, and Python's substring test
 `sub in s`, which the plugin uses to classify collections and satellite labels.
 */
module StacTypes {

  datatype Option<+T> = None | Some(value: T) {
    /** `dict.get(key, default)`: the value if present, the default otherwise. */
    function GetOr(default: T): T {
      match this
      case Some(v) => v
      case None => default
    }
  }

  /** One STAC item: `item.id`, `item.properties["datetime"]`,
      `item.properties.get("eo:cloud_cover")` and `item.assets[band].href`. */
  datatype Item = Item(
    id: string,
    datetime: string,
    cloudCover: Option<real>,
    assets: map<string, string>)

  /** A WGS-84 bounding box in the order the catalog expects:
      [minLon, minLat, maxLon, maxLat]. */
  datatype BBox = BBox(minLon: real, minLat: real, maxLon: real, maxLat: real)

  /** The canvas extent in the project's CRS. */
  datatype Rect = Rect(xMin: real, yMin: real, xMax: real, yMax: real)

  /** The arguments of `Client.open(url).search(...)`. */
  datatype Query = Query(catalogUrl: string, collections: seq<string>, bbox: BBox, datetime: string)

  /** What the catalog client returns: the full item list after paging, or an exception. */
  datatype Fetch = Fetched(items: seq<Item>) | FetchRaised(message: string)

  /** The lazily imported `pystac_client`: absent (ImportError) or present. */
  datatype Catalog = Missing | Available(search: Query -> Fetch)

  /** `sub` occurs in `s` starting at position 0. */
  predicate StartsWith(s: string, sub: string) {
    |sub| <= |s| && s[..|sub|] == sub
  }

  /** Python's `sub in s` for strings. */
  predicate Contains(s: string, sub: string)
    decreases |s|
  {
    StartsWith(s, sub) || (|s| > 0 && Contains(s[1..], sub))
  }

  /** `sub` occurs in `s` starting at position `i`. */
  predicate OccursAt(s: string, sub: string, i: int) {
    0 <= i <= |s| - |sub| && s[i..i + |sub|] == sub
  }

  /** `Contains` agrees with the positional reading of `sub in s`:
      some window of `s` equals `sub`. */
  lemma {:induction false} ContainsIffOccurs(s: string, sub: string)
    ensures Contains(s, sub) <==> exists i :: OccursAt(s, sub, i)
    decreases |s|
  {
    if StartsWith(s, sub) {
      assert OccursAt(s, sub, 0);
    } else if |s| == 0 {
      assert forall i :: !OccursAt(s, sub, i);
    } else {
      ContainsIffOccurs(s[1..], sub);
      if Contains(s[1..], sub) {
        var i :| OccursAt(s[1..], sub, i);
        assert s[i + 1..i + 1 + |sub|] == s[1..][i..i + |sub|];
        assert OccursAt(s, sub, i + 1);
      }
      if exists i :: OccursAt(s, sub, i) {
        var i :| OccursAt(s, sub, i);
        assert i != 0;
        assert s[1..][i - 1..i - 1 + |sub|] == s[i..i + |sub|];
        assert OccursAt(s[1..], sub, i - 1);
      }
    }
  }

  /** A window whose first two characters differ from the needle's is no match. */
  lemma NotOccursAt(s: string, sub: string, i: nat)
    requires i + 1 < |s| && 2 <= |sub|
    requires s[i] != sub[0] || s[i + 1] != sub[1]
    ensures !OccursAt(s, sub, i)
  {
  }

  lemma NoOccurrenceNotContained(s: string, sub: string)
    requires forall i :: !OccursAt(s, sub, i)
    ensures !Contains(s, sub)
  {
    ContainsIffOccurs(s, sub);
  }

  /** A string contains every piece it is concatenated from. */
  lemma ContainsConcat(a: string, sub: string, b: string)
    ensures Contains(a + sub + b, sub)
  {
    var s := a + sub + b;
    assert s[|a|..|a| + |sub|] == sub;
    assert OccursAt(s, sub, |a|);
    ContainsIffOccurs(s, sub);
  }
}
