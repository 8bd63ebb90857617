/**
 Layer naming of `SentinelSTACLoader.load_vrt`: the prefix is "S2" for a
 collection whose id contains "sentinel" and "LS" otherwise, and the name is
 `{prefix}_{id}_{composition} ({cloud:.1f}% Nuvens)`. The cloud cover shown
 defaults to 0 when the item has none, unlike the ranking, which uses 100.
 The `:.1f` rendering is a parameter (`format`).
 */
module Naming {
  import opened StacTypes
  import Ranking

  const SentinelMarker: string := "sentinel"
  const SentinelPrefix: string := "S2"
  const LandsatPrefix: string := "LS"
  const CloudSuffix: string := "% Nuvens)"

  /** `"S2" if "sentinel" in self.collection else "LS"`. */
  function PrefixFor(collection: string): (prefix: string)
    ensures prefix == SentinelPrefix <==> Contains(collection, SentinelMarker)
    ensures prefix == LandsatPrefix <==> !Contains(collection, SentinelMarker)
  {
    if Contains(collection, SentinelMarker) then SentinelPrefix else LandsatPrefix
  }

  /** The cover shown in the name: `item.properties.get("eo:cloud_cover", 0)`. */
  function LabelCloud(it: Item): real {
    it.cloudCover.GetOr(0.0)
  }

  function LayerName(collection: string, it: Item, composition: string, format: real -> string): string {
    PrefixFor(collection) + "_" + it.id + "_" + composition + " (" + format(LabelCloud(it)) + CloudSuffix
  }

  /** The name reads, left to right: the two-letter satellite prefix, `_`, the
      item id, `_`, the composition, ` (`, and ends with the cloud text and
      `% Nuvens)`. */
  lemma LayerNameLayout(collection: string, it: Item, composition: string, format: real -> string)
    ensures var name := LayerName(collection, it, composition, format);
      && |name| == 2 + 1 + |it.id| + 1 + |composition| + 2 + |format(LabelCloud(it))| + |CloudSuffix|
      && name[..2] == PrefixFor(collection)
      && name[2] == '_'
      && name[3..3 + |it.id|] == it.id
      && name[3 + |it.id|] == '_'
      && name[4 + |it.id|..4 + |it.id| + |composition|] == composition
      && name[4 + |it.id| + |composition|..6 + |it.id| + |composition|] == " ("
      && name[6 + |it.id| + |composition|..|name| - |CloudSuffix|] == format(LabelCloud(it))
      && name[|name| - |CloudSuffix|..] == CloudSuffix
  {
    var name := LayerName(collection, it, composition, format);
    var p := PrefixFor(collection);
    var tail := " (" + format(LabelCloud(it)) + CloudSuffix;
    assert name == p + "_" + it.id + "_" + composition + tail;
    assert |p| == 2;
  }

  /** A Sentinel name starts with "S2_" exactly when the collection id mentions
      "sentinel"; every other collection gets "LS_". */
  lemma NamePrefixIff(collection: string, it: Item, composition: string, format: real -> string)
    ensures StartsWith(LayerName(collection, it, composition, format), "S2_") <==> Contains(collection, SentinelMarker)
    ensures StartsWith(LayerName(collection, it, composition, format), "LS_") <==> !Contains(collection, SentinelMarker)
  {
    LayerNameLayout(collection, it, composition, format);
    var name := LayerName(collection, it, composition, format);
    assert name[..3] == name[..2] + [name[2]];
  }

  /** An item the catalog returned without `eo:cloud_cover` is ranked as fully
      clouded (100) but labelled as cloud free (0). */
  lemma MissingCoverLabelDiffersFromRank(it: Item)
    requires it.cloudCover.None?
    ensures LabelCloud(it) == 0.0 && Ranking.RankKey(it) == 100.0
  {
  }
}
