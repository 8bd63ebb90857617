/**
 The two classes of `sentinel_stac_loader_dialog.py`.

 `SentinelStacLoader` holds the catalog URL, the current collection and the
 current band compositions; it searches the catalog and builds a virtual
 raster for one item. `SentinelStacDialog` owns a loader, switches its profile
 when the satellite selection changes, caches the last search and loads the
 selected row from that cache.

 Every foreign call is a parameter: the catalog client (`Catalog`), and for the
 raster load the URL signer, GDAL's `buildvirtualraster`, the `:.1f` formatter
 and `QgsRasterLayer.isValid` (`RasterServices`). A Python exception raised by
 one of them is a constructor of the value it returns.
 */
module SentinelStacLoaderDialog {
  import opened StacTypes
  import opened Ranking
  import opened Bands
  import opened Naming
  import opened Profiles

  const PlanetaryComputerUrl: string := "https://planetarycomputer.microsoft.com/api/stac/v1"
  const BuildAlgorithm: string := "gdal:buildvirtualraster"
  const TemporaryOutput: string := "TEMPORARY_OUTPUT"

  // ---------------------------------------------------------------- canvas

  datatype Point = Point(x: real, y: real)

  /** `get_canvas_bbox`: the extent's minimum and maximum corners are each sent
      through the CRS transform to EPSG:4326 and read out as
      `[p1.x, p1.y, p2.x, p2.y]`; the other two corners are not transformed. */
  function CanvasBbox(extent: Rect, transform: (real, real) -> Point): (b: BBox)
  {
    var p1 := transform(extent.xMin, extent.yMin);
    var p2 := transform(extent.xMax, extent.yMax);
    BBox(p1.x, p1.y, p2.x, p2.y)
  }

  /** A transform that is monotone in both coordinates keeps an ordered extent
      ordered; the catalog then receives min before max. */
  lemma CanvasBboxOrdered(extent: Rect, transform: (real, real) -> Point)
    requires extent.xMin <= extent.xMax && extent.yMin <= extent.yMax
    requires forall a, b, c, d :: a <= c && b <= d ==>
      transform(a, b).x <= transform(c, d).x && transform(a, b).y <= transform(c, d).y
    ensures var b := CanvasBbox(extent, transform);
      b.minLon <= b.maxLon && b.minLat <= b.maxLat
  {
  }

  /** With the identity transform the four numbers are the extent's own. */
  lemma CanvasBboxIdentity(extent: Rect, transform: (real, real) -> Point)
    requires forall a, b :: transform(a, b) == Point(a, b)
    ensures CanvasBbox(extent, transform) == BBox(extent.xMin, extent.yMin, extent.xMax, extent.yMax)
  {
  }

  // ---------------------------------------------------------------- search

  /** The STAC item-search `datetime` parameter: `f"{start_date}/{end_date}"`. */
  function DatetimeInterval(start: string, end: string): string {
    start + "/" + end
  }

  /** Reads an interval back: the text before the first `/` and the text after it. */
  function IntervalBounds(s: string): (string, string)
    decreases |s|
  {
    if s == [] then ([], [])
    else if s[0] == '/' then ([], s[1..])
    else
      var (a, b) := IntervalBounds(s[1..]);
      ([s[0]] + a, b)
  }

  /** The interval sent to the catalog gives back exactly the two dates the
      dialog formatted (`yyyy-MM-dd` never contains a slash). */
  lemma {:induction false} IntervalRoundTrip(start: string, end: string)
    requires '/' !in start
    ensures IntervalBounds(DatetimeInterval(start, end)) == (start, end)
    decreases |start|
  {
    if start != [] {
      IntervalRoundTrip(start[1..], end);
      assert DatetimeInterval(start, end)[1..] == DatetimeInterval(start[1..], end);
      assert [start[0]] + start[1..] == start;
    }
  }

  /** `catalog.search(collections=[self.collection], bbox=bbox, datetime=...)`
      on the client opened at `catalog_url`. */
  function ItemSearch(url: string, collection: string, bbox: BBox, start: string, end: string): (q: Query)
    ensures q.catalogUrl == url && q.collections == [collection] && q.bbox == bbox
    ensures |q.datetime| == |start| + 1 + |end|
    ensures '/' !in start ==> IntervalBounds(q.datetime) == (start, end)
  {
    var q := Query(url, [collection], bbox, DatetimeInterval(start, end));
    if '/' in start then q else IntervalRoundTrip(start, end); q
  }

  /** `fetched` ranked: sorted by cloud cover (missing = 100), a permutation,
      and stable among equal covers. */
  ghost predicate IsRanking(fetched: seq<Item>, items: seq<Item>) {
    && SortedByCloud(items)
    && multiset(items) == multiset(fetched)
    && SameOrderPerKey(fetched, items)
  }

  /** What `search_images` returns for query `q`: the ranking of the fetched
      items, or `[]` when the library is missing or the search raises. */
  ghost predicate SearchResultFor(catalog: Catalog, q: Query, items: seq<Item>) {
    match catalog
    case Missing => items == []
    case Available(search) =>
      match search(q)
      case FetchRaised(_) => items == []
      case Fetched(fetched) => IsRanking(fetched, items)
  }

  // ---------------------------------------------------------------- load

  /** The parameters of `processing.run("gdal:buildvirtualraster", ...)`. */
  datatype BuildRequest = BuildRequest(algorithm: string, inputs: seq<string>, separate: bool, output: string)

  datatype BuildResult = Built(output: string) | BuildRaised(message: string)

  /** The collaborators of `load_vrt`. `signer` is `None` when
      `planetary_computer` cannot be imported. */
  datatype RasterServices = RasterServices(
    signer: Option<string -> string>,
    build: BuildRequest -> BuildResult,
    formatCloud: real -> string,
    isValid: (string, string) -> bool)

  /** How a `load_vrt` call ended, with the calls it made to the raster engine.
      Only `LayerAdded` is reported to the caller as `True`. */
  datatype LoadOutcome =
    | SignerMissing
    | UnknownComposition
    | NoBandsResolved
    | BuildFailed(request: BuildRequest)
    | LayerInvalid(request: BuildRequest, source: string, name: string)
    | LayerAdded(request: BuildRequest, source: string, name: string)
  {
    predicate BuildInvoked() {
      BuildFailed? || LayerInvalid? || LayerAdded?
    }
  }

  /** The behaviour of `load_vrt` for a loader whose collection and compositions
      are given: the import check, the composition lookup (an unknown name makes
      `bands` `None`, and iterating it raises), band resolution, the empty
      check, the build, and the validity check on the named layer. */
  function ExpectedLoad(collection: string, compositions: map<string, seq<string>>, it: Item,
                        compositionName: string, services: RasterServices): LoadOutcome
  {
    match services.signer
    case None => SignerMissing
    case Some(sign) =>
      if compositionName !in compositions then UnknownComposition
      else
        var hrefs := ResolvedHrefs(compositions[compositionName], it.assets, sign);
        if hrefs == [] then NoBandsResolved
        else
          var request := BuildRequest(BuildAlgorithm, hrefs, true, TemporaryOutput);
          match services.build(request)
          case BuildRaised(_) => BuildFailed(request)
          case Built(source) =>
            var name := LayerName(collection, it, compositionName, services.formatCloud);
            if services.isValid(source, name) then LayerAdded(request, source, name)
            else LayerInvalid(request, source, name)
  }

  /** The raster build is asked for exactly when the library is there, the
      composition is known and at least one of its bands is an asset of the
      item; it then receives the resolved URLs, as separate bands, into a
      temporary output, and never more URLs than the composition has bands. */
  lemma BuildInvokedIff(collection: string, compositions: map<string, seq<string>>, it: Item,
                        compositionName: string, services: RasterServices)
    ensures var o := ExpectedLoad(collection, compositions, it, compositionName, services);
      o.BuildInvoked() <==>
        && services.signer.Some?
        && compositionName in compositions
        && exists j :: 0 <= j < |compositions[compositionName]| && compositions[compositionName][j] in it.assets
    ensures var o := ExpectedLoad(collection, compositions, it, compositionName, services);
      o.BuildInvoked() ==>
        && o.request.algorithm == BuildAlgorithm
        && o.request.separate
        && o.request.output == TemporaryOutput
        && o.request.inputs == ResolvedHrefs(compositions[compositionName], it.assets, services.signer.value)
        && 1 <= |o.request.inputs| <= |compositions[compositionName]|
  {
    if services.signer.Some? && compositionName in compositions {
      var bands := compositions[compositionName];
      ResolvedHrefsEmptyIff(bands, it.assets, services.signer.value);
      ResolvedHrefsBounded(bands, it.assets, services.signer.value);
    }
  }

  /** `load_vrt` reports success only for a valid layer built from at least one
      band, and the layer it adds carries the name prefixed "S2" exactly when
      the collection id contains "sentinel". */
  lemma LoadSuccessMeansValidLayer(collection: string, compositions: map<string, seq<string>>, it: Item,
                                   compositionName: string, services: RasterServices)
    ensures var o := ExpectedLoad(collection, compositions, it, compositionName, services);
      o.LayerAdded? ==>
        && services.isValid(o.source, o.name)
        && services.build(o.request) == Built(o.source)
        && o.request.inputs != []
        && o.name == LayerName(collection, it, compositionName, services.formatCloud)
        && (StartsWith(o.name, "S2_") <==> Contains(collection, SentinelMarker))
  {
    NamePrefixIff(collection, it, compositionName, services.formatCloud);
  }

  /** Item "S2A_T01" of a Sentinel collection such as "sentinel-2-l2a", True
      Color, 12.34 % cover rendered by `:.1f` as "12.3". */
  lemma LayerNameScenario(collection: string, it: Item, format: real -> string)
    requires Contains(collection, SentinelMarker)
    requires it.id == "S2A_T01" && it.cloudCover == Some(12.34) && format(12.34) == "12.3"
    ensures LayerName(collection, it, "True Color", format) == "S2_S2A_T01_True Color (12.3% Nuvens)"
  {
  }

  // ---------------------------------------------------------------- classes

  class SentinelStacLoader {
    const catalogUrl: string
    var collection: string
    var compositions: map<string, seq<string>>

    constructor ()
      ensures catalogUrl == PlanetaryComputerUrl
      ensures collection == SentinelCollection && compositions == map[]
    {
      catalogUrl := PlanetaryComputerUrl;
      collection := SentinelCollection;
      compositions := map[];
    }

    /** `search_images`: query the current collection over `bbox` and the
        `start/end` interval, and rank what comes back; any failure gives `[]`. */
    method SearchImages(bbox: BBox, start: string, end: string, catalog: Catalog) returns (items: seq<Item>)
      ensures SearchResultFor(catalog, ItemSearch(catalogUrl, collection, bbox, start, end), items)
      ensures catalog.Available? && catalog.search(ItemSearch(catalogUrl, collection, bbox, start, end)).Fetched? ==>
        |items| == |catalog.search(ItemSearch(catalogUrl, collection, bbox, start, end)).items|
    {
      match catalog
      case Missing =>
        items := [];
      case Available(search) =>
        var q := ItemSearch(catalogUrl, collection, bbox, start, end);
        match search(q)
        case FetchRaised(_) =>
          items := [];
        case Fetched(fetched) =>
          items := SortByCloud(fetched);
          SortByCloudCorrect(fetched);
          SortByCloudLength(fetched);
    }

    /** `load_vrt`: resolve the composition's bands one by one, then build,
        name and check the layer. */
    method LoadVrt(it: Item, compositionName: string, services: RasterServices) returns (ok: bool, outcome: LoadOutcome)
      ensures outcome == ExpectedLoad(collection, compositions, it, compositionName, services)
      ensures ok <==> outcome.LayerAdded?
    {
      if services.signer.None? {
        return false, SignerMissing;
      }
      var sign := services.signer.value;
      if compositionName !in compositions {
        return false, UnknownComposition;
      }
      var bands := compositions[compositionName];
      var bandHrefs: seq<string> := [];
      for i := 0 to |bands|
        invariant bandHrefs == ResolvedHrefs(bands[..i], it.assets, sign)
      {
        assert bands[..i + 1][..i] == bands[..i];
        if bands[i] in it.assets {
          bandHrefs := bandHrefs + [VsiCurlUrl(sign(it.assets[bands[i]]))];
        }
      }
      assert bands[..|bands|] == bands;
      if bandHrefs == [] {
        return false, NoBandsResolved;
      }
      var request := BuildRequest(BuildAlgorithm, bandHrefs, true, TemporaryOutput);
      var result := services.build(request);
      if result.BuildRaised? {
        return false, BuildFailed(request);
      }
      var name := LayerName(collection, it, compositionName, services.formatCloud);
      if services.isValid(result.output, name) {
        ok, outcome := true, LayerAdded(request, result.output, name);
      } else {
        ok, outcome := false, LayerInvalid(request, result.output, name);
      }
    }
  }

  /** What `process_stac_load` did with the selection. */
  datatype Selection =
    | NothingListed
    | InvalidIndex
    | Loaded(item: Item, ok: bool, load: LoadOutcome)

  class SentinelStacDialog {
    const loader: SentinelStacLoader
    var lastItems: seq<Item>

    /** Creates the loader, empties the cache and applies the satellite
        currently selected in the combo box. */
    constructor (satellite: string)
      ensures fresh(loader) && lastItems == []
      ensures loader.catalogUrl == PlanetaryComputerUrl
      ensures ProfileFor(satellite).Some? ==>
        loader.collection == ProfileFor(satellite).value.collection
        && loader.compositions == ProfileFor(satellite).value.compositions
      ensures ProfileFor(satellite).None? ==>
        loader.collection == SentinelCollection && loader.compositions == map[]
    {
      loader := new SentinelStacLoader();
      lastItems := [];
      new;
      UpdateSatelliteParameters(satellite);
    }

    /** `atualizar_parametros_satelite`: switch the loader to the profile the
        label selects, or leave it as it is. */
    method UpdateSatelliteParameters(satellite: string)
      modifies loader
      ensures ProfileFor(satellite).Some? ==>
        loader.collection == ProfileFor(satellite).value.collection
        && loader.compositions == ProfileFor(satellite).value.compositions
      ensures ProfileFor(satellite).None? ==>
        loader.collection == old(loader.collection) && loader.compositions == old(loader.compositions)
    {
      if Contains(satellite, "Sentinel") {
        loader.collection := SentinelCollection;
        loader.compositions := SentinelProfile().compositions;
      } else if Contains(satellite, "Landsat") {
        loader.collection := LandsatCollection;
        loader.compositions := LandsatProfile().compositions;
      }
    }

    /** `popular_tabela`: search with the canvas box and the chosen dates and
        replace the cache with the result, whatever it was before. */
    method PopulateTable(extent: Rect, transform: (real, real) -> Point, start: string, end: string, catalog: Catalog)
      modifies this
      ensures SearchResultFor(catalog, ItemSearch(loader.catalogUrl, loader.collection, CanvasBbox(extent, transform), start, end), lastItems)
    {
      var bbox := CanvasBbox(extent, transform);
      lastItems := loader.SearchImages(bbox, start, end, catalog);
    }

    /** `process_stac_load`: load row `index` of the cached result, but only
        when something is cached and the index is in range. */
    method ProcessStacLoad(index: int, composition: string, services: RasterServices) returns (selection: Selection)
      ensures lastItems == [] ==> selection == NothingListed
      ensures lastItems != [] && !(0 <= index < |lastItems|) ==> selection == InvalidIndex
      ensures selection.Loaded? <==> 0 <= index < |lastItems|
      ensures selection.Loaded? ==>
        && selection.item == lastItems[index]
        && selection.load == ExpectedLoad(loader.collection, loader.compositions, lastItems[index], composition, services)
        && (selection.ok <==> selection.load.LayerAdded?)
    {
      if lastItems == [] {
        return NothingListed;
      }
      if index < 0 || index >= |lastItems| {
        return InvalidIndex;
      }
      var selected := lastItems[index];
      var ok, load := loader.LoadVrt(selected, composition, services);
      selection := Loaded(selected, ok, load);
    }
  }
}
