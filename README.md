# Sentinel STAC Loader — a Dafny model of the scene search and composite load

The QGIS plugin "Sentinel STAC Loader" lets a user search Microsoft Planetary
Computer's STAC catalog for Sentinel-2 or Landsat scenes over the map canvas
and a date range, lists them ranked by cloud cover, and loads a chosen scene as
a GDAL virtual raster (VRT) whose bands are the signed remote band files of a
named band composition.

This project models the data logic of `sentinel_stac_loader_dialog.py`:

- **Scene ranking** (`search_images`): the item-search query (single current
  collection, `start/end` datetime interval), the stable sort by
  `eo:cloud_cover` with a missing value counted as 100, and the empty list on
  a missing `pystac_client` or any exception.
- **Band resolution and load decision** (`load_vrt`): the composition lookup,
  the loop that keeps the bands the item has an asset for and turns each into
  `/vsicurl/` + signed href, the early `False` when nothing resolved or the
  composition is unknown, the `gdal:buildvirtualraster` request (separate
  bands, temporary output), and success only for a valid layer. A pystac
  asset object is always truthy, so `if asset:` keeps a band exactly when its
  key is in `item.assets`.
- **Layer naming**: prefix `S2` iff the collection id contains `sentinel`,
  else `LS`; name `{prefix}_{id}_{composition} ({cloud}% Nuvens)` with a
  missing cloud cover shown as 0.
- **Satellite profiles** (`atualizar_parametros_satelite`): "Sentinel" first,
  then "Landsat", otherwise unchanged.
- **Result cache and selection guard** (`popular_tabela`, `process_stac_load`).

Modules: `StacTypes` (items, queries, Python's substring test), `Ranking`,
`Bands`, `Naming`, `Profiles`, and `SentinelStacLoaderDialog`, which holds the
two classes `SentinelStacLoader` (fields `catalogUrl`, `collection`,
`compositions`) and `SentinelStacDialog` (fields `loader`, `lastItems`).
Cloud cover is a `real`: it is only compared and formatted, never computed.

External collaborators are parameters. The catalog client is a `Catalog`
value: `Missing` (the import fails) or `Available(search)`, where `search`
returns the fully paged item list or the exception it raised. The signer, the
raster build, the `:.1f` formatter and `QgsRasterLayer.isValid` make up
`RasterServices`; `signer == None` stands for a failed
`import planetary_computer`. The canvas transform of `get_canvas_bbox` is a
function argument. `load_vrt` returns a `LoadOutcome` next to its boolean,
recording whether the raster build was asked for, with which request, and
under which name the layer was added.

Behaviour of the code that the model keeps as it is:

- An unrecognised satellite label leaves the previous collection and
  compositions in place; no error is raised.
- The layer name uses a default cloud cover of 0 and the text `% Nuvens)`.
  The ranking uses 100 (`Naming.MissingCoverLabelDiffersFromRank`).
- Every exception in search or load is caught and becomes `[]` or `False`
  after a message; an item with none of the composition's bands, and an
  invalid layer, give `False` with no message.

## Model

| member | source | states |
|---|---|---|
| StacTypes.ContainsIffOccurs | sentinel_stac_loader_dialog.py:87 | the recursive substring test used for Python's `in` holds exactly when some window of the string equals the needle |
| Ranking.SortByCloudCorrect | sentinel_stac_loader_dialog.py:49-51 | the ranking is sorted non-decreasing by cloud cover (missing = 100), is a permutation of the fetched items, and keeps catalog order among items with equal cover (stable) |
| Ranking.SortByCloudLength | sentinel_stac_loader_dialog.py:49-51 | the ranking has exactly as many items as the catalog returned |
| Ranking.MissingCoverRanksLast | sentinel_stac_loader_dialog.py:51 | an item without `eo:cloud_cover` is ranked after every item whose cover is below 100 |
| Ranking.RankingScenario | sentinel_stac_loader_dialog.py:51 | covers 20, 5 and missing come back in the order 5, 20, missing |
| Bands.KeptPositions | sentinel_stac_loader_dialog.py:68-70 | the kept positions are strictly increasing, each names a band the item has, and every position whose band the item has is kept |
| Bands.ResolvedHrefsAtPositions | sentinel_stac_loader_dialog.py:65-73 | the resolved list has one entry per kept position, in composition order, equal to `/vsicurl/` + sign(href of that band's asset) |
| Bands.ResolvedHrefsBounded | sentinel_stac_loader_dialog.py:68-73 | at most one URL per band of the composition |
| Bands.ResolvedHrefsEmptyIff | sentinel_stac_loader_dialog.py:68-76 | nothing resolves exactly when none of the composition's bands is an asset of the item |
| Bands.ResolvedHrefsAreSignedAssets | sentinel_stac_loader_dialog.py:72-73 | every resolved URL starts with `/vsicurl/` and is the signed href of one of the item's assets |
| Bands.SkipsMissingBandScenario | sentinel_stac_loader_dialog.py:68-73 | bands B04, B03, B02 on an item without B03 give B04's URL then B02's |
| Naming.PrefixFor | sentinel_stac_loader_dialog.py:87 | the prefix is "S2" iff the collection contains "sentinel", and "LS" iff it does not |
| Naming.LayerNameLayout | sentinel_stac_loader_dialog.py:88 | the name is the prefix, `_`, the item id, `_`, the composition, ` (`, the formatted cloud cover and `% Nuvens)`, each at its offset, and nothing else (total length) |
| Naming.NamePrefixIff | sentinel_stac_loader_dialog.py:87-88 | the name starts with "S2_" iff the collection contains "sentinel", and with "LS_" otherwise |
| Naming.MissingCoverLabelDiffersFromRank | sentinel_stac_loader_dialog.py:85 | by definition, a missing cover is labelled 0 while it is ranked as 100 (records the quirk; no proof work) |
| Profiles.ProfileForCases | sentinel_stac_loader_dialog.py:119-135 | Sentinel-2 iff the label contains "Sentinel"; Landsat iff it contains "Landsat" but not "Sentinel"; no profile otherwise |
| Profiles.SentinelWinsOverLandsat | sentinel_stac_loader_dialog.py:119-129 | a label that names both satellites selects Sentinel-2 |
| Profiles.ProfileShapes | sentinel_stac_loader_dialog.py:121-135 | by evaluation of the registry constants, Sentinel-2 has six compositions and Landsat three, each of three bands |
| Profiles.LandsatCollectionNotSentinel | sentinel_stac_loader_dialog.py:87 | no window of "landsat-c2-l2" spells "sentinel" |
| Profiles.ProfilePrefixes | sentinel_stac_loader_dialog.py:87 | layers under the Sentinel-2 profile get prefix "S2", under the Landsat profile "LS" |
| SentinelStacLoaderDialog.CanvasBboxOrdered | sentinel_stac_loader_dialog.py:23-35 | with a transform monotone in both coordinates, an ordered extent gives a box with min ≤ max on both axes |
| SentinelStacLoaderDialog.CanvasBboxIdentity | sentinel_stac_loader_dialog.py:32-35 | by unfolding, with the identity transform the box is the extent's own `[xMin, yMin, xMax, yMax]` |
| SentinelStacLoaderDialog.IntervalRoundTrip | sentinel_stac_loader_dialog.py:47 | splitting the datetime parameter at its first `/` gives back the start and end dates |
| SentinelStacLoaderDialog.ItemSearch | sentinel_stac_loader_dialog.py:43-48 | the query goes to the loader's catalog URL, for the single current collection and the given box, with a datetime of length `|start| + 1 + |end|` that, when `start` has no `/`, reads back as (start, end) |
| SentinelStacLoaderDialog.BuildInvokedIff | sentinel_stac_loader_dialog.py:61-84 | the raster build is requested iff the signer imports, the composition is known and one of its bands is an asset; the request is `gdal:buildvirtualraster` over the resolved URLs, separate bands, temporary output, with 1 to composition-length inputs |
| SentinelStacLoaderDialog.LoadSuccessMeansValidLayer | sentinel_stac_loader_dialog.py:84-93 | success means the build returned a source, the layer on it is valid, at least one band was used, and the name starts "S2_" iff the collection contains "sentinel" |
| SentinelStacLoaderDialog.LayerNameScenario | sentinel_stac_loader_dialog.py:85-88 | item "S2A_T01", a Sentinel collection, "True Color", cover 12.34 give "S2_S2A_T01_True Color (12.3% Nuvens)" |
| SentinelStacLoaderDialog.SentinelStacLoader.constructor | sentinel_stac_loader_dialog.py:18-21 | a new loader points at Planetary Computer, collection "sentinel-2-l2a", no compositions |
| SentinelStacLoaderDialog.SentinelStacLoader.SearchImages | sentinel_stac_loader_dialog.py:37-57 | the result is the stable cloud-cover ranking of what the catalog returned for the current collection and `start/end`, of the same length, or `[]` when the library is missing or the search raises |
| SentinelStacLoaderDialog.SentinelStacLoader.LoadVrt | sentinel_stac_loader_dialog.py:59-98 | the loop builds exactly the resolved URL list, and the call ends as the import check, composition lookup, empty check, build and validity check decide; `True` only for an added layer |
| SentinelStacLoaderDialog.SentinelStacDialog.constructor | sentinel_stac_loader_dialog.py:101-113 | a new dialog has a fresh loader and an empty cache, and the profile of the current label applied |
| SentinelStacLoaderDialog.SentinelStacDialog.UpdateSatelliteParameters | sentinel_stac_loader_dialog.py:115-135 | the loader takes the selected profile's collection and compositions, or keeps both when the label selects none |
| SentinelStacLoaderDialog.SentinelStacDialog.PopulateTable | sentinel_stac_loader_dialog.py:144-154 | the cache is replaced by the search result for the canvas box and the dates, whatever it held before |
| SentinelStacLoaderDialog.SentinelStacDialog.ProcessStacLoad | sentinel_stac_loader_dialog.py:176-194 | a load is attempted iff the cache is non-empty and `0 <= index < len`, on `lastItems[index]`, with the outcome `load_vrt` gives; otherwise "nothing listed" or "invalid index" |

## Left out

- The coordinate transform itself (`QgsCoordinateTransform` from the canvas CRS to EPSG:4326) is floating-point host code; it is a total function argument. In the code a failing `xform.transform` (lines 32-33) raises out of `popular_tabela` before line 154 assigns `last_items`, so the cache keeps its old value; `PopulateTable` always overwrites it.
- Catalog paging (`get_all_items`) is inside the catalog client: `search` returns the full list.
- Opening the catalog and running the search are one call here; an exception from either is `FetchRaised`.
- A non-numeric `eo:cloud_cover` (for example `null`) is not modelled: the property is a number or absent. In the code such a value makes `sorted` raise (and the search return `[]`) only when it is compared with another item's cover, so a one-item result comes back unchanged. In `load_vrt` it makes the `:.1f` formatting at line 88 raise after `processing.run` has already been called, so `load_vrt` returns `False` with the build invoked; the model has no outcome for that.
- A signing failure is not modelled at all: `sign` is a total function and no `LoadOutcome` stands for it. In the code an exception from `planetary_computer.sign` at line 72 makes `load_vrt` return `False` before any build.
- The raster build, `QgsRasterLayer.isValid` and `addMapLayer` are opaque: the build and the validity check are function arguments, and an added layer is the `LayerAdded` outcome.
- The `:.1f` text of the layer name and the `:.2f` text of the table are float formatting; the former is a formatter argument, the latter is left out.
- Qt and QGIS user interface: combo boxes, table rows (`popular_tabela` lines 156-174), the spin box sync `atualizar_indice_pelo_clique`, message bar and status bar pushes. The order of the composition names in the combo box (dict insertion order) is not modelled; compositions are a `map`.
- `dependency_manager.py` (interpreter probing, imports, pip through `subprocess`, dialogs), `i18n/pt.ts` (translations) and `test/test_sentinel_stac_loader_dialog.py` (dialog button clicks) hold no core logic.
