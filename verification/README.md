# place-stac core, modelled in Dafny

This project models the pure logic of the PLACE imagery pipeline. Drone
photos are georeferenced, turned into Cloud-Optimised GeoTIFFs, and
catalogued as STAC items whose links point at a tiler. The modules follow
the Python sources:

| module | source | what it covers |
|---|---|---|
| `Common` | (Python built-ins) | the exceptions as a `Result`, `str.split`/`join`/`strip`/`lower`, `math.radians` |
| `Rotation` | place/rotation.py | `flatten`, the 3x3 rotation matrices (nine elements or omega/phi/kappa), `_rotate_point`, `rotate` |
| `GroundSample` | both `cogify.py` | ground sampling distance, half-extents, metres per degree of longitude |
| `PlaceImageCogify` | place/place-image/cogify.py | tag exclusion, footprint with the portrait/landscape swap, 1-based GCPs, the whole georeference |
| `ImageryCogify` | place/imagery/place/imagery/cogify.py | `degrees_to_radians`, position and altitude, footprint without the swap, 0-based GCPs, `GOOD_EXIF` |
| `Catalog` | scripts/build_stac.py (and the copies in build_jpg_stac.py and build_items.py) | `dms_to_decimal`, `create_geojson_point`, `get_bounding_box`, `s3uri_to_id`, `merge_bboxes`, the JPEG key filter |
| `BuildStac` | scripts/build_stac.py | the per-photo record with optional altitude, `build_stac_item` |
| `BuildJpgStac` | scripts/build_jpg_stac.py | `build_stac_item` with its swapped bounding-box call, and the corrected call |
| `BuildItems` | scripts/build_items.py | the case-sensitive `.jpg` filter, the record with required altitude |
| `Params` | place/common/place/common/util.py | `get_param_str`, `get_param_str_raw` |
| `Render` | place/common/place/common/render.py | `RenderConfig`, its query strings, `get_render_config` |
| `Links` | place/stac/place/stac/links.py | `LinkInjector`: the tiler links and assets added to collections and items |
| `Tabular` | place/imagery/place/imagery/util/tabular.py | the lookup-table builders and `parse_table` |
| `RunCli` | scripts/run_cli_from_csv.py | the command line `execute_cli_command` assembles |
| `AddGps` | scripts/add_gps.py | `make_label_geotags`, `make_label_nonstandard`, Python's `round` |

Every Python exception the code can raise on bad input is modelled as a
`Result` error rather than excluded by a precondition: `KeyError` for a
missing EXIF tag or dict key, `IndexError` for a short split or row,
`ValueError` from `float()` or tuple unpacking, `ZeroDivisionError` from a
float division by zero, and `NameError` from the still-undefined
`parse_row` in the tabular builders. Arithmetic is exact over `real`.
These are parameters: `sin`/`cos` (`Rotation.Trig` or `cos: real -> real`),
`float()` on a string (`FloatParser`, `None` where Python raises), and
`quote_plus` and `urljoin`.

The two `cogify` bodies are modelled separately, because they differ as
written:

- Metres per degree of longitude:
  - place-image takes the cosine of the *longitude*. `PlaceImageCogify.GeoreferenceAsWritten` keeps that; `PlaceImageCogify.Georeference` takes the latitude (see Findings).
  - imagery takes the cosine of the *latitude* (`ImageryCogify.MetresPerDegreeLngAt`).
- Metres per degree of latitude: 111000 in place-image, 111317.1 in imagery.
- Orientation:
  - place-image swaps the sensor width and height for portrait images (`PlaceImageCogify.OrientationSwap`).
  - imagery never swaps them (`ImageryCogify.NoOrientationSwap`).
- Ground control points:
  - place-image uses 1-based pixel corners in the order tl, bl, br, tr, with no elevation.
  - imagery uses 0-based corners in the order tl, bl, tr, br, with an elevation.

`get_bounding_box` returns a latitude-first list, which build_stac.py and
build_items.py store as the item bbox. `BuildStac.BuildItem` keeps that
order as written. `Catalog.StacBoundingBox` is the same box in the
`[west, south, east, north]` order `merge_bboxes` reads, and the corrected
`BuildJpgStac.BuildItem` uses it (see Findings).

render.py's docstring for `get_assets_params` says it emits `&asset=<name>`.
The code emits `&assets=<name>`. The model follows the code.

## Model

| member | source | states |
|---|---|---|
| Rotation.Flatten | place/rotation.py:8-10 | the result's length is the total of the part lengths, and every element of every part is in it |
| Rotation.FlattenAppend | place/rotation.py:8-10 | flattening a concatenation is the concatenation of the flattenings |
| Rotation.ConstructRotationMatrix | place/rotation.py:12-18 | entry (i, j) is element 3i+j, so the row-major element list comes back unchanged |
| Rotation.ConstructFromElements | place/rotation.py:12-18 | every matrix is built back from its own nine elements |
| Rotation.OpkComposition | place/rotation.py:20-41 | applying the OPK matrix rotates by kappa about z, then by phi about y, then by omega about x |
| Rotation.OpkZeroIsIdentity | place/rotation.py:25-41 | zero omega, phi and kappa give the identity matrix, given sin 0 = 0 and cos 0 = 1 |
| Rotation.RotatePoint | place/rotation.py:43-54 | the first component minus the latitude and the second minus the longitude are the first two rows of the matrix applied to the point; the third component is not shifted |
| Rotation.RotatePointOpposite | place/rotation.py:43-54 | opposite offsets land point-symmetrically about (latitude, longitude) |
| Rotation.LatLng | place/rotation.py:71-74 | `flatten(p.tolist()[:2])` of a 3x1 column is its first two entries |
| Rotation.Rotate | place/rotation.py:56-79 | every corner is a [lat, lng] pair; the INPUTS/OUTPUTS entries exist exactly in debug mode, INPUTS being a one-element tuple around the four offsets |
| Rotation.RotateCorners | place/rotation.py:59-75 | each corner is the centre plus the first two matrix rows applied to that corner's (±lat_offset, ±lng_offset, 0) offset |
| Rotation.RotateIdentity | place/rotation.py:59-75 | with the identity matrix the corners are the centre ± the unrotated offsets |
| Rotation.RotateSymmetric | place/rotation.py:60-68 | NE and SW, and SE and NW, are point-symmetric about the centre for any matrix |
| Rotation.RotateDebugIrrelevant | place/rotation.py:70-78 | debug mode changes no corner and only adds diagnostics |
| Rotation.RotateComposes | place/rotation.py:41-54 | rotating a point by one matrix and the result by another is rotating it once by their product, so the omega-phi-kappa product applies the three rotations in turn |
| GroundSample.HalfExtentIndependentOfPixels | place/place-image/cogify.py:59-71 | the metre half-extent is altitude x sensor / (2 x focal length), independent of the pixel count |
| GroundSample.ResolutionPositive | place/place-image/cogify.py:59-64 | a positive altitude, sensor and focal length give a positive GSD |
| GroundSample.HalfExtentPositive | place/place-image/cogify.py:70-71 | a positive GSD gives a positive half-extent |
| PlaceImageCogify.CopiedTags | place/place-image/cogify.py:34 | exactly the tags other than the four excluded ones are kept, with their values |
| PlaceImageCogify.ComputeFootprint | place/place-image/cogify.py:42-75 | a zero width, height or longitude scale at the given angle is a ZeroDivisionError; otherwise the resolutions are chosen by orientation, and the offsets times the metres per degree give the metre half-extents |
| PlaceImageCogify.OrientationSwap | place/place-image/cogify.py:58-64 | a w x h image and an h x w image get the same resolutions with x and y exchanged |
| PlaceImageCogify.HalfExtents | place/place-image/cogify.py:53-71 | the metre half-extents use the sensor dimension the orientation assigns to each axis |
| PlaceImageCogify.OffsetsPositive | place/place-image/cogify.py:53-75 | a positive altitude, image size and scale give positive degree offsets |
| PlaceImageCogify.CornerGcps | place/place-image/cogify.py:84-88 | four GCPs tl, bl, br, tr at 1-based pixel corners, x the longitude and y the latitude of NW, SW, SE, NE |
| PlaceImageCogify.GeoreferenceAt | place/place-image/cogify.py:42-88 | georeferencing fails exactly when the footprint does, then with a ZeroDivisionError, and otherwise yields four GCPs |
| PlaceImageCogify.GeoreferenceCorners | place/place-image/cogify.py:74-88 | for every matrix each GCP sits at its 1-based pixel corner, its (y, x) is the camera's position plus the first two matrix rows applied to that corner's (±lat_offset, ±lng_offset, 0), and tl/br and bl/tr are point-symmetric about the camera |
| PlaceImageCogify.GeoreferenceAsWritten | place/place-image/cogify.py:42-88 | as written, with the longitude scale at the camera's longitude: fails exactly when that footprint does, otherwise four GCPs |
| PlaceImageCogify.AsWrittenScaleFollowsLongitude | place/place-image/cogify.py:45 | as written, the degree offset in longitude depends on the camera's longitude: at longitude 60 it is twice that at longitude 0, the metre extents being equal |
| PlaceImageCogify.Georeference | place/place-image/cogify.py:42-88 | with the longitude scale at the latitude, georeferencing fails exactly when that footprint does, otherwise four GCPs |
| PlaceImageCogify.GeoreferenceShiftsWithLongitude | place/place-image/cogify.py:42-88 | with the longitude scale at the latitude, moving the camera east by some amount moves every GCP's x by the same amount and changes nothing else |
| PlaceImageCogify.IdentityGeoreference | place/place-image/cogify.py:74-88 | with the latitude-based scale and no rotation the top GCPs lie north of the bottom ones, the left ones west of the right ones, and opposite GCPs are symmetric about the camera |
| ImageryCogify.DegreesToRadians | place/imagery/place/imagery/cogify.py:60-69 | N/E give d + m/60 + s/3600, S/W its negation, and any other letter a ValueError |
| ImageryCogify.HemispheresMirror | place/imagery/place/imagery/cogify.py:63-66 | S mirrors N and W mirrors E |
| ImageryCogify.CameraPosition | place/imagery/place/imagery/cogify.py:97-100 | succeeds exactly when both hemisphere letters are valid; the latitude and longitude are the `degrees_to_radians` values of the GPS triples, and the altitude is the GPS altitude less 0.12 |
| ImageryCogify.ComputeFootprint | place/imagery/place/imagery/cogify.py:102-136 | a zero width, height or latitude-based longitude scale is a ZeroDivisionError; the width sensor is always on x; the offsets times the metres per degree give the half-extents |
| ImageryCogify.NoOrientationSwap | place/imagery/place/imagery/cogify.py:118-132 | exchanging width and height leaves the metre half-extents unchanged |
| ImageryCogify.OffsetsPositive | place/imagery/place/imagery/cogify.py:119-136 | a positive altitude, image size and scale give positive degree offsets |
| ImageryCogify.Place | place/imagery/place/imagery/cogify.py:97-136 | a bad hemisphere is a ValueError; otherwise it succeeds exactly when the footprint at the camera's latitude and corrected altitude does, and fails with a ZeroDivisionError |
| ImageryCogify.CornerGcps | place/imagery/place/imagery/cogify.py:145-149 | four GCPs tl, bl, tr, br at 0-based pixel corners, x from each corner's second coordinate and y from its first, each carrying its corner's elevation |
| ImageryCogify.OutputTags | place/imagery/place/imagery/cogify.py:157 | exactly the tags in GOOD_EXIF are written, with their values |
| Catalog.SignedDegrees | scripts/build_stac.py:40-45 | d + m/60 + s/3600, negated exactly for "W" and "S" |
| Catalog.ParseFraction | scripts/build_stac.py:39 | "n/d" succeeds exactly when both halves parse and d is nonzero, then value x d = n; otherwise, in evaluation order, an unparsable n is a ValueError, a missing '/' an IndexError, an unparsable d a ValueError, and a zero d a ZeroDivisionError |
| Catalog.ParseFractions | scripts/build_stac.py:39 | every fraction parses exactly when the list does, and the values are the fractions' values in order |
| Catalog.DmsStringToDecimal | scripts/build_stac.py:36-45 | a parse failure propagates; a count other than three is a ValueError; otherwise the signed degrees of the three values |
| Catalog.DmsStringOfFractions | scripts/build_stac.py:36-45 | three space-joined fractions convert to the signed degrees of their values |
| Catalog.DmsListToDecimal | scripts/build_jpg_stac.py:33-41 | a list of three gives the signed degrees; any other length is a ValueError |
| Catalog.DmsFormsAgree | scripts/build_jpg_stac.py:33-41 | the string form and the numeric-list form agree on the same values |
| Catalog.CreateGeoJsonPoint | scripts/build_stac.py:48-53 | a "Point" whose coordinates are longitude then latitude |
| Catalog.BoundingBox | scripts/build_stac.py:82-100 | ZeroDivisionError exactly at a zero cosine; otherwise [min_lat, min_lon, max_lat, max_lon] centred on (lat, lon), 100 m of latitude tall and 100 m of longitude wide at that latitude, min below max in latitude, and in longitude exactly when the cosine is positive |
| Catalog.HalfLatitudeSpanSmall | scripts/build_stac.py:82-100 | every box spans under 0.002 degree of latitude |
| Catalog.BoundingBoxContainsCentre | scripts/build_stac.py:82-100 | with a positive cosine the box strictly contains its centre |
| Catalog.StacBoundingBox | scripts/build_stac.py:152-158 | the box in the [west, south, east, north] order `merge_bboxes` reads: ZeroDivisionError exactly at a zero cosine; otherwise centred on (lon, lat), 100 m of latitude tall and 100 m of longitude wide |
| Catalog.StacBoundingBoxContainsCentre | scripts/build_stac.py:152-158 | with a positive cosine the longitude lies between west and east and the latitude between south and north |
| Catalog.S3KeyToId | scripts/build_stac.py:113-121 | fewer than two '/' is an IndexError; otherwise, with stem the last segment up to its first '.', the ID ends with the stem, is the stem exactly when the third-from-last segment is "grandturk", and otherwise is that segment, "_" and the stem |
| Catalog.S3KeyToIdOfLayout | scripts/build_stac.py:113-121 | `<prefix>/<location>/<dir>/<stem>.<ext>` gives `<location>_<stem>`, or `<stem>` for "grandturk" |
| Catalog.S3PathIdNeverFails | scripts/build_stac.py:128 | an `s3://<bucket>/<key>` path always yields an ID |
| Catalog.MergeBboxes | scripts/build_stac.py:152-158 | no boxes is a ValueError, a short box an IndexError, and every other list succeeds; the result encloses every box and each bound is attained by some box |
| Catalog.SelectJpegKeys | scripts/build_stac.py:127 | exactly the keys whose lower-cased form ends in ".jpg" or ".jpeg" are kept |
| Common.FilterAppend | scripts/build_stac.py:127 | filtering a concatenation is the concatenation of the filtered parts, so the kept keys keep their listing order |
| Common.FilterCons | scripts/build_items.py:131 | a key in front is kept exactly when it passes, ahead of the filtered rest |
| Catalog.IsJpegKeyIgnoresCase | scripts/build_stac.py:127 | a key and its lower-cased form are kept or dropped together |
| Catalog.JpegExtensionsKept | scripts/build_stac.py:127 | ".JPG", ".jpeg" and ".JPEG" keys are kept whatever their stem |
| BuildStac.ReadPosition | scripts/build_stac.py:136-137 | succeeds exactly when the four GPS tags exist and both degree conversions succeed; a missing latitude tag is a KeyError, then a failed latitude conversion propagates, then a missing longitude tag is a KeyError, then a failed longitude conversion propagates; the coordinates are the conversions |
| BuildStac.ReadCamera | scripts/build_stac.py:138-142 | succeeds exactly when DateTime, Make, Model, FocalLengthIn35mmFilm and ExposureTime exist, else a KeyError; the camera fields are the tag texts |
| BuildStac.ReadMetadata | scripts/build_stac.py:133-148 | succeeds exactly when every required tag exists, both conversions succeed and a present GPSAltitude parses; failures come in the order position, camera tags, altitude; the altitude is present exactly when GPSAltitude is and is its fraction value; the position and the make, model, focal length and exposure time come from the tags |
| BuildStac.BuildItem | scripts/build_stac.py:161-195 | a built item has the record's altitude, make, model, focal length and exposure time, a point and a lat-first bbox centred on (lat, lng), and the ID of its path |
| BuildStac.MissingAltitudeIsKeyError | scripts/build_stac.py:161-191 | for an S3 path with a nonzero cosine, building fails exactly when the record has no altitude, and then with a KeyError |
| BuildStac.LatFirstBoxMissesPhoto | scripts/build_stac.py:165 | read in the [west, south, east, north] order of `merge_bboxes`, the item box misses the photo's longitude whenever latitude and longitude differ by more than 0.001 degree |
| BuildStac.LatFirstCounterexample | scripts/build_stac.py:165 | a photo at (51.5, -0.1) gets a box whose west-east range misses -0.1 |
| BuildJpgStac.BuildItemAsWritten | scripts/build_jpg_stac.py:166-208 | the point is at (lat, lng) but the bbox is the box of (lng, lat) |
| BuildJpgStac.AsWrittenIsSwappedPhoto | scripts/build_jpg_stac.py:170 | the written bbox is build_stac.py's bbox of the photo with its coordinates exchanged |
| BuildJpgStac.AsWrittenSpansExchanged | scripts/build_jpg_stac.py:170 | read as [west, south, east, north] the written box is centred on the photo, but its west-east span is 100 m of latitude and its south-north span is scaled by the cosine of the longitude |
| BuildJpgStac.SpanAtSixty | scripts/build_jpg_stac.py:74-92 | given cos 0 = 1 and cos 60 = 0.5, the box `get_bounding_box(0, 60)` is half as wide as the STAC box of a photo at (60, 0) |
| BuildJpgStac.AsWrittenSpanCounterexample | scripts/build_jpg_stac.py:170 | a photo at (60, 0) gets a box half as wide as 100 m of longitude needs |
| BuildJpgStac.BuildItem | scripts/build_jpg_stac.py:166-208 | the corrected item fails exactly when build_stac.py's does and is that item with the box in STAC order; with a positive cosine the box contains the item's point |
| BuildJpgStac.MergedBoxContainsPhoto | scripts/build_jpg_stac.py:157-163 | any box enclosing a corrected item box, as `merge_bboxes` computes, has the photo's longitude between indices 0 and 2 and its latitude between 1 and 3 |
| BuildItems.SelectJpgKeys | scripts/build_items.py:131 | exactly the keys ending in ".jpg", case-sensitively, are kept |
| BuildItems.StricterThanJpegFilter | scripts/build_items.py:131 | every kept key passes the case-insensitive filter too, but ".JPG" and ".jpeg" keys are dropped |
| BuildItems.ReadMetadata | scripts/build_items.py:137-150 | succeeds exactly when GPSAltitude exists and parses and the position and camera tags read; a missing GPSAltitude is a KeyError and a bad one propagates before anything else is read; the altitude, position and camera fields come from the tags |
| BuildItems.AgreesWithBuildStac | scripts/build_items.py:137-150 | the record is read exactly when build_stac.py's reader succeeds with the altitude tag present, and it is the same record |
| BuildItems.RecordBuildsItem | scripts/build_items.py:162-198 | a record of this reader always builds an item, for an S3 path with a nonzero cosine |
| Params.ValueParts | place/common/place/common/util.py:14-18 | one "k=quote(v)" part per text, in list order |
| Params.Parts | place/common/place/common/util.py:12-18 | one part per scalar and per list element |
| Params.ParamStr | place/common/place/common/util.py:11-20 | no values gives the empty string |
| Params.RawParts | place/common/place/common/util.py:23-29 | one part per scalar and per list element |
| Params.ParamStrRaw | place/common/place/common/util.py:22-31 | no values gives the empty string |
| Params.RawIsUnquoted | place/common/place/common/util.py:11-31 | the raw builder is the quoted builder with an identity quoting |
| Params.PartsAppend | place/common/place/common/util.py:13-18 | the parts of concatenated dicts are the concatenated parts |
| Params.EmptyListContributesNothing | place/common/place/common/util.py:14-16 | a key whose value is an empty list leaves the query string unchanged |
| Params.PartOfEntry | place/common/place/common/util.py:13-18 | for every key and each of its texts, "key=quote(text)" is a part |
| Params.PartsShape | place/common/place/common/util.py:13-18 | every part is some key followed by "=" and a quoted text of that key's value |
| Params.SplitRecoversParts | place/common/place/common/util.py:20 | splitting the query string at '&' gives back the parts when none contains '&' |
| Render.WithDefaults | place/common/place/common/render.py:21-28 | the declared defaults: minzoom 14, assets ["cog"], maxzoom 30, no mosaic preview, the two URL roots |
| Render.AssetsQuery | place/common/place/common/render.py:57-61 | no names gives "", otherwise the result starts with "&assets=" |
| Render.AssetsParams | place/common/place/common/render.py:50-61 | no asset list gives "" |
| Render.AssetFields | place/common/place/common/render.py:58-59 | one "assets=<name>" field per name |
| Render.AssetsQuerySplit | place/common/place/common/render.py:57-61 | splitting the assets part at '&' gives "" then one "assets=<name>" per name |
| Render.RenderParams | place/common/place/common/render.py:66-67 | "&" then the quoted parameter string, even when that is empty |
| Render.RenderParamsRaw | place/common/place/common/render.py:63-64 | "&" then the raw parameter string |
| Render.FullRenderQs | place/common/place/common/render.py:30-38 | the assets part is a prefix and the render part the rest |
| Render.FullRenderQsRaw | place/common/place/common/render.py:40-48 | the assets part is a prefix and the raw render part the rest |
| Render.RawIsUnquotedQs | place/common/place/common/render.py:30-48 | the raw query string is the quoted one with an identity quoting |
| Render.FullRenderQsSplit | place/common/place/common/render.py:30-38 | splitting the full query string at '&' gives "", the asset fields, then the parameter parts |
| Render.GetRenderConfig | place/common/place/common/render.py:74-82 | the Ivory Coast collection selects bands 1, 2 and 3 of the "cog" asset and every other ID band 1 only; both have minzoom 14, assets ["cog"], maxzoom 30, no mosaic preview zoom or coordinates, and the two URL roots |
| Render.DefaultRawQs | place/common/place/common/render.py:74 | the default raw query string names the "cog" asset and selects its band 1, unquoted |
| Links.NewLinkInjector | place/stac/place/stac/links.py:30-38 | the tiler root is "data/" resolved against the request's base URL |
| Links.CollectionTilejsonAsset | place/stac/place/stac/links.py:59-68 | a JSON "tiles" asset at collection/tilejson.json with the quoted query string |
| Links.CollectionMapLink | place/stac/place/stac/links.py:70-81 | an HTML preview link to the collection map |
| Links.ItemPreviewAsset | place/stac/place/stac/links.py:83-93 | a PNG "overview" asset at the item's preview.png with the quoted query string |
| Links.ItemTilejsonAsset | place/stac/place/stac/links.py:95-104 | a JSON "tiles" asset at the item's tilejson.json with the quoted query string |
| Links.ItemMapLink | place/stac/place/stac/links.py:106-118 | an HTML preview link to the item map with the raw query string |
| Links.ItemWmtsLink | place/stac/place/stac/links.py:120-132 | an XML "WMTS" link to the item's capabilities with the raw query string |
| Links.InjectCollection | place/stac/place/stac/links.py:40-46 | the map link is appended only to an existing links list; the TileJSON asset is always stored and no other asset changes |
| Links.InjectItem | place/stac/place/stac/links.py:48-57 | the links gain the map then the WMTS link after the existing ones; the two assets land only in an existing assets mapping, and no other asset changes |
| Links.InjectedItemAssets | place/stac/place/stac/links.py:55-57 | the stored assets are the item's TileJSON and preview assets |
| Links.InjectItemTwice | place/stac/place/stac/links.py:51-53 | injecting twice duplicates both links: not idempotent |
| Links.CollectionMapLinkLost | place/stac/place/stac/links.py:42 | a collection without links comes out without links |
| Links.LinksUseRawQs | place/stac/place/stac/links.py:106-111 | the item map link uses the query string with identity quoting |
| Tabular.RowRecord | place/imagery/place/imagery/util/tabular.py:20-23 | the record's keys are exactly the headings |
| Tabular.RowRecordValue | place/imagery/place/imagery/util/tabular.py:22-23 | a heading not repeated to its right maps to the cell in its column |
| Tabular.ParseRow | place/imagery/place/imagery/util/tabular.py:20-26 | a row shorter than the header, or empty, is an IndexError; otherwise its record is stored under its first cell and no other key changes |
| Tabular.Records | place/imagery/place/imagery/util/tabular.py:14-26 | the only failure is an IndexError |
| Tabular.RecordsOk | place/imagery/place/imagery/util/tabular.py:14-26 | the records build exactly when every data row fits the header |
| Tabular.Lookup | place/imagery/place/imagery/util/tabular.py:12-28 | a negative offset is a NameError exactly when there are rows; no data rows give an empty lookup |
| Tabular.ConstructLookup | place/imagery/place/imagery/util/tabular.py:31-51 | the one-pass loop returns the lookup of the rows at that offset |
| Tabular.OffsetDropsRows | place/imagery/place/imagery/util/tabular.py:13-16 | skipping rows above the header equals dropping them |
| Tabular.RecordsKeys | place/imagery/place/imagery/util/tabular.py:24 | the keys are exactly the first cells of the data rows |
| Tabular.RecordsLastRowWins | place/imagery/place/imagery/util/tabular.py:24 | a key's record comes from the last row carrying it |
| Tabular.LaterRowReplaces | place/imagery/place/imagery/util/tabular.py:24 | a later row with the same key makes the earlier row irrelevant |
| Tabular.TableFormatOf | place/imagery/place/imagery/util/tabular.py:54-64 | an extension other than xlsx, csv or txt is a ValueError; xlsx exactly selects the workbook, csv exactly comma-delimited and txt exactly tab-delimited |
| Tabular.FormatOfLastExtension | place/imagery/place/imagery/util/tabular.py:56 | only the text after the last '.' decides the format |
| Tabular.ParseTable | place/imagery/place/imagery/util/tabular.py:54-65 | an unknown extension is a ValueError; otherwise the lookup of the rows its reader returns |
| RunCli.Argument | scripts/run_cli_from_csv.py:12 | `--`, the stripped field, ` "`, the value unescaped, `"` |
| RunCli.Arguments | scripts/run_cli_from_csv.py:11-12 | one argument per pair, in order |
| RunCli.Command | scripts/run_cli_from_csv.py:13-14 | the CLI, a space, then the arguments joined by spaces |
| RunCli.EmptyArgSet | scripts/run_cli_from_csv.py:14 | no pairs leaves the CLI and one trailing space |
| RunCli.CommandAppend | scripts/run_cli_from_csv.py:11-14 | each further pair appends a space and its argument |
| RunCli.FieldPaddingIgnored | scripts/run_cli_from_csv.py:12 | spaces around a field name do not reach the command |
| AddGps.RoundHalfEven | scripts/add_gps.py:13 | the result is within one half of x, and even at a tie |
| AddGps.RoundHalfEvenUnique | scripts/add_gps.py:13 | that contract determines the result |
| AddGps.RoundHalfEvenExamples | scripts/add_gps.py:13 | integers are fixed; 2.5 gives 2, 3.5 gives 4, -0.5 gives 0 |
| AddGps.FloatCell | scripts/add_gps.py:11-13 | a missing column is an IndexError, a non-number a ValueError |
| AddGps.LabelFromColumns | scripts/add_gps.py:8-14 | succeeds exactly when the file column exists and the three numeric columns parse; failures come in dict order, the first failing column's IndexError or ValueError propagating; the fields come from those columns, the altitude being Python's round of the parsed value |
| AddGps.MakeLabelGeotags | scripts/add_gps.py:8-14 | file, latitude, longitude, altitude from columns 0 to 3 |
| AddGps.MakeLabelNonstandard | scripts/add_gps.py:17-31 | columns 1 to 4, and only on a ValueError the layout with file in column 3 and the numbers in 0 to 2 |
| AddGps.ShortRowPropagates | scripts/add_gps.py:18-25 | a row shorter than two cells is an IndexError with no fallback |
| AddGps.FirstLayoutRow | scripts/add_gps.py:18-24 | a five-column row is read in the first layout |
| AddGps.SecondLayoutRow | scripts/add_gps.py:25-31 | a four-column lat, lon, alt, file row falls back to the second layout |

## Left out

- I/O is not modelled: S3 listing and download, EXIF readers (pyexiv2, exifread, PIL), rawpy decoding, file globbing and reading workbooks or delimited files. The data these produce are inputs.
- Output and libraries are not modelled: rasterio `from_gcps`, `MemoryFile`, `cog_translate`, GPSPhoto tag writing, `subprocess.run`, multiprocessing and thread pools. The model stops at the values handed to them.
- Dates are not modelled: `strptime`, `parse_dt` and the RFC 3339 serialisation. The record only checks that the DateTime tag exists.
- `sin`, `cos`, `quote_plus`, `urljoin` and `float()` are parameters, not definitions. Floating-point rounding is not modelled: arithmetic is exact over `real`.
- FloatParser (`Common`) yields only finite values, so AddGps does not model non-finite cells. Python's `float()` returns nan or inf for "nan", "inf" or "1e999" without raising. The consequences in add_gps.py:
  - A nan altitude makes `round` raise ValueError (lines 13, 23, 30). In `make_label_nonstandard`'s first layout that switches to the fallback layout.
  - An inf altitude makes `round` raise OverflowError, which no `except ValueError` catches (line 25).
  - A nan or inf latitude or longitude is stored in the label unchanged.
- ImageryCogify.CornerGcps takes the TL/BL/TR/BR corner triples as inputs. The imagery `cogify` imports them from a sibling `rotation` module that is not part of this model, and place/rotation.py returns NE/SE/SW/NW instead.
- ImageryCogify.CameraPosition does not model a GPSInfo block missing keys 1-4 or 6 (a KeyError in the source). The block is a record with those entries.
- build_jpg_stac.py `read_all_metadata` (lines 116-154) is not modelled, because it works on exifread value objects. Its item builder is modelled, over `BuildStac.Metadata`, whose fields are tag text. The exifread record differs in two ways:
  - Its values are typed: `focal_length` is the first value of the tag (an integer), and `exposure_time` is the first ratio's `decimal()` (a float) (lines 140-141).
  - A KeyError in the first `try` (lines 124-130) is printed but does not skip the photo. The second `try` builds the record from whatever of `img_lat`, `img_lng` and `img_datetime` the previous photo left bound. For the first photo this raises an uncaught UnboundLocalError.
- `build_stac_collection`, the provider metadata, item and collection datetimes and asset descriptions are not modelled.
- The argparse drivers of every script are not modelled, nor the CSV reading in run_cli_from_csv.py.
- add_gps.py `run_dir` (lines 53-73) is file I/O and is not modelled. It chooses the layout by file:
  - If `Geotags.txt` exists, each line has its "\n" stripped, is split on tabs and is passed to `make_label_geotags`.
  - Otherwise, the first `*.csv` file is read without its first line, and each line is split on "," and passed to `make_label_nonstandard`.
- `str.lower` is modelled for ASCII letters only. `str.strip` removes the characters for which Python's `str.isspace` holds.
- Params: values are taken as already converted by `str()`.
- Tabular: Python dict insertion order of the lookup is not modelled, because the lookup is a map.
- Tabular.ParseTable: the row reader is a parameter, so an openpyxl or csv error while reading is not modelled.
- Rotation.Rotate: numpy arrays become `Vec3` and `seq<real>`. The debug entries keep the source's shape, not its numpy types.
- Links: a STAC document is reduced to the id, links and assets the injector touches. The mutation in place is modelled as a function returning the updated document.

## Findings

| source | as written | input that shows it | evidently intended | confidence | as-written member | corrected member |
|---|---|---|---|---|---|---|
| scripts/build_stac.py:100 | `get_bounding_box` returns `[min_lat, min_lon, max_lat, max_lon]`, while `merge_bboxes` (lines 152-158) and a STAC `bbox` read `[west, south, east, north]`; lines 165 here and 166 of build_items.py store it as the item bbox | a photo at latitude 51.5, longitude -0.1: read as `[west, south, east, north]` its box spans longitudes within 0.001 of 51.5, so the photo lies outside it | the same box in `[min_lon, min_lat, max_lon, max_lat]` order | medium; not executed | BuildStac.LatFirstCounterexample | Catalog.StacBoundingBox |
| scripts/build_jpg_stac.py:170 | `get_bounding_box(md['lng'], md['lat'])`: the list comes out in `[west, south, east, north]` order and contains the photo, but its west-east span is 100 m of latitude and its south-north span uses the cosine of the longitude | a photo at latitude 60, longitude 0, taking cos 60° as 0.5: the box is half as wide as 100 m of longitude there | a `[west, south, east, north]` box 100 m of longitude wide at the photo's latitude and 100 m of latitude tall | medium; not executed | BuildJpgStac.AsWrittenSpanCounterexample | BuildJpgStac.BuildItem |
| place/place-image/cogify.py:45 | `ms_per_lng` takes the cosine of the camera's longitude, so the length of a degree of longitude follows the longitude | the same image, altitude and latitude at longitude 60 instead of 0, taking cos 60° as 0.5 (Python's value differs in the last place): the longitude offset doubles although the metre extents are equal | the cosine of the latitude, as the comment on line 44 says and the imagery `cogify.py` does | high; not executed | PlaceImageCogify.AsWrittenScaleFollowsLongitude | PlaceImageCogify.GeoreferenceShiftsWithLongitude |
