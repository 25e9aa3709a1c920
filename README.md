# pintar-zonasi-api — the Python decision logic, modelled in Dafny

pintar-zonasi-api is a Django REST back end for school-zoning maps. Users
upload road networks, administrative regions, world borders, and CSV
datasets of students and schools. They build topologies and routes on the
roads, and group layers into zonation projects that are drafted and then
published. The shortest-path, reachability, snapping and buffering work is
done by PostGIS and pgRouting. This project models the Python around those
calls:

- the upload classification helpers (`geodjango/utils.py`);
- the road dataset (`jalan`):
  - upload validation;
  - the road-table naming loop in `JalanMetadata.save`;
  - the ingestion loop with its status transitions;
  - the topology status decision and the edge-cost formula;
  - the route and isochrone request checks and feature selection;
- the region upload and its polygon loop (`batas_wilayah`), and the region
  serializer's GeoJSON reshaping;
- the world-borders shapefile upload (`world`);
- the upload, add and edit views of the student (`peserta_didik`) and school
  (`sekolah`) CSV datasets, including the model `save` that rounds
  coordinates;
- the zonation project views (`project`): create, save layers, publish, and
  the two list filters.

Modules:

- Shared modules:
  - `Py` (`py.dfy`): Python value semantics, namely JSON-like values,
    truthiness, exceptions and `str(e)`, `int()`, `float()`, `round()`, and
    the string methods used.
  - `Geo` (`geo.dfy`): geometries with an opaque payload, GeoDataFrame rows
    whose geometry may be missing (a None cell), and bounding boxes.
  - `Forms` (`forms.dfy`): the required-field check chains and
    `missing_fields`.
  - `CsvDatasets` (`csv_datasets.dfy`): what the two CSV datasets share.
- One module per core source file:
  - `GeodjangoUtils`
  - `JalanModels`
  - `JalanViews`
  - `BatasWilayahViews`
  - `BatasWilayahSerializers`
  - `WorldViews`
  - `PesertaDidikViews`
  - `SekolahViews`
  - `ProjectViews`

State that the views change in place is held in classes:

- A `Database` class per app holds that app's tables.
- `JalanMetadata`, `PesertaDidik` and `Sekolah` instances are classes whose
  `save` methods write their row.
- The road database also keeps a journal of writes, so the order of status
  saves and road inserts can be stated.

Everything outside the Python code becomes a parameter of the operation. That
covers SQL results, file readers, GeoServer calls, random draws, fresh ids and
the CSV helpers.

## Model

| member | source | states |
|---|---|---|
| Py.Round | peserta_didik/views.py:101-102 | `round(x, d)` is a whole number of 10^-d units, within half a unit of `x` |
| Py.RoundIsIdempotent | peserta_didik/models.py:48-53 | rounding an already rounded coordinate again changes nothing |
| Py.Trunc | peserta_didik/views.py:112 | `int()` of a float truncates toward zero: the result is within one of the value, on the side of zero |
| Py.ParseIntOfIntToString | peserta_didik/views.py:191 | `int(str(i)) == i` for every integer |
| Py.ToIntOfIntString | peserta_didik/views.py:191 | `int()` of the decimal text of an integer gives back that integer |
| Py.ParseFloatExtendsParseInt | peserta_didik/views.py:180 | every literal `int()` accepts, `float()` accepts with the same value |
| GeodjangoUtils.Extension | geodjango/utils.py:17 | `splitext(p)[1]` is empty or a dot-led suffix of `p` with no further dot or slash |
| GeodjangoUtils.ExtensionOfSuffix | geodjango/utils.py:17 | a name made of a directory, a stem without dot or slash, and a dot-led suffix has exactly that suffix as its extension |
| GeodjangoUtils.KnownExtensionIsRecognised | geodjango/utils.py:17-20 | a name ending in `.zip`, `.kml` or `.geojson` (in any case) is accepted, with the format named by that suffix |
| GeodjangoUtils.IsValidGeospatialFile | geodjango/utils.py:6-20 | no name gives None. Otherwise the result is some format iff the lower-cased extension is `.zip`, `.kml` or `.geojson`. The format is always one of `zip`, `kml`, `geojson`, and it is the extension without its dot |
| GeodjangoUtils.FormatIgnoresCase | geodjango/utils.py:17 | a name and its lower-cased form announce the same format |
| GeodjangoUtils.NoExtensionNoFormat | geodjango/utils.py:17-20 | a last path component without a dot has no format |
| GeodjangoUtils.PathJoinParts | geodjango/utils.py:55 | `os.path.join(a, b)` ends in `b`; an absolute `b` is the result, and otherwise the result starts with `a` |
| GeodjangoUtils.FirstShapefile | geodjango/utils.py:50-54 | the index of the first listed name ending in `.shp` (case-sensitive), or -1 when there is none |
| GeodjangoUtils.ShapefilePathFound | geodjango/utils.py:54-57 | a path exists iff some listed name ends in `.shp`, and then it ends in `.shp`. Otherwise the outcome is FileNotFoundError with the source's text |
| GeodjangoUtils.FindShapefilePath | geodjango/utils.py:47-57 | the directory joined with the first `.shp` name in listing order. It raises FileNotFoundError with the source's text exactly when no name ends in `.shp` |
| Forms.GeoUploadRejection | jalan/views.py:81-100 | checks run in the order name, file, format. The first failing one gives its 400, and none fails iff all three hold |
| Forms.ResolveSource | jalan/views.py:109-123 | a zip reads its first `.shp` member and other formats read the upload itself. Only a zip can fail: it is not a zip, or it has no `.shp` |
| Forms.MissingFields | peserta_didik/views.py:171 | exactly the required fields whose value is absent or falsy, in declared order |
| Forms.RejectMissing | peserta_didik/views.py:171-176 | nothing is rejected iff every required field is given. Otherwise the 400 text is `Missing fields: ` plus the missing names joined by `, ` |
| Forms.OnlyMissingField | peserta_didik/views.py:171-176 | with one required field absent, the list names just that field |
| Forms.AllGiven | peserta_didik/views.py:171-172 | with every required field given, the list is empty |
| Forms.FalsyCountsAsMissing | peserta_didik/views.py:171 | a field whose value is 0, 0.0, "", false or null is reported missing |
| JalanModels.ChooseRoadTable | jalan/models.py:33-42 | the first drawn name not already in use, if any. It is `tb_jalan_x_` plus 4 lowercase letters, at most 50 characters long, and it differs from every existing name |
| JalanModels.GeneratedNamesDifferByDraw | jalan/models.py:36-37 | different draws give different names |
| JalanModels.VerticesTableInjective | jalan/views.py:351 | distinct road tables have distinct `_vertices_pgr` tables |
| JalanModels.VerticesTableIsNotARoadTable | jalan/views.py:351 | a vertex table never has the shape of a generated road-table name |
| JalanModels.JalanMetadata.Save | jalan/models.py:32-44 | a non-empty `road_table` is kept. An empty one gets the chosen fresh name. The row is then written under the instance's id, and the store stays valid |
| JalanModels.CreateMetadata | jalan/views.py:105-107 | `objects.create`: a row with the chosen road table, no bbox and the given status is stored and journalled |
| Geo.FirstMissing | jalan/views.py:163-167 | the index of the first row without a geometry, or the row count. Every row before it has one |
| Geo.FirstMissingAt | jalan/views.py:163-167 | a row without a geometry preceded only by rows with one is the first missing row |
| JalanViews.RowLines | jalan/views.py:165-176 | a LineString gives itself and a MultiLineString its parts in order. Only a linear geometry gives any line |
| JalanViews.IngestEdges | jalan/views.py:163-196 | every edge the ingestion inserts carries the dataset id |
| JalanViews.IngestEdgesAppend | jalan/views.py:163-196 | the edges of two batches of rows are the edges of each batch, in order |
| JalanViews.IngestEdgesOfOneRow | jalan/views.py:163-196 | a row yields exactly its own edges |
| JalanViews.LineStringRowYieldsOneEdge | jalan/views.py:167-168 | a LineString row contributes exactly one edge at its place |
| JalanViews.MultiLineStringRowYieldsEachPart | jalan/views.py:169-173 | a MultiLineString row contributes one edge per part, in part order, at its place |
| JalanViews.NonLinearRowIsSkipped | jalan/views.py:174-176 | removing a row of any other geometry type changes nothing |
| JalanViews.IngestEdgeOrigin | jalan/views.py:182-195 | every inserted edge is a line of some linear row, carries that row's other columns and the dataset id |
| JalanViews.Inserted | jalan/views.py:185-196 | the edges inserted before the failing insert are a prefix, and they are all the edges iff no insert fails |
| JalanViews.IngestStatusTrace | jalan/views.py:159-210 | `data_status` moves DEPLOYING then FAILED, DEPLOYING then DEPLOYED, or DEPLOYING then DEPLOYED then FAILED. It ends DEPLOYED iff every reached row had a geometry, every insert succeeded and the layer call returned |
| JalanViews.DeployingBeforeInserts | jalan/views.py:159-196 | DEPLOYING is saved before any insert. The inserts are, in order, the first edges of the rows before the first row without a geometry, and they are all of them iff nothing raised |
| JalanViews.IngestGeoserverStatus | jalan/views.py:201-206 | `geoserver_status` is DEPLOYED iff the layer call reported success after all inserts, and FAILED iff it reported failure. It is unchanged when something raised first. No other column changes |
| JalanViews.MissingGeometryFails | jalan/views.py:159-210 | a row without a geometry makes `geo_row.geom_type` raise: the row ends FAILED with the layer never called, after DEPLOYING and the inserts of the rows before it |
| JalanViews.IterateAndSave | jalan/views.py:155-211 | the journal and the final row are those of the ingestion specification, over the edges of the rows before the first row without a geometry, which raises |
| JalanViews.InsertAllRows | jalan/views.py:162-197 | the outer loop inserts exactly the edges of the rows before the first row without a geometry, up to the failing insert. It reports a raise iff an insert failed or such a row was reached |
| JalanViews.InsertRow | jalan/views.py:165-196 | one row's `geometries` list is built and its edges inserted up to the failing insert; a non-linear row inserts nothing |
| JalanViews.InsertRowEdges | jalan/views.py:178-196 | the inner loop inserts the row's edges up to the failing insert |
| JalanViews.IngestRaise | jalan/views.py:185-196 | an insert failing inside row i stops the ingestion at that edge |
| JalanViews.FinishDeploy | jalan/views.py:198-206 | DEPLOYED is saved, then the layer outcome. A raising layer call sets FAILED again |
| JalanViews.Upload | jalan/views.py:75-133 | checks run in the order name, file, format. Then the metadata row is created and the source resolved and read. The bbox is saved and the road table created, and the ingestion is handed off. Each failure gives 500 with its text and leaves the writes made so far |
| JalanViews.ReadAndProcess | jalan/views.py:108-128 | a failure to resolve or read the source gives 500 and no write. Otherwise `process_file` runs on the rows read |
| JalanViews.ProcessFile | jalan/views.py:135-153 | the bbox is saved, then the road table is created. With no table fault, the metadata, table and rows are handed to the background ingestion |
| JalanViews.CostMinutes | jalan/views.py:268-275 | `(length / speed) / 60` equals 15 × length / 1000 minutes, and it is positive iff the length is |
| JalanViews.UpdateCosts | jalan/views.py:272-276 | every row's cost and reverse cost both equal 15 × length / 1000, and the end nodes are kept |
| JalanViews.ValidAfterCosting | jalan/views.py:279-285 | a costed row is valid iff it has both end nodes and positive length |
| JalanViews.SampleSize | jalan/views.py:279-285 | the sample has at most 10 rows and at most the number of valid rows |
| JalanViews.TopologyCreatedIff | jalan/views.py:295-307 | CREATED iff at least 10 rows have both end nodes and positive length. Fewer than 10 edges always give FAILED |
| JalanViews.GenerateTopology | jalan/views.py:254-312 | CREATING is saved first. A SQL fault leaves it with 500. Otherwise costs are updated, and the row ends CREATED with 201 iff 10 valid rows were sampled, else FAILED with 500. An unknown id gives 500 and no write |
| JalanViews.FindRoute | jalan/views.py:320-421 | 400 iff a coordinate is missing or is not numeric, with the matching text. 200 iff the dataset exists and a route is found |
| JalanViews.RouteProperties | jalan/views.py:393-403 | the route feature's properties are the four coordinates, the name, the length and the time `round(15 × length, 1)` |
| JalanViews.RouteTimeIsPaceTimesLength | jalan/views.py:402 | the reported time is 15 × length to within 0.05 minutes |
| JalanViews.PointFeatures | jalan/views.py:513-520 | one point feature per nearest vertex, in order, with `idx` equal to its rank |
| JalanViews.LoadAll | jalan/views.py:513-520 | every nearest-vertex cell is parsed in order. The list succeeds iff every cell parses, and otherwise fails with the first failing cell's error (a NULL cell is a TypeError) |
| JalanViews.IsochroneParts | jalan/views.py:489-520 | the buffer parse, the concave hull, the hull's parse and the point parses run in that order. The parts exist iff each succeeds, and otherwise the first failure's error is the outcome |
| JalanViews.IsochroneProperties | jalan/views.py:495-510 | the concave and buffer features' properties are exactly the request's lat, lon and time, and the name |
| JalanViews.BuildFeatures | jalan/views.py:521-527 | the `append`/`extend` steps build exactly the selected feature list |
| JalanViews.DefaultFilterSelectsAll | jalan/views.py:435 | the default filter returns concave, buffer, then every point |
| JalanViews.SelectionByKeyword | jalan/views.py:522-527 | each group appears iff its keyword occurs in the filter, in the order concave, buffer, points |
| JalanViews.FindIsochrone | jalan/views.py:429-544 | 400 iff lat, lon or time is missing. An unknown dataset, a raising query, an empty or NULL buffer text, and any failure in parsing the buffer, building or parsing the hull or parsing a point each give 500 with `str(e)`. 200 iff the dataset exists, the buffer text is non-empty and every parse succeeds, with the selected features |
| BatasWilayahViews.FirstNonPolygonal | batas_wilayah/views.py:125-132 | the index of the first row that is neither Polygon nor MultiPolygon; every row before it is polygonal |
| BatasWilayahViews.StoredRegions | batas_wilayah/views.py:125-142 | at most one region per row, with consecutive ids from the first fresh id and the metadata id |
| BatasWilayahViews.StoredRegionsArePolygonalPrefix | batas_wilayah/views.py:125-142 | exactly the rows before the first non-polygonal one are stored, in order. Each has its row's other columns, the metadata id and consecutive ids |
| BatasWilayahViews.LaterRowsAreIgnored | batas_wilayah/views.py:130-132 | rows after the first non-polygonal one never matter |
| BatasWilayahViews.PolygonIsWrapped | batas_wilayah/views.py:128-130 | a Polygon is stored as the MultiPolygon of exactly that polygon, and a MultiPolygon as is |
| BatasWilayahViews.ProcessRows | batas_wilayah/views.py:125-142 | the loop appends exactly the stored-regions specification and touches no metadata. It raises, with the AttributeError of `geom.geom_type`, iff the first non-polygonal row has no geometry |
| BatasWilayahViews.Upload | batas_wilayah/views.py:52-142 | checks run in the order name, file, format. Then the metadata is created and the source resolved and read; those failures give 500 and store no region. The polygonal prefix of the rows is stored. The response is 201, or 500 with `str(e)` when the loop stopped at a row without a geometry, with the regions before it kept |
| BatasWilayahSerializers.Pop | batas_wilayah/serializers.py:42-43 | `dict.pop(key)` gives the value and the dict without the key, or KeyError |
| BatasWilayahSerializers.Feature | batas_wilayah/serializers.py:40-44 | the Feature has exactly the keys type, geometry and properties, with type `Feature` and the given geometry and properties |
| BatasWilayahSerializers.ToRepresentation | batas_wilayah/serializers.py:35-49 | `mpoly` and `properties` move into a Feature under `geojson`, and every other key is unchanged. A missing key raises, `mpoly` first |
| BatasWilayahSerializers.FlattenUndoesReshaping | batas_wilayah/serializers.py:37-49 | the base representation is recovered from the reshaped one, so nothing is lost |
| WorldViews.ShapefileNames | world/views.py:50 | the comprehension keeps exactly the names ending in `.shp` |
| WorldViews.FirstShapefileName | world/views.py:48-51 | the comprehension's first element is the first `.shp` name of the listing |
| WorldViews.WorldShapefilePath | world/views.py:48-51 | the view finds a path iff `find_shapefile_path` would, and the same one. With none it is IndexError |
| WorldViews.SameShapefileAsHelper | world/views.py:48-51 | this view picks the same path as `find_shapefile_path`. With none it raises IndexError instead |
| WorldViews.MissingColumns | world/views.py:58-73 | exactly the selected columns the frame lacks |
| WorldViews.StoredGeometry | world/views.py:78-80 | a Polygon is wrapped into a one-member MultiPolygon, and every other geometry passes through |
| WorldViews.BorderOf | world/views.py:85-97 | the record built from a row stores the wrapped geometry, never a bare Polygon, and lon and lat are its centroid. The selected columns are copied |
| WorldViews.Borders | world/views.py:76-99 | one record per row, in row order |
| WorldViews.SaveBorders | world/views.py:76-99 | the loop saves one border per row, in row order, up to the first row without a geometry. It raises the AttributeError of `geom.geom_type` iff there is such a row |
| WorldViews.Upload | world/views.py:28-104 | no file gives 400 and stores nothing. Each failure before the loop propagates with its exception and stores nothing. The loop stores the borders of the rows before the first row without a geometry; such a row propagates its AttributeError, and otherwise the response is 201 |
| CsvDatasets.AppendedContents | peserta_didik/views.py:100-119 | saving new records gives the new ids, in order, the new records, and leaves every other id untouched |
| CsvDatasets.AppendedIsValid | peserta_didik/views.py:100-119 | saving the records of a whole upload keeps the store valid |
| CsvDatasets.FirstFailure | peserta_didik/views.py:100-102 | the first row whose conversion raises, with every earlier row converting |
| CsvDatasets.FirstFailureAt | peserta_didik/views.py:100-102 | a failure after only successes is the first failure |
| CsvDatasets.Converted | peserta_didik/views.py:100-118 | one converted record per row, in order |
| CsvDatasets.Coordinate | peserta_didik/views.py:101-102 | `round(float(v), 6)`: fails exactly when `float` does, with its error, and gives a value that rounding leaves alone |
| CsvDatasets.Lookup | peserta_didik/views.py:101 | `row[key]` gives the value, or KeyError naming the key |
| CsvDatasets.UploadRejection | sekolah/views.py:76-92 | checks run in the order name, level, type (schools only), file. The first failing one gives 400 |
| CsvDatasets.DatumErrorResponse | peserta_didik/views.py:209-216 | a ValueError gives 400 `Invalid value: ...` and every other exception gives 500 `str(e)` |
| CsvDatasets.MissingKeyIsServerError | peserta_didik/views.py:213-216 | a KeyError is a 500 whose text is the quoted key |
| PesertaDidikViews.PesertaDidik.Save | peserta_didik/models.py:48-53 | lat and lon are rounded to 6 places, and already rounded values are kept. The row is written under the instance's id, or a new id when it has none |
| PesertaDidikViews.RowFields | peserta_didik/views.py:100-118 | a converted row always has coordinates that saving leaves as they are |
| PesertaDidikViews.RowConversion | peserta_didik/views.py:101-113 | a row converts iff lat and lon are present and numeric and the date and priority convert. The result has rounded coordinates, the point (lon, lat), priority 0 when absent, and `row.get` of the other columns |
| PesertaDidikViews.UploadPriorityDefaultsToZero | peserta_didik/views.py:112 | an upload row without `prioritas` gets priority 0 |
| PesertaDidikViews.SaveNew | peserta_didik/views.py:106-119 | a new record is stored under the next id |
| PesertaDidikViews.SaveRows | peserta_didik/views.py:100-119 | one record is saved per row up to the first failing row, with consecutive ids. That row's exception is returned |
| PesertaDidikViews.Upload | peserta_didik/views.py:70-129 | checks run in the order name, level, file, each 400 with nothing stored. A CSV or bbox fault gives 500 with nothing stored. Otherwise the metadata and the records before the first bad row are stored, with 201 iff every row converted |
| PesertaDidikViews.DatumFields | peserta_didik/views.py:180-197 | a converted datum always has coordinates that saving leaves as they are |
| PesertaDidikViews.DatumConversion | peserta_didik/views.py:180-197 | the data converts iff lat and lon convert, the date parses, and `prioritas` is present and an integer. `alamat` and `keterangan` default to "" |
| PesertaDidikViews.MissingPriorityIsServerError | peserta_didik/views.py:191 | a missing `prioritas` on add or edit is a 500 naming the key |
| PesertaDidikViews.BadPriorityIsBadRequest | peserta_didik/views.py:209-212 | a non-integer `prioritas` is a 400 |
| PesertaDidikViews.Add | peserta_didik/views.py:148-216 | an unknown metadata id gives 404 before validation. Missing fields give 400, and a conversion error its 400 or 500; each leaves the store unchanged. Otherwise one record is added under the next id, with 201 |
| PesertaDidikViews.Edit | peserta_didik/views.py:224-299 | 404 for an unknown metadata id, then 404 for a record outside it. Then missing fields give 400 and conversion errors their response, each changing nothing. Otherwise the record is replaced in place under its id |
| PesertaDidikViews.Update | peserta_didik/views.py:266-299 | the field assignments and save: the record under the instance's id gets the converted fields, or nothing changes when a conversion raises |
| SekolahViews.Sekolah.Save | sekolah/models.py:48-53 | lat and lon are rounded to 6 places, and already rounded values are kept. The row is written under the instance's id, or a new id when it has none |
| SekolahViews.RowFields | sekolah/views.py:103-120 | a converted row always has coordinates that saving leaves as they are |
| SekolahViews.RowConversion | sekolah/views.py:104-115 | a row converts iff lat and lon are present and numeric and `kuota` converts. The result has rounded coordinates, the point (lon, lat), `kuota` 0 when absent, and `row.get` of the other columns |
| SekolahViews.UploadQuotaDefaultsToZero | sekolah/views.py:114 | an upload row without `kuota` gets quota 0 |
| SekolahViews.SaveNew | sekolah/views.py:109-121 | a new record is stored under the next id |
| SekolahViews.SaveRows | sekolah/views.py:103-121 | one record is saved per row up to the first failing row, with consecutive ids. That row's exception is returned |
| SekolahViews.Upload | sekolah/views.py:68-131 | checks run in the order name, level, type, file, each 400 with nothing stored. A CSV or bbox fault gives 500. Otherwise the metadata and the records before the first bad row are stored, with 201 iff every row converted |
| SekolahViews.DatumFields | sekolah/views.py:175-191 | a converted datum always has coordinates that saving leaves as they are |
| SekolahViews.DatumConversion | sekolah/views.py:175-191 | the data converts iff lat and lon convert and `kuota` is present and an integer. `alamat` and `keterangan` default to "" |
| SekolahViews.BadQuotaIsBadRequest | sekolah/views.py:185 | a non-integer `kuota` is a 400 `Invalid value` |
| SekolahViews.Add | sekolah/views.py:150-210 | an unknown metadata id gives 404. Missing fields give 400, and a conversion error its 400 or 500; each leaves the store unchanged. Otherwise one record is added under the next id, with 201 |
| SekolahViews.Edit | sekolah/views.py:218-283 | 404 for an unknown metadata id, then 404 for a school outside it. Then missing fields give 400 and conversion errors their response, each changing nothing. Otherwise the record is replaced in place |
| SekolahViews.Update | sekolah/views.py:250-283 | the field assignments and save: the record under the instance's id gets the converted fields, or nothing changes when a conversion raises |
| ProjectViews.IndexOf | project/views.py:133 | `objects.get(id=...)` finds the only row with that id, or reports that none has it |
| ProjectViews.CreateRejection | project/views.py:43-54 | checks run in the order name, level, type; the first failing one gives its 400 |
| ProjectViews.Create | project/views.py:37-73 | a failed check gives 400 and a database fault 500, each with nothing stored. Otherwise a new DRAFT project with no layers and no bbox is appended, with 201, and the ids stay distinct and the statuses known |
| ProjectViews.Subscript | project/views.py:91 | `v["key"]` is a dict lookup (KeyError when absent) and a TypeError on every other value |
| ProjectViews.IsRoadLayer | project/views.py:91 | a layer is a road layer iff it is a dict whose `type` is `jalan` |
| ProjectViews.FirstRoadLayer | project/views.py:90-92 | a found layer is a layer of the list with type `jalan`. Nothing is found iff every layer is a dict with another type. A list of typed dicts never raises |
| ProjectViews.FirstRoadLayerIsFirst | project/views.py:90-92 | a road layer preceded only by other typed layers is the one found |
| ProjectViews.FindRoadLayer | project/views.py:90-92 | a list is searched. A non-empty string or dict raises TypeError, an empty one finds nothing, and a number or bool is not iterable |
| ProjectViews.RoadById | project/views.py:94-95 | the road dataset the layer's id names, DoesNotExist when there is none, or the id conversion's error |
| ProjectViews.LayerUpdate | project/views.py:90-99 | the layers are stored as given. The bbox comes from the road dataset of the first road layer, and is unchanged when there is no road layer. Every other column is unchanged |
| ProjectViews.UnknownRoadStopsSave | project/views.py:95 | a road layer naming a missing road dataset stops the save with DoesNotExist |
| ProjectViews.SaveLayer | project/views.py:81-115 | an unknown project gives 500 and missing layers give 400. Any exception in the search or lookup gives 500. Each of these leaves the store unchanged. Otherwise the updated row replaces the project's row, with 200 |
| ProjectViews.UpdateStatus | project/views.py:123-145 | a status other than DRAFT or PUBLISHED gives 400 before any lookup, and an unknown id gives 500; each changes nothing. Otherwise only that project's status changes, with 200 |
| ProjectViews.Selected | project/views.py:11 | exactly the admitted rows |
| ProjectViews.LaterListedFirst | project/views.py:11 | every row created later is listed before every row created earlier (`order_by("-created_at")`) |
| ProjectViews.NewestListedFirst | project/views.py:11 | a newly created project heads the list when it is admitted |
| ProjectViews.ProjectList | project/views.py:14-19 | all projects, filtered by type only when the parameter is given and non-empty |
| ProjectViews.ZonasiList | project/views.py:152-160 | exactly the PUBLISHED projects, of the given level when a non-empty level is given |
| ProjectViews.CreatedProjectIsDraft | project/views.py:62 | a new draft heads the list of its type, and it stays out of the zonation list |
| ProjectViews.PublishedProjectIsListed | project/views.py:134 | a project set to PUBLISHED appears in the zonation list of its level |

## Left out

- SQL and PostGIS/pgRouting work is not modelled. This covers topology snapping, Dijkstra, driving distance, `ST_Buffer`/`ST_Union`/`ST_LineMerge`/`ST_Length`/`ST_Transform`, index creation and `DROP TABLE`. These are foreign calls. Their results are parameters: the topology rows, the route and isochrone query results, and a table fault.
- The background `Thread` of `process_file` is not run. The upload returns a `Handoff` (metadata, table, rows), and `IterateAndSave` models the thread's work run to completion, sequentially.
- File and library I/O become parameters:
  - `extract_zip_to_temp` (`ZipArchive`);
  - `gpd.read_file` with reprojection and `total_bounds` (`ReadResult`, `FrameRead`);
  - the 2D conversion through WKB;
  - centroids;
  - `create_geoserver_layer` (`LayerResult`);
  - `create_concave_hull`, `geojson_line_length`, `csv_to_dict`, `calculate_bbox_from_csv_points` and `parse_date`. These are imported but not defined in `geodjango/utils.py`.
- GeoServer layer deletion and `JalanMetadataDelete.delete` are not modelled. The same goes for list, detail and delete generic views and route tables, and the serializers' default representations: they are declarative Django configuration.
- world/models.py is not part of this model.
- The world upload's listing is taken as given, and it includes the saved upload itself.
- JalanModels.JalanMetadata.Save: the source's `while True` loop may never end. Here the random draws are a supplied finite sequence, and when every draw collides nothing is saved.
- JalanViews.Upload: requires that the draws yield a free name whenever the checks pass, for the same reason.
- UUID primary keys are natural numbers supplied by the caller. `requires` clauses state that they are fresh.
- A malformed UUID in a lookup (Django's ValidationError) is modelled as not found (DoesNotExist), except in `ProjectViews.RoadById`, where the conversion is a parameter.
- Database constraint faults on save are not modelled, except for `ProjectViews.Create`, whose insert fault is a parameter. For example, a missing `description` violates its NOT NULL column in the road, region and CSV uploads, and the store keeps None instead.
- The partial effects of a failing multi-statement SQL run are not modelled.
- Py.Round: works on exact decimals with ties to even. Binary floating point, `float` repr, and the rounding error of `round(15 * length, 1)` and `round(float(v), 6)` are not modelled.
- Py.ParseInt: accepts only sign-and-digit literals. Exponents, `inf`/`nan`, underscores and non-ASCII digits or whitespace are not modelled.
- Py.ParseFloat: accepts only decimal literals with an optional sign and at most one point. Exponents, `inf`/`nan`, underscores and non-ASCII digits or whitespace are not modelled.
- Py.Lower: lower-cases ASCII letters only.
- pandas' KeyError text for missing columns is modelled as the list `repr` followed by ` not in index`.
- BatasWilayahViews.Upload: does not store the bbox: the region metadata model has no such column.
- PesertaDidikViews.DatumFields: reads the required text fields with `.get`. After the missing-fields check they are present, so `data[key]` cannot raise there.
- SekolahViews.DatumFields: reads the required text fields with `.get`, for the same reason.
- ProjectViews.ProjectList: orders by creation position. Creation times are taken to be strictly increasing, so ties in `created_at` are not modelled.
- ProjectViews.ZonasiList: orders by creation position, as ProjectList does.
- JalanViews.MultiLineStringRowYieldsEachPart: takes a MultiLineString's parts as iterable in order, as Shapely 1 allows. Under Shapely 2 `for line in geo_row` raises TypeError and the ingestion would end FAILED.
- JalanViews.FindIsochrone: `create_concave_hull` is a parameter that may fail. What it computes is not modelled.
- The `print` in `ProjectListZonasi.get_queryset` and in `iterate_and_save` is output only and is left out.
