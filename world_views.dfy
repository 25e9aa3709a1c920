/** The world-borders shapefile upload: a zip is extracted, its first `.shp`
    member read, the expected columns selected, and one `WorldBorder` saved
    per row. The handler has no `try`: every failure after the file check
    propagates out of the view. */
module WorldViews {
  import opened Py
  import opened Geo
  import opened GeodjangoUtils
  import opened Forms

  /** One saved `WorldBorder`: the attribute cells copied from the row, the
      centroid of the stored geometry, and that geometry. */
  datatype WorldBorder = WorldBorder(
    name: Json, area: Json, pop2005: Json, fips: Json, iso2: Json, iso3: Json,
    un: Json, region: Json, subregion: Json, lon: real, lat: real, mpoly: Geometry)

  class Database {
    /** The saved borders, oldest first. */
    var borders: seq<WorldBorder>

    constructor ()
      ensures borders == []
    {
      borders := [];
    }
  }

  /** The attribute columns `gdf[[...]]` selects, besides "geometry". */
  const BorderColumns: seq<string> :=
    ["FIPS", "ISO2", "ISO3", "UN", "NAME", "AREA", "POP2005", "REGION", "SUBREGION", "LON", "LAT"]

  /** What `gpd.read_file` delivers for the shapefile: an error, or a frame
      with its column names and its rows. */
  datatype FrameRead = FrameRaised(message: string) | FrameRead(columns: set<string>, rows: seq<Row>)

  const NoFileMessage := "No file provided."
  const ProcessedMessage := "Shapefile uploaded and processed."
  const BadZipMessage := "File is not a zip file"
  const IndexOutOfRange := "list index out of range"

  /** `[name for name in listing if name.endswith(".shp")]` */
  function ShapefileNames(listing: seq<string>): (names: seq<string>)
    ensures forall n :: n in names <==> n in listing && EndsWith(n, ".shp")
  {
    if listing == [] then []
    else (if EndsWith(listing[0], ".shp") then [listing[0]] else []) + ShapefileNames(listing[1..])
  }

  /** `os.path.join(temp_dir, [...][0])`: an `IndexError` when no name ends in `.shp`. */
  function WorldShapefilePath(tempDir: string, listing: seq<string>): (r: Result<string>)
    ensures r.Ok? == ShapefilePathOf(tempDir, listing).Ok?
    ensures r.Ok? ==> r == ShapefilePathOf(tempDir, listing)
    ensures r.Raise? ==> r.error == IndexError(IndexOutOfRange)
  {
    FirstShapefileName(listing);
    var names := ShapefileNames(listing);
    if names == [] then Raise(IndexError(IndexOutOfRange)) else Ok(PathJoin(tempDir, names[0]))
  }

  /** The comprehension's first element is the name `find_shapefile_path`
      would pick. */
  lemma {:induction false} FirstShapefileName(listing: seq<string>)
    ensures ShapefileNames(listing) != [] <==> FirstShapefile(listing) >= 0
    ensures ShapefileNames(listing) != [] ==> ShapefileNames(listing)[0] == listing[FirstShapefile(listing)]
  {
    if listing != [] && !EndsWith(listing[0], ".shp") {
      FirstShapefileName(listing[1..]);
    }
  }

  /** This view and the shared helper choose the same `.shp` path; they
      differ only in the exception raised when there is none. */
  lemma SameShapefileAsHelper(tempDir: string, listing: seq<string>)
    ensures WorldShapefilePath(tempDir, listing).Ok? <==> ShapefilePathOf(tempDir, listing).Ok?
    ensures WorldShapefilePath(tempDir, listing).Ok? ==>
      WorldShapefilePath(tempDir, listing).value == ShapefilePathOf(tempDir, listing).value
    ensures WorldShapefilePath(tempDir, listing).Raise? ==>
      WorldShapefilePath(tempDir, listing).error == IndexError(IndexOutOfRange)
  {
    FirstShapefileName(listing);
  }

  /** The selected columns the frame lacks, in selection order. */
  function MissingColumns(wanted: seq<string>, columns: set<string>): (missing: seq<string>)
    ensures forall c :: c in missing <==> c in wanted && c !in columns
    ensures |missing| <= |wanted|
  {
    if wanted == [] then []
    else (if wanted[0] in columns then [] else [wanted[0]]) + MissingColumns(wanted[1..], columns)
  }

  /** `repr` of a list of plain strings. */
  function ListRepr(items: seq<string>): string
  {
    "[" + Join(", ", QuotedAll(items)) + "]"
  }

  function QuotedAll(items: seq<string>): (quoted: seq<string>)
    ensures |quoted| == |items|
  {
    if items == [] then [] else [Repr(items[0])] + QuotedAll(items[1..])
  }

  /** The `KeyError` pandas raises when a selected column is absent. */
  function ColumnsKeyError(missing: seq<string>): Exception
  {
    KeyError(ListRepr(missing) + " not in index")
  }

  /** The geometry saved for a row: a Polygon becomes `MultiPolygon([geom])`. */
  function StoredGeometry(g: Geometry): (s: Geometry)
    ensures g.Polygon? ==> s == MultiPolygon([g.polygon])
    ensures !g.Polygon? ==> s == g
    ensures !s.Polygon?
  {
    if g.Polygon? then MultiPolygon([g.polygon]) else g
  }

  /** The `WorldBorder(...)` built from one row; `centroid` gives the x and
      y of a geometry's centroid. */
  function BorderOf(row: Row, centroid: Geometry -> (real, real)): (b: WorldBorder)
    requires row.geometry.Some?
    ensures b.mpoly == StoredGeometry(row.geometry.value) && !b.mpoly.Polygon?
    ensures (b.lon, b.lat) == centroid(b.mpoly)
    ensures b.name == Get(row.columns, "NAME") && b.iso3 == Get(row.columns, "ISO3")
  {
    var cells := row.columns;
    var geom := StoredGeometry(row.geometry.value);
    WorldBorder(
      Get(cells, "NAME"), Get(cells, "AREA"), Get(cells, "POP2005"), Get(cells, "FIPS"),
      Get(cells, "ISO2"), Get(cells, "ISO3"), Get(cells, "UN"), Get(cells, "REGION"),
      Get(cells, "SUBREGION"), centroid(geom).0, centroid(geom).1, geom)
  }

  /** The records the save loop writes, one per row, in row order. */
  function Borders(rows: seq<Row>, centroid: Geometry -> (real, real)): (bs: seq<WorldBorder>)
    requires HaveGeometry(rows)
    ensures |bs| == |rows|
    ensures forall k | 0 <= k < |rows| :: bs[k] == BorderOf(rows[k], centroid)
  {
    seq(|rows|, k requires 0 <= k < |rows| => BorderOf(rows[k], centroid))
  }

  /** The `for _, row in gdf_filtered.iterrows()` loop; `error` is what
      it raises: `geom.geom_type` on a row without a geometry, after the
      rows before it are saved. */
  method SaveBorders(db: Database, rows: seq<Row>, centroid: Geometry -> (real, real))
    returns (error: Option<Exception>)
    modifies db
    ensures error.Some? <==> Missing(rows)
    ensures error.Some? ==> error.value == NoGeometryError
    ensures db.borders == old(db.borders) + Borders(rows[..FirstMissing(rows)], centroid)
  {
    for i := 0 to |rows|
      invariant HaveGeometry(rows[..i])
      invariant db.borders == old(db.borders) + Borders(rows[..i], centroid)
    {
      if rows[i].geometry.None? {
        FirstMissingAt(rows, i);
        return Some(NoGeometryError);
      }
      assert rows[..i + 1] == rows[..i] + [rows[i]];
      var geom := rows[i].geometry.value;
      if geom.Polygon? {
        geom := MultiPolygon([geom.polygon]);
      }
      var c := centroid(geom);
      var cells := rows[i].columns;
      var instance := WorldBorder(
        Get(cells, "NAME"), Get(cells, "AREA"), Get(cells, "POP2005"), Get(cells, "FIPS"),
        Get(cells, "ISO2"), Get(cells, "ISO3"), Get(cells, "UN"), Get(cells, "REGION"),
        Get(cells, "SUBREGION"), c.0, c.1, geom);
      db.borders := db.borders + [instance];
      assert Borders(rows[..i + 1], centroid) == Borders(rows[..i], centroid) + [BorderOf(rows[i], centroid)];
    }
    assert rows[..|rows|] == rows;
    FirstMissingAt(rows, |rows|);
    return None;
  }

  /** `WorldBorderUpload.post`. `archive` is what opening and extracting
      the saved upload meets (the listing includes the saved upload itself),
      `read` what `gpd.read_file` delivers for a path. */
  method Upload(db: Database, files: map<string, UploadedFile>, archive: ZipArchive,
                read: string -> FrameRead, centroid: Geometry -> (real, real))
    returns (outcome: Outcome)
    modifies db
    ensures "file" !in files ==> outcome == Responded(ErrorResponse(StatusBadRequest, NoFileMessage))
    ensures "file" in files ==>
      match archive
      case NotZip => outcome == Raised(Foreign(BadZipMessage))
      case Extracted(tempDir, listing) =>
        match WorldShapefilePath(tempDir, listing)
        case Raise(e) => outcome == Raised(e)
        case Ok(path) =>
          match read(path)
          case FrameRaised(message) => outcome == Raised(Foreign(message))
          case FrameRead(columns, rows) =>
            var missing := MissingColumns(BorderColumns, columns);
            if missing != [] then outcome == Raised(ColumnsKeyError(missing))
            else
              && outcome == (if Missing(rows) then Raised(NoGeometryError)
                             else Responded(Response(StatusCreated, map["message" := JStr(ProcessedMessage)])))
              && db.borders == old(db.borders) + Borders(rows[..FirstMissing(rows)], centroid)
    ensures outcome != Responded(Response(StatusCreated, map["message" := JStr(ProcessedMessage)]))
            && outcome != Raised(NoGeometryError) ==>
      db.borders == old(db.borders)
  {
    if "file" !in files {
      return Responded(ErrorResponse(StatusBadRequest, NoFileMessage));
    }
    if archive.NotZip? {
      return Raised(Foreign(BadZipMessage));
    }
    var path := WorldShapefilePath(archive.tempDir, archive.listing);
    if path.Raise? {
      return Raised(path.error);
    }
    var frame := read(path.value);
    if frame.FrameRaised? {
      return Raised(Foreign(frame.message));
    }
    var missing := MissingColumns(BorderColumns, frame.columns);
    if missing != [] {
      return Raised(ColumnsKeyError(missing));
    }
    var error := SaveBorders(db, frame.rows, centroid);
    if error.Some? {
      return Raised(error.value);
    }
    return Responded(Response(StatusCreated, map["message" := JStr(ProcessedMessage)]));
  }
}
