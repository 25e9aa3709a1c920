/** The region-boundary upload: validation, then `process_file`, which stores
    one `BatasWilayah` per polygonal row (a Polygon wrapped into a
    one-member MultiPolygon) and stops at the first row that is neither,
    raising when that row has no geometry at all. */
module BatasWilayahViews {
  import opened Py
  import opened Geo
  import opened GeodjangoUtils
  import opened Forms

  /** A stored `tb_batas_wilayah_metadata` row. The model has no bbox
      column: the view's `metadata.bbox = ...` is an attribute the save
      does not store. */
  datatype RegionMetadata = RegionMetadata(id: nat, name: string, description: Option<string>)

  /** A stored `tb_batas_wilayah` row; `mpoly` holds the polygons of its MultiPolygon. */
  datatype BatasWilayah = BatasWilayah(id: nat, fileMetadataId: nat, properties: map<string, Json>, mpoly: seq<Payload>)

  class Database {
    var metadata: map<nat, RegionMetadata>
    var regions: seq<BatasWilayah>
    /** The next AutoField id. */
    var nextId: nat

    constructor ()
      ensures metadata == map[] && regions == [] && nextId == 0
    {
      metadata := map[];
      regions := [];
      nextId := 0;
    }
  }

  /** A geometry cell holding a Polygon or a MultiPolygon. */
  predicate IsPolygonal(g: Option<Geometry>)
  {
    g.Some? && (g.value.Polygon? || g.value.MultiPolygon?)
  }

  /** The geometry stored for a polygonal row: `MultiPolygon([geom])` for a
      Polygon, the MultiPolygon itself otherwise. */
  function StoredPolygons(g: Option<Geometry>): seq<Payload>
    requires IsPolygonal(g)
  {
    if g.value.Polygon? then [g.value.polygon] else g.value.polygons
  }

  /** The record `BatasWilayah.objects.create` makes for a polygonal row. */
  function RegionOf(row: Row, metadataId: nat, id: nat): BatasWilayah
    requires IsPolygonal(row.geometry)
  {
    BatasWilayah(id, metadataId, row.columns, StoredPolygons(row.geometry))
  }

  /** The records `process_file` stores, ids counting up from `firstId`. */
  function StoredRegions(rows: seq<Row>, metadataId: nat, firstId: nat): (regions: seq<BatasWilayah>)
    ensures |regions| <= |rows|
    ensures forall k | 0 <= k < |regions| :: regions[k].id == firstId + k && regions[k].fileMetadataId == metadataId
  {
    if rows == [] || !IsPolygonal(rows[0].geometry) then []
    else [RegionOf(rows[0], metadataId, firstId)] + StoredRegions(rows[1..], metadataId, firstId + 1)
  }

  /** The index of the first row that is neither Polygon nor MultiPolygon
      (or has no geometry), or |rows|. */
  function FirstNonPolygonal(rows: seq<Row>): (k: nat)
    ensures k <= |rows|
    ensures k < |rows| ==> !IsPolygonal(rows[k].geometry)
    ensures forall j | 0 <= j < k :: IsPolygonal(rows[j].geometry)
  {
    if rows == [] || !IsPolygonal(rows[0].geometry) then 0
    else
      var k := FirstNonPolygonal(rows[1..]);
      assert forall j | 1 <= j < k + 1 :: rows[j] == rows[1..][j - 1];
      k + 1
  }

  /** Exactly the rows before the first non-polygonal one are stored, in
      order, each with that row's other columns and the metadata id. */
  lemma {:induction false} StoredRegionsArePolygonalPrefix(rows: seq<Row>, metadataId: nat, firstId: nat)
    ensures var stored := StoredRegions(rows, metadataId, firstId);
      && |stored| == FirstNonPolygonal(rows)
      && forall k | 0 <= k < |stored| ::
           IsPolygonal(rows[k].geometry) && stored[k] == RegionOf(rows[k], metadataId, firstId + k)
  {
    if rows != [] && IsPolygonal(rows[0].geometry) {
      StoredRegionsArePolygonalPrefix(rows[1..], metadataId, firstId + 1);
      var stored := StoredRegions(rows, metadataId, firstId);
      forall k | 1 <= k < |stored|
        ensures stored[k] == RegionOf(rows[k], metadataId, firstId + k)
      {
        assert rows[1..][k - 1] == rows[k];
      }
    }
  }

  /** The loop stops at a row without a geometry: `geom.geom_type` raises
      `AttributeError` there, after the rows before it are stored. */
  predicate StopsOnMissing(rows: seq<Row>)
  {
    FirstNonPolygonal(rows) < |rows| && rows[FirstNonPolygonal(rows)].geometry.None?
  }

  /** Rows after the first non-polygonal one never matter. */
  lemma {:induction false} LaterRowsAreIgnored(rows: seq<Row>, more: seq<Row>, metadataId: nat, firstId: nat)
    requires FirstNonPolygonal(rows) < |rows|
    ensures StoredRegions(rows + more, metadataId, firstId) == StoredRegions(rows, metadataId, firstId)
  {
    assert (rows + more)[0] == rows[0];
    if IsPolygonal(rows[0].geometry) {
      assert (rows + more)[1..] == rows[1..] + more;
      LaterRowsAreIgnored(rows[1..], more, metadataId, firstId + 1);
    }
  }

  /** A Polygon row is stored as the MultiPolygon of exactly that polygon;
      a MultiPolygon row as is. */
  lemma PolygonIsWrapped(row: Row, metadataId: nat, id: nat)
    requires IsPolygonal(row.geometry)
    ensures row.geometry.value.Polygon? ==> RegionOf(row, metadataId, id).mpoly == [row.geometry.value.polygon]
    ensures row.geometry.value.MultiPolygon? ==> RegionOf(row, metadataId, id).mpoly == row.geometry.value.polygons
  {
  }

  /** `process_file`'s loop over the rows, after the metadata save; `error`
      is what it raises. */
  method ProcessRows(db: Database, metadataId: nat, rows: seq<Row>) returns (error: Option<Exception>)
    modifies db
    ensures error.Some? <==> StopsOnMissing(rows)
    ensures error.Some? ==> error.value == NoGeometryError
    ensures db.regions == old(db.regions) + StoredRegions(rows, metadataId, old(db.nextId))
    ensures db.nextId == old(db.nextId) + |StoredRegions(rows, metadataId, old(db.nextId))|
    ensures db.metadata == old(db.metadata)
  {
    var i := 0;
    while i < |rows|
      invariant 0 <= i <= |rows|
      invariant db.nextId == old(db.nextId) + i
      invariant db.metadata == old(db.metadata)
      invariant db.regions == old(db.regions) + StoredRegions(rows[..i], metadataId, old(db.nextId))
      invariant |StoredRegions(rows[..i], metadataId, old(db.nextId))| == i
      invariant forall j | 0 <= j < i :: IsPolygonal(rows[j].geometry)
    {
      if rows[i].geometry.None? {
        StoredRegionsStop(rows, i, metadataId, old(db.nextId));
        FirstNonPolygonalAt(rows, i);
        return Some(NoGeometryError);
      }
      var geom := rows[i].geometry.value;
      var mpoly: seq<Payload>;
      if geom.Polygon? {
        mpoly := [geom.polygon];
      } else if !geom.MultiPolygon? {
        StoredRegionsStop(rows, i, metadataId, old(db.nextId));
        FirstNonPolygonalAt(rows, i);
        return None;
      } else {
        mpoly := geom.polygons;
      }
      var properties := rows[i].columns;
      db.regions := db.regions + [BatasWilayah(db.nextId, metadataId, properties, mpoly)];
      db.nextId := db.nextId + 1;
      StoredRegionsStep(rows, i, metadataId, old(db.nextId));
      i := i + 1;
    }
    assert rows[..i] == rows;
    StoredRegionsArePolygonalPrefix(rows, metadataId, old(db.nextId));
    return None;
  }

  /** A non-polygonal row after only polygonal ones is the first. */
  lemma FirstNonPolygonalAt(rows: seq<Row>, i: nat)
    requires i < |rows| && !IsPolygonal(rows[i].geometry)
    requires forall j | 0 <= j < i :: IsPolygonal(rows[j].geometry)
    ensures FirstNonPolygonal(rows) == i
  {
  }

  /** One stored polygonal row extends the prefix's records by its own. */
  lemma {:induction false} StoredRegionsStep(rows: seq<Row>, i: nat, metadataId: nat, firstId: nat)
    requires i < |rows| && forall j | 0 <= j <= i :: IsPolygonal(rows[j].geometry)
    ensures StoredRegions(rows[..i + 1], metadataId, firstId)
      == StoredRegions(rows[..i], metadataId, firstId) + [RegionOf(rows[i], metadataId, firstId + i)]
  {
    if i > 0 {
      assert rows[..i + 1][1..] == rows[1..][..i];
      assert rows[..i][1..] == rows[1..][..i - 1];
      StoredRegionsStep(rows[1..], i - 1, metadataId, firstId + 1);
    } else {
      assert rows[..1][1..] == [];
    }
  }

  /** Nothing from the first non-polygonal row on is stored. */
  lemma {:induction false} StoredRegionsStop(rows: seq<Row>, i: nat, metadataId: nat, firstId: nat)
    requires i < |rows| && !IsPolygonal(rows[i].geometry)
    ensures StoredRegions(rows, metadataId, firstId) == StoredRegions(rows[..i], metadataId, firstId)
  {
    if i > 0 && IsPolygonal(rows[0].geometry) {
      assert rows[..i][1..] == rows[1..][..i - 1];
      StoredRegionsStop(rows[1..], i - 1, metadataId, firstId + 1);
    }
  }

  /** `BatasWilayahUpload.post`. `newId` is the fresh uuid of the metadata
      row, `archive` what extracting a zip meets, `read` what
      `gpd.read_file` delivers for a source. */
  method Upload(db: Database, form: map<string, string>, files: map<string, UploadedFile>, newId: nat,
                archive: ZipArchive, read: Source -> ReadResult)
    returns (response: Response)
    requires newId !in db.metadata
    modifies db
    ensures GeoUploadRejection(form, files).Some? ==>
      response == GeoUploadRejection(form, files).value
      && db.metadata == old(db.metadata) && db.regions == old(db.regions)
    ensures GeoUploadRejection(form, files).None? ==>
      var created := RegionMetadata(newId, form["name"], if "description" in form then Some(form["description"]) else None);
      var format := IsValidGeospatialFile(Some(files["file"].name)).value;
      && db.metadata == old(db.metadata)[newId := created]
      && match SourceOf(format, files["file"], archive)
         case Raise(e) => response == ErrorResponse(StatusServerError, Str(e)) && db.regions == old(db.regions)
         case Ok(source) =>
           match read(source)
           case ReadRaised(message) => response == ErrorResponse(StatusServerError, message) && db.regions == old(db.regions)
           case Read(rows, _) =>
             && response == (if StopsOnMissing(rows) then ErrorResponse(StatusServerError, Str(NoGeometryError))
                             else Response(StatusCreated, map["message" := JStr("File uploaded successfully"), "metadata_id" := JInt(newId)]))
             && db.regions == old(db.regions) + StoredRegions(rows, newId, old(db.nextId))
  {
    var rejection := GeoUploadRejection(form, files);
    if rejection.Some? {
      return rejection.value;
    }
    var file := files["file"];
    var format := IsValidGeospatialFile(Some(file.name)).value;
    var description := if "description" in form then Some(form["description"]) else None;
    db.metadata := db.metadata[newId := RegionMetadata(newId, form["name"], description)];
    var source := ResolveSource(format, file, archive);
    if source.Raise? {
      return ErrorResponse(StatusServerError, Str(source.error));
    }
    match read(source.value) {
      case ReadRaised(message) =>
        return ErrorResponse(StatusServerError, message);
      case Read(rows, _) =>
        var error := ProcessRows(db, newId, rows);
        if error.Some? {
          return ErrorResponse(StatusServerError, Str(error.value));
        }
    }
    response := Response(StatusCreated, map["message" := JStr("File uploaded successfully"), "metadata_id" := JInt(newId)]);
  }
}
