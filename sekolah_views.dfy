/** The school dataset views: a CSV upload that creates the metadata row
    and one `Sekolah` per CSV row, and the views that add one record to a
    dataset or edit one in place. */
module SekolahViews {
  import opened Py
  import opened Forms
  import opened CsvDatasets

  /** A stored `tb_sekolah_metadata` row. */
  datatype Metadata = Metadata(id: nat, name: string, level: string, kind: string, description: Option<string>, bbox: Json)

  /** The columns of a `tb_sekolah` row; `point` is (x, y) = (lon, lat). */
  datatype SekolahFields = SekolahFields(
    tipe: Json, npsn: Json, nama: Json, alamat: Json, kuota: int, keterangan: Json,
    lat: real, lon: real, point: (real, real))

  const RequiredFields: seq<string> := ["tipe", "npsn", "nama", "lat", "lon", "kuota"]
  const NotFoundMessage := "Sekolah not found."
  const AddedMessage := "Datum sekolah added successfully."

  class Database {
    var metadata: map<nat, Metadata>
    var records: map<nat, Datum<SekolahFields>>
    /** The next AutoField id. */
    var nextId: nat

    constructor ()
      ensures metadata == map[] && records == map[] && nextId == 0
    {
      metadata := map[];
      records := map[];
      nextId := 0;
    }

    predicate Valid()
      reads this
    {
      ValidRecords(records, nextId)
    }
  }

  /** A `Sekolah` model instance. */
  class Sekolah {
    /** None until the first save gives it an id. */
    var id: Option<nat>
    const fileMetadataId: nat
    /** The instance's column attributes. */
    var fields: SekolahFields

    /** `Sekolah(..., file_metadata=metadata)`, not yet saved. */
    constructor (metadataId: nat, f: SekolahFields)
      ensures id == None && fileMetadataId == metadataId && fields == f
    {
      id := None;
      fileMetadataId := metadataId;
      fields := f;
    }

    /** `Sekolah.objects.get(...)`: a fresh instance of a stored record. */
    constructor Load(d: Datum<SekolahFields>)
      ensures id == Some(d.id) && fileMetadataId == d.fileMetadataId && fields == d.fields
    {
      id := Some(d.id);
      fileMetadataId := d.fileMetadataId;
      fields := d.fields;
    }

    /** The model's `save`: lat and lon rounded to 6 places, then the row
        written, under a new id when the instance has none. */
    method Save(db: Database)
      modifies this, db
      ensures fields == old(fields).(lat := Round(old(fields.lat), 6), lon := Round(old(fields.lon), 6))
      ensures Rounded(old(fields)) ==> fields == old(fields)
      ensures old(id).Some? ==> id == old(id) && db.nextId == old(db.nextId)
      ensures old(id).None? ==> id == Some(old(db.nextId)) && db.nextId == old(db.nextId) + 1
      ensures id.Some?
      ensures db.records == old(db.records)[id.value := Datum(id.value, fileMetadataId, fields)]
      ensures db.metadata == old(db.metadata)
      ensures old(db.Valid()) && (old(id).Some? ==> old(id).value < old(db.nextId)) ==> db.Valid()
    {
      fields := fields.(lat := Round(fields.lat, 6), lon := Round(fields.lon, 6));
      if id.None? {
        id := Some(db.nextId);
        db.nextId := db.nextId + 1;
      }
      db.records := db.records[id.value := Datum(id.value, fileMetadataId, fields)];
    }
  }

  /** Coordinates that saving leaves as they are. */
  predicate Rounded(f: SekolahFields)
  {
    Round(f.lat, 6) == f.lat && Round(f.lon, 6) == f.lon
  }

  /** One CSV row of an upload, converted in the order the view evaluates
      it: `row["lat"]`, `row["lon"]`, then `int(row.get("kuota", 0))`; the
      other columns are `row.get`. */
  function RowFields(row: map<string, Json>): (r: Result<SekolahFields>)
    ensures r.Ok? ==> Rounded(r.value)
  {
    match Lookup(row, "lat")
    case Raise(e) => Raise(e)
    case Ok(latCell) =>
      match Coordinate(latCell)
      case Raise(e) => Raise(e)
      case Ok(lat) =>
        match Lookup(row, "lon")
        case Raise(e) => Raise(e)
        case Ok(lonCell) =>
          match Coordinate(lonCell)
          case Raise(e) => Raise(e)
          case Ok(lon) =>
            match ToInt(GetOr(row, "kuota", JInt(0)))
            case Raise(e) => Raise(e)
            case Ok(kuota) =>
              Ok(SekolahFields(Get(row, "tipe"), Get(row, "npsn"), Get(row, "nama"), Get(row, "alamat"),
                kuota, Get(row, "keterangan"), lat, lon, (lon, lat)))
  }

  /** What converting an upload row gives: an exception unless lat and lon
      are present and numeric and the quota converts; otherwise the rounded
      coordinates, the point (lon, lat), quota 0 when the column is absent,
      and `row.get` of the other columns. */
  lemma RowConversion(row: map<string, Json>)
    ensures RowFields(row).Ok? <==>
      && "lat" in row && ToFloat(row["lat"]).Ok? && "lon" in row && ToFloat(row["lon"]).Ok?
      && ToInt(GetOr(row, "kuota", JInt(0))).Ok?
    ensures "lat" !in row ==> RowFields(row) == Raise(KeyError("lat"))
    ensures "lat" in row && ToFloat(row["lat"]).Ok? && "lon" !in row ==> RowFields(row) == Raise(KeyError("lon"))
    ensures RowFields(row).Ok? ==>
      var f := RowFields(row).value;
      && f.lat == Round(ToFloat(row["lat"]).value, 6) && f.lon == Round(ToFloat(row["lon"]).value, 6)
      && f.point == (f.lon, f.lat)
      && f.kuota == ToInt(GetOr(row, "kuota", JInt(0))).value
      && f.tipe == Get(row, "tipe") && f.npsn == Get(row, "npsn") && f.nama == Get(row, "nama")
      && f.alamat == Get(row, "alamat") && f.keterangan == Get(row, "keterangan")
  {
  }

  /** An upload row without a "kuota" column gets quota 0. */
  lemma UploadQuotaDefaultsToZero(row: map<string, Json>)
    requires "kuota" !in row && RowFields(row).Ok?
    ensures RowFields(row).value.kuota == 0
  {
    RowConversion(row);
  }

  /** The conversion the upload applies to each CSV row. */
  function RowConverter(): map<string, Json> -> Result<SekolahFields>
  {
    row => RowFields(row)
  }

  /** `Sekolah(...).save()` of a new record with rounded coordinates. */
  method SaveNew(db: Database, metadataId: nat, f: SekolahFields) returns (id: nat)
    requires db.Valid() && Rounded(f)
    modifies db
    ensures id == old(db.nextId) && db.nextId == id + 1
    ensures db.records == old(db.records)[id := Datum(id, metadataId, f)]
    ensures db.metadata == old(db.metadata)
    ensures db.Valid()
  {
    var s := new Sekolah(metadataId, f);
    s.Save(db);
    id := s.id.value;
  }

  /** The upload's `for row in csv_data` loop: it saves one record per row
      and stops at the first row that raises, with that row's exception. */
  method SaveRows(db: Database, metadataId: nat, rows: seq<map<string, Json>>,
                  convert: map<string, Json> -> Result<SekolahFields>)
    returns (error: Option<Exception>)
    requires db.Valid()
    requires forall row :: convert(row).Ok? ==> Rounded(convert(row).value)
    modifies db
    ensures db.Valid()
    ensures var k := FirstFailure(rows, convert);
      && db.records == Appended(old(db.records), old(db.nextId), metadataId, Converted(rows[..k], convert))
      && db.nextId == old(db.nextId) + k
      && error == (if k < |rows| then Some(convert(rows[k]).error) else None)
    ensures db.metadata == old(db.metadata)
  {
    for i := 0 to |rows|
      invariant db.Valid()
      invariant forall j | 0 <= j < i :: convert(rows[j]).Ok?
      invariant db.records == Appended(old(db.records), old(db.nextId), metadataId, Converted(rows[..i], convert))
      invariant db.nextId == old(db.nextId) + i
      invariant db.metadata == old(db.metadata)
    {
      var f := convert(rows[i]);
      if f.Raise? {
        FirstFailureAt(rows, convert, i);
        return Some(f.error);
      }
      ghost var done := Converted(rows[..i], convert);
      var _ := SaveNew(db, metadataId, f.value);
      ConvertedSnoc(rows, convert, i);
      AppendedSnoc(old(db.records), old(db.nextId), metadataId, done, f.value);
    }
    assert rows[..|rows|] == rows;
    error := None;
  }

  /** `SekolahUpload.post`. `newId` is the fresh uuid of the metadata row;
      `csv` is what `csv_to_dict` delivers, `bboxOf` stands for
      `calculate_bbox_from_csv_points`. */
  method Upload(db: Database, form: map<string, string>, files: map<string, UploadedFile>, newId: nat,
                csv: Result<seq<map<string, Json>>>, bboxOf: seq<map<string, Json>> -> Result<Json>)
    returns (response: Response)
    requires db.Valid() && newId !in db.metadata
    modifies db
    ensures db.Valid()
    ensures UploadRejection(form, files, true).Some? ==>
      response == UploadRejection(form, files, true).value && unchanged(db)
    ensures UploadRejection(form, files, true).None? ==>
      match csv
      case Raise(e) => response == ErrorResponse(StatusServerError, Str(e)) && unchanged(db)
      case Ok(rows) =>
        match bboxOf(rows)
        case Raise(e) => response == ErrorResponse(StatusServerError, Str(e)) && unchanged(db)
        case Ok(bbox) =>
          var k := FirstFailure(rows, RowConverter());
          var description := if "description" in form then Some(form["description"]) else None;
          && db.metadata == old(db.metadata)[newId := Metadata(newId, form["name"], form["level"], form["type"], description, bbox)]
          && db.records == Appended(old(db.records), old(db.nextId), newId, Converted(rows[..k], RowConverter()))
          && response == (
            if k < |rows| then ErrorResponse(StatusServerError, Str(RowConverter()(rows[k]).error))
            else Response(StatusCreated, map["message" := JStr(UploadedMessage), "metadata_id" := JInt(newId)]))
  {
    var rejection := UploadRejection(form, files, true);
    if rejection.Some? {
      return rejection.value;
    }
    if csv.Raise? {
      return ErrorResponse(StatusServerError, Str(csv.error));
    }
    var bbox := bboxOf(csv.value);
    if bbox.Raise? {
      return ErrorResponse(StatusServerError, Str(bbox.error));
    }
    var description := if "description" in form then Some(form["description"]) else None;
    db.metadata := db.metadata[newId := Metadata(newId, form["name"], form["level"], form["type"], description, bbox.value)];
    var error := SaveRows(db, newId, csv.value, RowConverter());
    if error.Some? {
      return ErrorResponse(StatusServerError, Str(error.value));
    }
    response := Response(StatusCreated, map["message" := JStr(UploadedMessage), "metadata_id" := JInt(newId)]);
  }

  /** The add and edit views' conversion of the request data, in the order
      they evaluate it: lat, lon, then `int(data["kuota"])`; alamat and
      keterangan default to "". The other required fields are present once
      the missing-fields check has passed. */
  function DatumFields(data: map<string, Json>): (r: Result<SekolahFields>)
    ensures r.Ok? ==> Rounded(r.value)
  {
    match Coordinate(Get(data, "lat"))
    case Raise(e) => Raise(e)
    case Ok(lat) =>
      match Coordinate(Get(data, "lon"))
      case Raise(e) => Raise(e)
      case Ok(lon) =>
        match Lookup(data, "kuota")
        case Raise(e) => Raise(e)
        case Ok(cell) =>
          match ToInt(cell)
          case Raise(e) => Raise(e)
          case Ok(kuota) =>
            Ok(SekolahFields(Get(data, "tipe"), Get(data, "npsn"), Get(data, "nama"), GetOr(data, "alamat", JStr("")),
              kuota, GetOr(data, "keterangan", JStr("")), lat, lon, (lon, lat)))
  }

  /** What converting the add and edit views' data gives. */
  lemma DatumConversion(data: map<string, Json>)
    ensures DatumFields(data).Ok? <==>
      && Coordinate(Get(data, "lat")).Ok? && Coordinate(Get(data, "lon")).Ok?
      && "kuota" in data && ToInt(data["kuota"]).Ok?
    ensures Coordinate(Get(data, "lat")).Raise? ==> DatumFields(data) == Raise(Coordinate(Get(data, "lat")).error)
    ensures DatumFields(data).Ok? ==>
      var f := DatumFields(data).value;
      && f.lat == Coordinate(Get(data, "lat")).value && f.lon == Coordinate(Get(data, "lon")).value
      && f.point == (f.lon, f.lat)
      && f.alamat == GetOr(data, "alamat", JStr("")) && f.keterangan == GetOr(data, "keterangan", JStr(""))
      && f.kuota == ToInt(data["kuota"]).value
      && f.tipe == Get(data, "tipe") && f.npsn == Get(data, "npsn") && f.nama == Get(data, "nama")
  {
  }

  /** Once the required fields are given, a quota that is not an integer
      literal is a 400 "Invalid value". */
  lemma BadQuotaIsBadRequest(data: map<string, Json>)
    requires Coordinate(Get(data, "lat")).Ok? && Coordinate(Get(data, "lon")).Ok?
    requires "kuota" in data && data["kuota"].JStr? && ParseInt(data["kuota"].s).None?
    ensures DatumFields(data).Raise?
    ensures DatumErrorResponse(DatumFields(data).error).status == StatusBadRequest
  {
    DatumConversion(data);
    assert ToInt(data["kuota"]).Raise? && ToInt(data["kuota"]).error.ValueError?;
  }

  /** The 201 body of the add and edit views. */
  function AddedResponse(recordId: nat, metadataId: nat): Response
  {
    Response(StatusCreated, map[
      "message" := JStr(AddedMessage), "sekolah_id" := JInt(recordId), "metadata_id" := JInt(metadataId)])
  }

  /** `SekolahDatumAdd.post` */
  method Add(db: Database, metadataId: nat, data: map<string, Json>)
    returns (response: Response)
    requires db.Valid()
    modifies db
    ensures db.Valid()
    ensures metadataId !in old(db.metadata) ==>
      response == ErrorResponse(StatusNotFound, MetadataNotFound) && unchanged(db)
    ensures metadataId in old(db.metadata) && RejectMissing(data, RequiredFields).Some? ==>
      response == RejectMissing(data, RequiredFields).value && unchanged(db)
    ensures metadataId in old(db.metadata) && RejectMissing(data, RequiredFields).None? ==>
      match DatumFields(data)
      case Raise(e) => response == DatumErrorResponse(e) && unchanged(db)
      case Ok(f) =>
        && db.records == old(db.records)[old(db.nextId) := Datum(old(db.nextId), metadataId, f)]
        && db.nextId == old(db.nextId) + 1 && db.metadata == old(db.metadata)
        && response == AddedResponse(old(db.nextId), metadataId)
  {
    if metadataId !in db.metadata {
      return ErrorResponse(StatusNotFound, MetadataNotFound);
    }
    var rejection := RejectMissing(data, RequiredFields);
    if rejection.Some? {
      return rejection.value;
    }
    var f := DatumFields(data);
    if f.Raise? {
      return DatumErrorResponse(f.error);
    }
    var id := SaveNew(db, metadataId, f.value);
    response := AddedResponse(id, metadataId);
  }

  /** `SekolahDatumEdit.put`: the record is loaded, its fields are assigned
      one by one, and it is saved only when every conversion succeeded. */
  method Edit(db: Database, metadataId: nat, recordId: nat, data: map<string, Json>)
    returns (response: Response)
    requires db.Valid()
    modifies db
    ensures db.Valid()
    ensures metadataId !in old(db.metadata) ==>
      response == ErrorResponse(StatusNotFound, MetadataNotFound) && unchanged(db)
    ensures (metadataId in old(db.metadata)
      && !(recordId in old(db.records) && old(db.records)[recordId].fileMetadataId == metadataId)) ==>
      response == ErrorResponse(StatusNotFound, NotFoundMessage) && unchanged(db)
    ensures (metadataId in old(db.metadata) && recordId in old(db.records)
      && old(db.records)[recordId].fileMetadataId == metadataId) ==>
      if RejectMissing(data, RequiredFields).Some? then
        response == RejectMissing(data, RequiredFields).value && unchanged(db)
      else
        match DatumFields(data)
        case Raise(e) => response == DatumErrorResponse(e) && unchanged(db)
        case Ok(f) =>
          && db.records == old(db.records)[recordId := Datum(recordId, metadataId, f)]
          && db.nextId == old(db.nextId) && db.metadata == old(db.metadata)
          && response == AddedResponse(recordId, metadataId)
  {
    if metadataId !in db.metadata {
      return ErrorResponse(StatusNotFound, MetadataNotFound);
    }
    if !(recordId in db.records && db.records[recordId].fileMetadataId == metadataId) {
      return ErrorResponse(StatusNotFound, NotFoundMessage);
    }
    assert db.records[recordId].id == recordId < db.nextId;
    var s := new Sekolah.Load(db.records[recordId]);
    var rejection := RejectMissing(data, RequiredFields);
    if rejection.Some? {
      return rejection.value;
    }
    response := Update(db, s, data);
  }

  /** The edit view's assignments to the loaded instance, in its order,
      then the save; the first conversion that raises ends the request
      with the instance unsaved. */
  method Update(db: Database, s: Sekolah, data: map<string, Json>) returns (response: Response)
    requires db.Valid() && s.id.Some? && s.id.value < db.nextId
    modifies db, s
    ensures db.Valid()
    ensures match DatumFields(data)
      case Raise(e) => response == DatumErrorResponse(e) && unchanged(db)
      case Ok(f) =>
        && db.records == old(db.records)[old(s.id).value := Datum(old(s.id).value, s.fileMetadataId, f)]
        && db.nextId == old(db.nextId) && db.metadata == old(db.metadata)
        && response == AddedResponse(old(s.id).value, s.fileMetadataId)
  {
    var lat := Coordinate(Get(data, "lat"));
    if lat.Raise? {
      return DatumErrorResponse(lat.error);
    }
    var lon := Coordinate(Get(data, "lon"));
    if lon.Raise? {
      return DatumErrorResponse(lon.error);
    }
    s.fields := s.fields.(tipe := Get(data, "tipe"));
    s.fields := s.fields.(npsn := Get(data, "npsn"));
    s.fields := s.fields.(nama := Get(data, "nama"));
    s.fields := s.fields.(alamat := GetOr(data, "alamat", JStr("")));
    var cell := Lookup(data, "kuota");
    if cell.Raise? {
      return DatumErrorResponse(cell.error);
    }
    var kuota := ToInt(cell.value);
    if kuota.Raise? {
      return DatumErrorResponse(kuota.error);
    }
    s.fields := s.fields.(kuota := kuota.value);
    s.fields := s.fields.(keterangan := GetOr(data, "keterangan", JStr("")));
    s.fields := s.fields.(lat := lat.value);
    s.fields := s.fields.(lon := lon.value);
    s.fields := s.fields.(point := (lon.value, lat.value));
    s.Save(db);
    response := AddedResponse(s.id.value, s.fileMetadataId);
  }
}
