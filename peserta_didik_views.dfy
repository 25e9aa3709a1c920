/** The student dataset views: a CSV upload that creates the metadata row
    and one `PesertaDidik` per CSV row, and the views that add one record
    to a dataset or edit one in place. */
module PesertaDidikViews {
  import opened Py
  import opened Forms
  import opened CsvDatasets

  /** A stored `tb_peserta_didik_metadata` row. */
  datatype Metadata = Metadata(id: nat, name: string, level: string, description: Option<string>, bbox: Json)

  /** The columns of a `tb_peserta_didik` row; `point` is (x, y) = (lon, lat). */
  datatype PesertaDidikFields = PesertaDidikFields(
    nisn: Json, nama: Json, jenisKelamin: Json, tanggalLahir: Json, alamat: Json,
    prioritas: int, keterangan: Json, lat: real, lon: real, point: (real, real))

  const RequiredFields: seq<string> := ["nisn", "nama", "jenis_kelamin", "tanggal_lahir", "lat", "lon"]
  const NotFoundMessage := "PesertaDidik not found."
  const AddedMessage := "Datum peserta_didik added successfully."

  class Database {
    var metadata: map<nat, Metadata>
    var records: map<nat, Datum<PesertaDidikFields>>
    /** The next AutoField id. */
    var nextId: nat

    constructor ()
      ensures metadata == map[] && records == map[] && nextId == 0
    {
      metadata := map[];
      records := map[];
      nextId := 0;
    }

    predicate Valid()
      reads this
    {
      ValidRecords(records, nextId)
    }
  }

  /** A `PesertaDidik` model instance. */
  class PesertaDidik {
    /** None until the first save gives it an id. */
    var id: Option<nat>
    const fileMetadataId: nat
    /** The instance's column attributes. */
    var fields: PesertaDidikFields

    /** `PesertaDidik(..., file_metadata=metadata)`, not yet saved. */
    constructor (metadataId: nat, f: PesertaDidikFields)
      ensures id == None && fileMetadataId == metadataId && fields == f
    {
      id := None;
      fileMetadataId := metadataId;
      fields := f;
    }

    /** `PesertaDidik.objects.get(...)`: a fresh instance of a stored record. */
    constructor Load(d: Datum<PesertaDidikFields>)
      ensures id == Some(d.id) && fileMetadataId == d.fileMetadataId && fields == d.fields
    {
      id := Some(d.id);
      fileMetadataId := d.fileMetadataId;
      fields := d.fields;
    }

    /** The model's `save`: lat and lon rounded to 6 places, then the row
        written, under a new id when the instance has none. */
    method Save(db: Database)
      modifies this, db
      ensures fields == old(fields).(lat := Round(old(fields.lat), 6), lon := Round(old(fields.lon), 6))
      ensures Rounded(old(fields)) ==> fields == old(fields)
      ensures old(id).Some? ==> id == old(id) && db.nextId == old(db.nextId)
      ensures old(id).None? ==> id == Some(old(db.nextId)) && db.nextId == old(db.nextId) + 1
      ensures id.Some?
      ensures db.records == old(db.records)[id.value := Datum(id.value, fileMetadataId, fields)]
      ensures db.metadata == old(db.metadata)
      ensures old(db.Valid()) && (old(id).Some? ==> old(id).value < old(db.nextId)) ==> db.Valid()
    {
      fields := fields.(lat := Round(fields.lat, 6), lon := Round(fields.lon, 6));
      if id.None? {
        id := Some(db.nextId);
        db.nextId := db.nextId + 1;
      }
      db.records := db.records[id.value := Datum(id.value, fileMetadataId, fields)];
    }
  }

  /** Coordinates that saving leaves as they are. */
  predicate Rounded(f: PesertaDidikFields)
  {
    Round(f.lat, 6) == f.lat && Round(f.lon, 6) == f.lon
  }

  /** One CSV row of an upload, converted in the order the view evaluates
      it: `row["lat"]`, `row["lon"]`, then `parse_date` and
      `int(row.get("prioritas", 0))`; the other columns are `row.get`. */
  function RowFields(row: map<string, Json>, parseDate: Json -> Result<Json>): (r: Result<PesertaDidikFields>)
    ensures r.Ok? ==> Rounded(r.value)
  {
    match Lookup(row, "lat")
    case Raise(e) => Raise(e)
    case Ok(latCell) =>
      match Coordinate(latCell)
      case Raise(e) => Raise(e)
      case Ok(lat) =>
        match Lookup(row, "lon")
        case Raise(e) => Raise(e)
        case Ok(lonCell) =>
          match Coordinate(lonCell)
          case Raise(e) => Raise(e)
          case Ok(lon) =>
            match parseDate(Get(row, "tanggal_lahir"))
            case Raise(e) => Raise(e)
            case Ok(date) =>
              match ToInt(GetOr(row, "prioritas", JInt(0)))
              case Raise(e) => Raise(e)
              case Ok(prioritas) =>
                Ok(PesertaDidikFields(Get(row, "nisn"), Get(row, "nama"), Get(row, "jenis_kelamin"), date,
                  Get(row, "alamat"), prioritas, Get(row, "keterangan"), lat, lon, (lon, lat)))
  }

  /** What converting an upload row gives: an exception unless lat and lon
      are present and numeric and the date and priority convert; otherwise
      the rounded coordinates, the point (lon, lat), priority 0 when the
      column is absent, and `row.get` of the other columns. */
  lemma RowConversion(row: map<string, Json>, parseDate: Json -> Result<Json>)
    ensures RowFields(row, parseDate).Ok? <==>
      && "lat" in row && ToFloat(row["lat"]).Ok? && "lon" in row && ToFloat(row["lon"]).Ok?
      && parseDate(Get(row, "tanggal_lahir")).Ok? && ToInt(GetOr(row, "prioritas", JInt(0))).Ok?
    ensures "lat" !in row ==> RowFields(row, parseDate) == Raise(KeyError("lat"))
    ensures "lat" in row && ToFloat(row["lat"]).Raise? ==> RowFields(row, parseDate) == Raise(ToFloat(row["lat"]).error)
    ensures RowFields(row, parseDate).Ok? ==>
      var f := RowFields(row, parseDate).value;
      && f.lat == Round(ToFloat(row["lat"]).value, 6) && f.lon == Round(ToFloat(row["lon"]).value, 6)
      && f.point == (f.lon, f.lat)
      && f.prioritas == ToInt(GetOr(row, "prioritas", JInt(0))).value
      && f.tanggalLahir == parseDate(Get(row, "tanggal_lahir")).value
      && f.nisn == Get(row, "nisn") && f.nama == Get(row, "nama") && f.jenisKelamin == Get(row, "jenis_kelamin")
      && f.alamat == Get(row, "alamat") && f.keterangan == Get(row, "keterangan")
  {
  }

  /** An upload row without a "prioritas" column gets priority 0. */
  lemma UploadPriorityDefaultsToZero(row: map<string, Json>, parseDate: Json -> Result<Json>)
    requires "prioritas" !in row && RowFields(row, parseDate).Ok?
    ensures RowFields(row, parseDate).value.prioritas == 0
  {
    RowConversion(row, parseDate);
  }

  /** The conversion the upload applies to each CSV row. */
  function RowConverter(parseDate: Json -> Result<Json>): map<string, Json> -> Result<PesertaDidikFields>
  {
    row => RowFields(row, parseDate)
  }

  /** `PesertaDidik(...).save()` of a new record with rounded coordinates. */
  method SaveNew(db: Database, metadataId: nat, f: PesertaDidikFields) returns (id: nat)
    requires db.Valid() && Rounded(f)
    modifies db
    ensures id == old(db.nextId) && db.nextId == id + 1
    ensures db.records == old(db.records)[id := Datum(id, metadataId, f)]
    ensures db.metadata == old(db.metadata)
    ensures db.Valid()
  {
    var p := new PesertaDidik(metadataId, f);
    p.Save(db);
    id := p.id.value;
  }

  /** The upload's `for row in csv_data` loop: it saves one record per row
      and stops at the first row that raises, with that row's exception. */
  method SaveRows(db: Database, metadataId: nat, rows: seq<map<string, Json>>,
                   convert: map<string, Json> -> Result<PesertaDidikFields>)
    returns (error: Option<Exception>)
    requires db.Valid()
    requires forall row :: convert(row).Ok? ==> Rounded(convert(row).value)
    modifies db
    ensures db.Valid()
    ensures var k := FirstFailure(rows, convert);
      && db.records == Appended(old(db.records), old(db.nextId), metadataId, Converted(rows[..k], convert))
      && db.nextId == old(db.nextId) + k
      && error == (if k < |rows| then Some(convert(rows[k]).error) else None)
    ensures db.metadata == old(db.metadata)
  {
    for i := 0 to |rows|
      invariant db.Valid()
      invariant forall j | 0 <= j < i :: convert(rows[j]).Ok?
      invariant db.records == Appended(old(db.records), old(db.nextId), metadataId, Converted(rows[..i], convert))
      invariant db.nextId == old(db.nextId) + i
      invariant db.metadata == old(db.metadata)
    {
      var f := convert(rows[i]);
      if f.Raise? {
        FirstFailureAt(rows, convert, i);
        return Some(f.error);
      }
      ghost var done := Converted(rows[..i], convert);
      var _ := SaveNew(db, metadataId, f.value);
      ConvertedSnoc(rows, convert, i);
      AppendedSnoc(old(db.records), old(db.nextId), metadataId, done, f.value);
    }
    assert rows[..|rows|] == rows;
    error := None;
  }

  /** `PesertaDidikUpload.post`. `newId` is the fresh uuid of the metadata
      row; `csv` is what `csv_to_dict` delivers, `bboxOf` and `parseDate`
      stand for `calculate_bbox_from_csv_points` and `parse_date`. */
  method Upload(db: Database, form: map<string, string>, files: map<string, UploadedFile>, newId: nat,
                csv: Result<seq<map<string, Json>>>, bboxOf: seq<map<string, Json>> -> Result<Json>,
                parseDate: Json -> Result<Json>)
    returns (response: Response)
    requires db.Valid() && newId !in db.metadata
    modifies db
    ensures db.Valid()
    ensures UploadRejection(form, files, false).Some? ==>
      response == UploadRejection(form, files, false).value && unchanged(db)
    ensures UploadRejection(form, files, false).None? ==>
      match csv
      case Raise(e) => response == ErrorResponse(StatusServerError, Str(e)) && unchanged(db)
      case Ok(rows) =>
        match bboxOf(rows)
        case Raise(e) => response == ErrorResponse(StatusServerError, Str(e)) && unchanged(db)
        case Ok(bbox) =>
          var k := FirstFailure(rows, RowConverter(parseDate));
          var description := if "description" in form then Some(form["description"]) else None;
          && db.metadata == old(db.metadata)[newId := Metadata(newId, form["name"], form["level"], description, bbox)]
          && db.records == Appended(old(db.records), old(db.nextId), newId, Converted(rows[..k], RowConverter(parseDate)))
          && response == (
            if k < |rows| then ErrorResponse(StatusServerError, Str(RowConverter(parseDate)(rows[k]).error))
            else Response(StatusCreated, map["message" := JStr(UploadedMessage), "metadata_id" := JInt(newId)]))
  {
    var rejection := UploadRejection(form, files, false);
    if rejection.Some? {
      return rejection.value;
    }
    if csv.Raise? {
      return ErrorResponse(StatusServerError, Str(csv.error));
    }
    var bbox := bboxOf(csv.value);
    if bbox.Raise? {
      return ErrorResponse(StatusServerError, Str(bbox.error));
    }
    var description := if "description" in form then Some(form["description"]) else None;
    db.metadata := db.metadata[newId := Metadata(newId, form["name"], form["level"], description, bbox.value)];
    var error := SaveRows(db, newId, csv.value, RowConverter(parseDate));
    if error.Some? {
      return ErrorResponse(StatusServerError, Str(error.value));
    }
    response := Response(StatusCreated, map["message" := JStr(UploadedMessage), "metadata_id" := JInt(newId)]);
  }

  /** The add and edit views' conversion of the request data, in the order
      they evaluate it: lat, lon, `parse_date`, then `int(data["prioritas"])`
      (a `KeyError` when absent); alamat and keterangan default to "". The
      other required fields are present once the missing-fields check has
      passed. */
  function DatumFields(data: map<string, Json>, parseDate: Json -> Result<Json>): (r: Result<PesertaDidikFields>)
    ensures r.Ok? ==> Rounded(r.value)
  {
    match Coordinate(Get(data, "lat"))
    case Raise(e) => Raise(e)
    case Ok(lat) =>
      match Coordinate(Get(data, "lon"))
      case Raise(e) => Raise(e)
      case Ok(lon) =>
        match parseDate(Get(data, "tanggal_lahir"))
        case Raise(e) => Raise(e)
        case Ok(date) =>
          match Lookup(data, "prioritas")
          case Raise(e) => Raise(e)
          case Ok(cell) =>
            match ToInt(cell)
            case Raise(e) => Raise(e)
            case Ok(prioritas) =>
              Ok(PesertaDidikFields(Get(data, "nisn"), Get(data, "nama"), Get(data, "jenis_kelamin"), date,
                GetOr(data, "alamat", JStr("")), prioritas, GetOr(data, "keterangan", JStr("")), lat, lon, (lon, lat)))
  }

  /** What converting the add and edit views' data gives. */
  lemma DatumConversion(data: map<string, Json>, parseDate: Json -> Result<Json>)
    ensures DatumFields(data, parseDate).Ok? <==>
      && Coordinate(Get(data, "lat")).Ok? && Coordinate(Get(data, "lon")).Ok?
      && parseDate(Get(data, "tanggal_lahir")).Ok? && "prioritas" in data && ToInt(data["prioritas"]).Ok?
    ensures (Coordinate(Get(data, "lat")).Ok? && Coordinate(Get(data, "lon")).Ok?
      && parseDate(Get(data, "tanggal_lahir")).Ok? && "prioritas" !in data) ==>
      DatumFields(data, parseDate) == Raise(KeyError("prioritas"))
    ensures DatumFields(data, parseDate).Ok? ==>
      var f := DatumFields(data, parseDate).value;
      && f.lat == Coordinate(Get(data, "lat")).value && f.lon == Coordinate(Get(data, "lon")).value
      && f.point == (f.lon, f.lat)
      && f.alamat == GetOr(data, "alamat", JStr("")) && f.keterangan == GetOr(data, "keterangan", JStr(""))
      && f.prioritas == ToInt(data["prioritas"]).value
      && f.tanggalLahir == parseDate(Get(data, "tanggal_lahir")).value
      && f.nisn == Get(data, "nisn") && f.nama == Get(data, "nama") && f.jenisKelamin == Get(data, "jenis_kelamin")
  {
  }

  /** On add and edit a missing priority is a 500 naming the key. */
  lemma MissingPriorityIsServerError(data: map<string, Json>, parseDate: Json -> Result<Json>)
    requires Coordinate(Get(data, "lat")).Ok? && Coordinate(Get(data, "lon")).Ok?
    requires parseDate(Get(data, "tanggal_lahir")).Ok? && "prioritas" !in data
    ensures DatumFields(data, parseDate).Raise?
    ensures DatumErrorResponse(DatumFields(data, parseDate).error) == ErrorResponse(StatusServerError, "'prioritas'")
  {
    DatumConversion(data, parseDate);
    var r := DatumFields(data, parseDate);
    assert r == Raise(KeyError("prioritas"));
    MissingKeyIsServerError("prioritas");
    assert "'" + "prioritas" + "'" == "'prioritas'";
  }

  /** A priority that is not an integer literal is a 400 "Invalid value". */
  lemma BadPriorityIsBadRequest(data: map<string, Json>, parseDate: Json -> Result<Json>)
    requires Coordinate(Get(data, "lat")).Ok? && Coordinate(Get(data, "lon")).Ok?
    requires parseDate(Get(data, "tanggal_lahir")).Ok?
    requires "prioritas" in data && data["prioritas"].JStr? && ParseInt(data["prioritas"].s).None?
    ensures DatumFields(data, parseDate).Raise?
    ensures DatumErrorResponse(DatumFields(data, parseDate).error).status == StatusBadRequest
  {
    DatumConversion(data, parseDate);
    assert ToInt(data["prioritas"]).Raise? && ToInt(data["prioritas"]).error.ValueError?;
  }

  /** The 201 body of the add and edit views. */
  function AddedResponse(recordId: nat, metadataId: nat): Response
  {
    Response(StatusCreated, map[
      "message" := JStr(AddedMessage), "peserta_didik_id" := JInt(recordId), "metadata_id" := JInt(metadataId)])
  }

  /** `PesertaDidikDatumAdd.post` */
  method Add(db: Database, metadataId: nat, data: map<string, Json>, parseDate: Json -> Result<Json>)
    returns (response: Response)
    requires db.Valid()
    modifies db
    ensures db.Valid()
    ensures metadataId !in old(db.metadata) ==>
      response == ErrorResponse(StatusNotFound, MetadataNotFound) && unchanged(db)
    ensures metadataId in old(db.metadata) && RejectMissing(data, RequiredFields).Some? ==>
      response == RejectMissing(data, RequiredFields).value && unchanged(db)
    ensures metadataId in old(db.metadata) && RejectMissing(data, RequiredFields).None? ==>
      match DatumFields(data, parseDate)
      case Raise(e) => response == DatumErrorResponse(e) && unchanged(db)
      case Ok(f) =>
        && db.records == old(db.records)[old(db.nextId) := Datum(old(db.nextId), metadataId, f)]
        && db.nextId == old(db.nextId) + 1 && db.metadata == old(db.metadata)
        && response == AddedResponse(old(db.nextId), metadataId)
  {
    if metadataId !in db.metadata {
      return ErrorResponse(StatusNotFound, MetadataNotFound);
    }
    var rejection := RejectMissing(data, RequiredFields);
    if rejection.Some? {
      return rejection.value;
    }
    var f := DatumFields(data, parseDate);
    if f.Raise? {
      return DatumErrorResponse(f.error);
    }
    var id := SaveNew(db, metadataId, f.value);
    response := AddedResponse(id, metadataId);
  }

  /** `PesertaDidikDatumEdit.put`: the record is loaded, its fields are
      assigned one by one, and it is saved only when every conversion
      succeeded. */
  method Edit(db: Database, metadataId: nat, recordId: nat, data: map<string, Json>, parseDate: Json -> Result<Json>)
    returns (response: Response)
    requires db.Valid()
    modifies db
    ensures db.Valid()
    ensures metadataId !in old(db.metadata) ==>
      response == ErrorResponse(StatusNotFound, MetadataNotFound) && unchanged(db)
    ensures (metadataId in old(db.metadata)
      && !(recordId in old(db.records) && old(db.records)[recordId].fileMetadataId == metadataId)) ==>
      response == ErrorResponse(StatusNotFound, NotFoundMessage) && unchanged(db)
    ensures (metadataId in old(db.metadata) && recordId in old(db.records)
      && old(db.records)[recordId].fileMetadataId == metadataId) ==>
      if RejectMissing(data, RequiredFields).Some? then
        response == RejectMissing(data, RequiredFields).value && unchanged(db)
      else
        match DatumFields(data, parseDate)
        case Raise(e) => response == DatumErrorResponse(e) && unchanged(db)
        case Ok(f) =>
          && db.records == old(db.records)[recordId := Datum(recordId, metadataId, f)]
          && db.nextId == old(db.nextId) && db.metadata == old(db.metadata)
          && response == AddedResponse(recordId, metadataId)
  {
    if metadataId !in db.metadata {
      return ErrorResponse(StatusNotFound, MetadataNotFound);
    }
    if !(recordId in db.records && db.records[recordId].fileMetadataId == metadataId) {
      return ErrorResponse(StatusNotFound, NotFoundMessage);
    }
    assert db.records[recordId].id == recordId < db.nextId;
    var p := new PesertaDidik.Load(db.records[recordId]);
    var rejection := RejectMissing(data, RequiredFields);
    if rejection.Some? {
      return rejection.value;
    }
    response := Update(db, p, data, parseDate);
  }

  /** The edit view's assignments to the loaded instance, in its order,
      then the save; the first conversion that raises ends the request
      with the instance unsaved. */
  method Update(db: Database, p: PesertaDidik, data: map<string, Json>, parseDate: Json -> Result<Json>)
    returns (response: Response)
    requires db.Valid() && p.id.Some? && p.id.value < db.nextId
    modifies db, p
    ensures db.Valid()
    ensures match DatumFields(data, parseDate)
      case Raise(e) => response == DatumErrorResponse(e) && unchanged(db)
      case Ok(f) =>
        && db.records == old(db.records)[old(p.id).value := Datum(old(p.id).value, p.fileMetadataId, f)]
        && db.nextId == old(db.nextId) && db.metadata == old(db.metadata)
        && response == AddedResponse(old(p.id).value, p.fileMetadataId)
  {
    var lat := Coordinate(Get(data, "lat"));
    if lat.Raise? {
      return DatumErrorResponse(lat.error);
    }
    var lon := Coordinate(Get(data, "lon"));
    if lon.Raise? {
      return DatumErrorResponse(lon.error);
    }
    p.fields := p.fields.(nisn := Get(data, "nisn"));
    p.fields := p.fields.(nama := Get(data, "nama"));
    p.fields := p.fields.(jenisKelamin := Get(data, "jenis_kelamin"));
    var date := parseDate(Get(data, "tanggal_lahir"));
    if date.Raise? {
      return DatumErrorResponse(date.error);
    }
    p.fields := p.fields.(tanggalLahir := date.value);
    p.fields := p.fields.(alamat := GetOr(data, "alamat", JStr("")));
    var cell := Lookup(data, "prioritas");
    if cell.Raise? {
      return DatumErrorResponse(cell.error);
    }
    var prioritas := ToInt(cell.value);
    if prioritas.Raise? {
      return DatumErrorResponse(prioritas.error);
    }
    p.fields := p.fields.(prioritas := prioritas.value);
    p.fields := p.fields.(keterangan := GetOr(data, "keterangan", JStr("")));
    p.fields := p.fields.(lat := lat.value);
    p.fields := p.fields.(lon := lon.value);
    p.fields := p.fields.(point := (lon.value, lat.value));
    p.Save(db);
    response := AddedResponse(p.id.value, p.fileMetadataId);
  }
}
