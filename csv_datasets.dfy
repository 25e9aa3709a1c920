/** What the two point datasets uploaded as CSV (students, schools) share:
    the stored records keyed by their AutoField id, the coordinate
    conversion `round(float(v), 6)`, the request checks of their upload
    views, and how the add and edit views turn an exception into a
    response. */
module CsvDatasets {
  import opened Py
  import opened Forms

  /** A stored record: its id, the metadata row it belongs to, its columns. */
  datatype Datum<F> = Datum(id: nat, fileMetadataId: nat, fields: F)

  /** Every record sits under its own id, below the next id to be given out. */
  predicate ValidRecords<F>(records: map<nat, Datum<F>>, nextId: nat)
  {
    forall id | id in records :: records[id].id == id && id < nextId
  }

  /** The records after saving one new record per element of `fs`, with ids
      counting up from `firstId`. */
  function Appended<F>(records: map<nat, Datum<F>>, firstId: nat, metadataId: nat, fs: seq<F>): map<nat, Datum<F>>
  {
    if fs == [] then records
    else
      var last := firstId + |fs| - 1;
      Appended(records, firstId, metadataId, fs[..|fs| - 1])[last := Datum(last, metadataId, fs[|fs| - 1])]
  }

  /** The new ids hold the new records in order; every other id is untouched. */
  lemma {:induction false} AppendedContents<F>(records: map<nat, Datum<F>>, firstId: nat, metadataId: nat, fs: seq<F>)
    ensures var after := Appended(records, firstId, metadataId, fs);
      && (forall k :: k in after <==> k in records || firstId <= k < firstId + |fs|)
      && (forall k | firstId <= k < firstId + |fs| :: after[k] == Datum(k, metadataId, fs[k - firstId]))
      && (forall k | k in records && !(firstId <= k < firstId + |fs|) :: after[k] == records[k])
  {
    if fs != [] {
      var init := fs[..|fs| - 1];
      AppendedContents(records, firstId, metadataId, init);
      assert forall i | 0 <= i < |init| :: init[i] == fs[i];
    }
  }

  /** Saving the records of a whole upload keeps the store valid. */
  lemma AppendedIsValid<F>(records: map<nat, Datum<F>>, nextId: nat, metadataId: nat, fs: seq<F>)
    requires ValidRecords(records, nextId)
    ensures ValidRecords(Appended(records, nextId, metadataId, fs), nextId + |fs|)
  {
    AppendedContents(records, nextId, metadataId, fs);
  }

  /** One more saved record extends the appended ones. */
  lemma AppendedSnoc<F>(records: map<nat, Datum<F>>, firstId: nat, metadataId: nat, fs: seq<F>, f: F)
    ensures Appended(records, firstId, metadataId, fs + [f])
      == Appended(records, firstId, metadataId, fs)[firstId + |fs| := Datum(firstId + |fs|, metadataId, f)]
  {
    assert (fs + [f])[..|fs|] == fs;
  }

  /** The index of the first element `convert` raises on, or |rows|. */
  function FirstFailure<R, F>(rows: seq<R>, convert: R -> Result<F>): (k: nat)
    ensures k <= |rows|
    ensures k < |rows| ==> convert(rows[k]).Raise?
    ensures forall j | 0 <= j < k :: convert(rows[j]).Ok?
  {
    if rows == [] || convert(rows[0]).Raise? then 0
    else
      var k := FirstFailure(rows[1..], convert);
      assert forall j | 1 <= j < k + 1 :: rows[j] == rows[1..][j - 1];
      k + 1
  }

  /** A failure after only successes is the first failure. */
  lemma {:induction false} FirstFailureAt<R, F>(rows: seq<R>, convert: R -> Result<F>, i: nat)
    requires i < |rows| && convert(rows[i]).Raise?
    requires forall j | 0 <= j < i :: convert(rows[j]).Ok?
    ensures FirstFailure(rows, convert) == i
  {
    if i > 0 {
      assert rows[1..][i - 1] == rows[i];
      assert forall j | 0 <= j < i - 1 :: rows[1..][j] == rows[j + 1];
      FirstFailureAt(rows[1..], convert, i - 1);
    }
  }

  /** The converted elements of an all-good sequence. */
  function Converted<R, F>(rows: seq<R>, convert: R -> Result<F>): (fs: seq<F>)
    requires forall j | 0 <= j < |rows| :: convert(rows[j]).Ok?
    ensures |fs| == |rows|
    ensures forall j | 0 <= j < |rows| :: fs[j] == convert(rows[j]).value
  {
    seq(|rows|, j requires 0 <= j < |rows| => convert(rows[j]).value)
  }

  /** The converted prefix grows by one converted element. */
  lemma ConvertedSnoc<R, F>(rows: seq<R>, convert: R -> Result<F>, i: nat)
    requires i < |rows| && forall j | 0 <= j <= i :: convert(rows[j]).Ok?
    ensures Converted(rows[..i + 1], convert) == Converted(rows[..i], convert) + [convert(rows[i]).value]
  {
  }

  /** `round(float(v), 6)` */
  function Coordinate(v: Json): (r: Result<real>)
    ensures r.Ok? <==> ToFloat(v).Ok?
    ensures r.Ok? ==> r.value == Round(ToFloat(v).value, 6) && Round(r.value, 6) == r.value
    ensures r.Raise? ==> r.error == ToFloat(v).error
  {
    match ToFloat(v)
    case Ok(x) =>
      RoundIsIdempotent(x, 6);
      Ok(Round(x, 6))
    case Raise(e) => Raise(e)
  }

  /** `d[key]`: the value, or `KeyError(key)`. */
  function Lookup(d: map<string, Json>, key: string): (r: Result<Json>)
    ensures r.Ok? <==> key in d
    ensures r.Ok? ==> r.value == d[key]
    ensures r.Raise? ==> r.error == KeyError(key)
  {
    if key in d then Ok(d[key]) else Raise(KeyError(key))
  }

  /** `d.get(key, default)` */
  function GetOr(d: map<string, Json>, key: string, default: Json): Json
  {
    if key in d then d[key] else default
  }

  const NameRequired := "Name is required."
  const LevelRequired := "Level is required."
  const TypeRequired := "Type is required."
  const FileRequired := "File is required."
  const MetadataNotFound := "Metadata not found."
  const UploadedMessage := "File uploaded successfully"

  /** The checks of a CSV upload view, in order: name, level, then (schools
      only) type, then file. */
  function UploadRejection(form: map<string, string>, files: map<string, UploadedFile>, needsType: bool): (r: Option<Response>)
    ensures r.None? <==>
      FormGiven(form, "name") && FormGiven(form, "level") && (needsType ==> FormGiven(form, "type")) && FileGiven(files)
    ensures !FormGiven(form, "name") ==> r == Some(ErrorResponse(StatusBadRequest, NameRequired))
    ensures FormGiven(form, "name") && !FormGiven(form, "level") ==> r == Some(ErrorResponse(StatusBadRequest, LevelRequired))
    ensures FormGiven(form, "name") && FormGiven(form, "level") && needsType && !FormGiven(form, "type") ==>
      r == Some(ErrorResponse(StatusBadRequest, TypeRequired))
    ensures FormGiven(form, "name") && FormGiven(form, "level") && (needsType ==> FormGiven(form, "type")) && !FileGiven(files) ==>
      r == Some(ErrorResponse(StatusBadRequest, FileRequired))
  {
    if !FormGiven(form, "name") then Some(ErrorResponse(StatusBadRequest, NameRequired))
    else if !FormGiven(form, "level") then Some(ErrorResponse(StatusBadRequest, LevelRequired))
    else if needsType && !FormGiven(form, "type") then Some(ErrorResponse(StatusBadRequest, TypeRequired))
    else if !FileGiven(files) then Some(ErrorResponse(StatusBadRequest, FileRequired))
    else None
  }

  /** The add and edit views' `except ValueError` / `except Exception`. */
  function DatumErrorResponse(e: Exception): (r: Response)
    ensures r.status == StatusBadRequest <==> e.ValueError?
    ensures r.status in {StatusBadRequest, StatusServerError}
    ensures e.ValueError? ==> r == ErrorResponse(StatusBadRequest, "Invalid value: " + e.message)
    ensures !e.ValueError? ==> r == ErrorResponse(StatusServerError, Str(e))
  {
    if e.ValueError? then ErrorResponse(StatusBadRequest, "Invalid value: " + e.message)
    else ErrorResponse(StatusServerError, Str(e))
  }

  /** A `KeyError` is not a `ValueError`: a missing key is a server error
      whose text is the quoted key. */
  lemma MissingKeyIsServerError(key: string)
    ensures DatumErrorResponse(KeyError(key)) == ErrorResponse(StatusServerError, "'" + key + "'")
  {
  }
}
