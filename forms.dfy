/** Request validation shared by the upload, add and edit views: the chains
    of `if not x: return 400` checks, and the `missing_fields` list with its
    error text. */
module Forms {
  import opened Py
  import opened Geo
  import opened GeodjangoUtils

  /** A multipart form field `request.data.get(field)` is present and non-empty. */
  predicate FormGiven(form: map<string, string>, field: string)
  {
    field in form && form[field] != ""
  }

  /** `request.data.get(field)` is present and truthy. */
  predicate Given(data: map<string, Json>, field: string)
  {
    Truthy(Get(data, field))
  }

  /** An uploaded file, as far as the handlers look at it: its name. */
  datatype UploadedFile = UploadedFile(name: string)

  /** `request.FILES.get("file")` is truthy (a Django File is truthy iff its name is). */
  predicate FileGiven(files: map<string, UploadedFile>)
  {
    "file" in files && files["file"].name != ""
  }

  const InvalidFormatMessage := "Invalid file format. Supported formats: .zip, .kml, .geojson"

  /** The checks a geospatial upload (roads, regions) runs before creating
      its metadata record: name, then file, then the file's format. */
  function GeoUploadRejection(form: map<string, string>, files: map<string, UploadedFile>): (r: Option<Response>)
    ensures r.None? <==>
      FormGiven(form, "name") && FileGiven(files) && IsValidGeospatialFile(Some(files["file"].name)).Some?
    ensures !FormGiven(form, "name") ==> r == Some(ErrorResponse(StatusBadRequest, "Name is required."))
    ensures FormGiven(form, "name") && !FileGiven(files) ==>
      r == Some(ErrorResponse(StatusBadRequest, "File is required."))
    ensures FormGiven(form, "name") && FileGiven(files) && IsValidGeospatialFile(Some(files["file"].name)).None? ==>
      r == Some(ErrorResponse(StatusBadRequest, InvalidFormatMessage))
  {
    if !FormGiven(form, "name") then Some(ErrorResponse(StatusBadRequest, "Name is required."))
    else if !FileGiven(files) then Some(ErrorResponse(StatusBadRequest, "File is required."))
    else if IsValidGeospatialFile(Some(files["file"].name)).None? then
      Some(ErrorResponse(StatusBadRequest, InvalidFormatMessage))
    else None
  }

  /** Where the view's `if file_format == "zip" / elif ...` chain sends
      `process_file`: a zip's `.shp` member, any other format the upload
      itself. */
  function SourceOf(format: string, file: UploadedFile, archive: ZipArchive): Result<Source>
  {
    if format != "zip" then Ok(UploadedSource(file.name))
    else match archive
      case NotZip => Raise(ValueError(NotZipMessage))
      case Extracted(tempDir, listing) =>
        match ShapefilePathOf(tempDir, listing)
        case Ok(path) => Ok(PathSource(path))
        case Raise(e) => Raise(e)
  }

  method ResolveSource(format: string, file: UploadedFile, archive: ZipArchive) returns (r: Result<Source>)
    requires format in {"zip", "kml", "geojson"}
    ensures r == SourceOf(format, file, archive)
    ensures r.Raise? ==> format == "zip" && r.error in {ValueError(NotZipMessage), FileNotFoundError(NoShapefileMessage)}
  {
    if format == "zip" {
      match archive
      case NotZip => r := Raise(ValueError(NotZipMessage));
      case Extracted(tempDir, listing) =>
        var path := FindShapefilePath(tempDir, listing);
        r := match path case Ok(p) => Ok(PathSource(p)) case Raise(e) => Raise(e);
    } else if format == "kml" {
      r := Ok(UploadedSource(file.name));
    } else {
      r := Ok(UploadedSource(file.name));
    }
  }

  /** `[field for field in required_fields if not data.get(field)]` */
  function MissingFields(data: map<string, Json>, required: seq<string>): (missing: seq<string>)
    ensures forall f :: f in missing <==> f in required && !Given(data, f)
    ensures IsSubsequence(missing, required)
  {
    if required == [] then []
    else
      var rest := MissingFields(data, required[1..]);
      if !Given(data, required[0]) then [required[0]] + rest else rest
  }

  /** a is b with some elements left out, in b's order. */
  predicate IsSubsequence<T(==)>(a: seq<T>, b: seq<T>)
  {
    if a == [] then true
    else if b == [] then false
    else if a[0] == b[0] then IsSubsequence(a[1..], b[1..])
    else IsSubsequence(a, b[1..])
  }

  /** `f"Missing fields: {', '.join(missing_fields)}"` */
  function MissingFieldsMessage(missing: seq<string>): string
  {
    "Missing fields: " + Join(", ", missing)
  }

  /** The 400 response of a non-empty `missing_fields`. */
  function RejectMissing(data: map<string, Json>, required: seq<string>): (r: Option<Response>)
    ensures r.None? <==> forall i | 0 <= i < |required| :: Given(data, required[i])
    ensures r.Some? ==> r.value == ErrorResponse(StatusBadRequest, MissingFieldsMessage(MissingFields(data, required)))
  {
    var missing := MissingFields(data, required);
    if missing != [] then
      assert missing[0] in missing;
      Some(ErrorResponse(StatusBadRequest, MissingFieldsMessage(missing)))
    else
      assert forall i | 0 <= i < |required| :: required[i] in required;
      None
  }

  /** With every required field given but one, the error names just that one. */
  lemma {:induction false} OnlyMissingField(data: map<string, Json>, required: seq<string>, k: nat)
    requires k < |required|
    requires !Given(data, required[k])
    requires forall i | 0 <= i < |required| && i != k :: Given(data, required[i])
    ensures MissingFields(data, required) == [required[k]]
  {
    if k > 0 {
      OnlyMissingField(data, required[1..], k - 1);
    } else {
      AllGiven(data, required[1..]);
    }
  }

  lemma {:induction false} AllGiven(data: map<string, Json>, required: seq<string>)
    requires forall i | 0 <= i < |required| :: Given(data, required[i])
    ensures MissingFields(data, required) == []
  {
    if required != [] {
      AllGiven(data, required[1..]);
    }
  }

  /** A field given the value 0 (or "" or false) is reported missing. */
  lemma FalsyCountsAsMissing(data: map<string, Json>, required: seq<string>, f: string)
    requires f in required && f in data && data[f] in {JInt(0), JFloat(0.0), JStr(""), JBool(false), JNull}
    ensures f in MissingFields(data, required)
  {
  }
}
