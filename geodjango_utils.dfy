/** The upload classification helpers: which geospatial format an uploaded
    file's name announces, and which member of an extracted shapefile
    archive is the `.shp` file to read. */
module GeodjangoUtils {
  import opened Py

  /** The formats an upload may have, keyed by lower-cased extension. */
  const ExtensionMapping: map<string, string> :=
    map[".zip" := "zip", ".kml" := "kml", ".geojson" := "geojson"]

  /** `s.rfind(c)` */
  function RFind(s: string, c: char): (r: int)
    ensures -1 <= r < |s|
    ensures r >= 0 ==> s[r] == c
    ensures forall k | r < k < |s| :: s[k] != c
  {
    if s == [] then -1
    else if s[|s| - 1] == c then |s| - 1
    else RFind(s[..|s| - 1], c)
  }

  /** Some character of p[from..to] is not a dot. */
  predicate HasNonDot(p: string, from: int, to: int)
    requires 0 <= from && to <= |p|
  {
    exists k | from <= k < to :: p[k] != '.'
  }

  /** `os.path.splitext(p)[1]` on POSIX: the text from the last dot of the
      last path component, unless the component has only dots before it. */
  function Extension(p: string): (ext: string)
    ensures ext == [] || (ext[0] == '.' && EndsWith(p, ext))
    ensures forall k | 0 < k < |ext| :: ext[k] != '.' && ext[k] != '/'
  {
    var sepIndex := RFind(p, '/');
    var dotIndex := RFind(p, '.');
    if dotIndex > sepIndex && HasNonDot(p, sepIndex + 1, dotIndex) then p[dotIndex..] else ""
  }

  /** `is_valid_geospatial_file(file)`, given the file's `name` attribute
      (None when the object has none). */
  function IsValidGeospatialFile(name: Option<string>): (format: Option<string>)
    ensures name.None? ==> format.None?
    ensures format.Some? ==> format.value in {"zip", "kml", "geojson"}
    ensures format.Some? <==> name.Some? && Lower(Extension(name.value)) in {".zip", ".kml", ".geojson"}
    ensures format.Some? ==> "." + format.value == Lower(Extension(name.value))
  {
    if name.None? then None
    else
      var ext := Lower(Extension(name.value));
      if ext in ExtensionMapping then Some(ExtensionMapping[ext]) else None
  }

  /** `os.path.join(a, b)` on POSIX. */
  function PathJoin(a: string, b: string): string
  {
    if b != [] && b[0] == '/' then b
    else if a == [] || a[|a| - 1] == '/' then a + b
    else a + "/" + b
  }

  /** The index of the first listed name ending in `.shp` (case-sensitive), or -1. */
  function FirstShapefile(listing: seq<string>): (k: int)
    ensures -1 <= k < |listing|
    ensures k >= 0 ==> EndsWith(listing[k], ".shp")
    ensures forall j | 0 <= j < |listing| && (k < 0 || j < k) :: !EndsWith(listing[j], ".shp")
  {
    if listing == [] then -1
    else if EndsWith(listing[0], ".shp") then 0
    else var k := FirstShapefile(listing[1..]); if k < 0 then -1 else k + 1
  }

  /** The outcome `find_shapefile_path` promises for a listing. */
  function ShapefilePathOf(tempDir: string, listing: seq<string>): Result<string>
  {
    var k := FirstShapefile(listing);
    if k < 0 then Raise(FileNotFoundError(NoShapefileMessage)) else Ok(PathJoin(tempDir, listing[k]))
  }

  const NoShapefileMessage := "No shapefile (.shp) found in the directory."

  /** `os.path.join(a, b)` ends in `b`; an absolute `b` replaces `a`, and
      otherwise the result starts with `a`. */
  lemma PathJoinParts(a: string, b: string)
    ensures EndsWith(PathJoin(a, b), b)
    ensures b != [] && b[0] == '/' ==> PathJoin(a, b) == b
    ensures !(b != [] && b[0] == '/') ==> |a| <= |PathJoin(a, b)| && PathJoin(a, b)[..|a|] == a
  {
  }

  /** A path is found iff some listed name ends in `.shp`, and then the
      path itself ends in `.shp`. */
  lemma ShapefilePathFound(tempDir: string, listing: seq<string>)
    ensures ShapefilePathOf(tempDir, listing).Ok? <==> exists i | 0 <= i < |listing| :: EndsWith(listing[i], ".shp")
    ensures ShapefilePathOf(tempDir, listing).Ok? ==> EndsWith(ShapefilePathOf(tempDir, listing).value, ".shp")
    ensures ShapefilePathOf(tempDir, listing).Raise? ==> ShapefilePathOf(tempDir, listing).error == FileNotFoundError(NoShapefileMessage)
  {
    var k := FirstShapefile(listing);
    if k >= 0 {
      PathJoinParts(tempDir, listing[k]);
    }
  }

  /** `find_shapefile_path(temp_dir)`, given `os.listdir(temp_dir)` in its
      listing order. */
  method FindShapefilePath(tempDir: string, listing: seq<string>) returns (r: Result<string>)
    ensures r.Ok? <==> exists i | 0 <= i < |listing| :: EndsWith(listing[i], ".shp")
    ensures r.Ok? ==> exists i | 0 <= i < |listing| ::
      && EndsWith(listing[i], ".shp")
      && (forall j | 0 <= j < i :: !EndsWith(listing[j], ".shp"))
      && r.value == PathJoin(tempDir, listing[i])
    ensures r.Raise? ==> r.error == FileNotFoundError(NoShapefileMessage)
    ensures r == ShapefilePathOf(tempDir, listing)
  {
    for i := 0 to |listing|
      invariant forall j | 0 <= j < i :: !EndsWith(listing[j], ".shp")
    {
      if EndsWith(listing[i], ".shp") {
        return Ok(PathJoin(tempDir, listing[i]));
      }
    }
    return Raise(FileNotFoundError(NoShapefileMessage));
  }

  /** What `extract_zip_to_temp` meets: a file `zipfile.is_zipfile` rejects,
      or an archive extracted into a fresh directory with the given listing. */
  datatype ZipArchive = NotZip | Extracted(tempDir: string, listing: seq<string>)

  const NotZipMessage := "The provided file is not a valid zip file."

  // ---------------------------------------------------------------------
  // Lower-casing the name does not change the format

  lemma {:induction false} RFindOfLower(p: string, c: char)
    requires c == '.' || c == '/'
    ensures RFind(Lower(p), c) == RFind(p, c)
  {
    if p != [] {
      assert Lower(p)[..|p| - 1] == Lower(p[..|p| - 1]);
      RFindOfLower(p[..|p| - 1], c);
    }
  }

  lemma ExtensionOfLower(p: string)
    ensures Extension(Lower(p)) == Lower(Extension(p))
  {
    RFindOfLower(p, '/');
    RFindOfLower(p, '.');
    var sepIndex, dotIndex := RFind(p, '/'), RFind(p, '.');
    if dotIndex > sepIndex {
      if HasNonDot(p, sepIndex + 1, dotIndex) {
        var k :| sepIndex + 1 <= k < dotIndex && p[k] != '.';
        assert Lower(p)[k] != '.';
        assert Lower(p)[dotIndex..] == Lower(p[dotIndex..]);
      } else {
        assert !HasNonDot(Lower(p), sepIndex + 1, dotIndex);
      }
    }
  }

  lemma LowerIsIdempotent(s: string)
    ensures Lower(Lower(s)) == Lower(s)
  {
  }

  /** The extension is compared lower-cased: a name and its lower-cased
      form announce the same format (`X.GeoJSON` is GeoJSON). */
  lemma FormatIgnoresCase(name: string)
    ensures IsValidGeospatialFile(Some(Lower(name))) == IsValidGeospatialFile(Some(name))
  {
    ExtensionOfLower(name);
    LowerIsIdempotent(Extension(name));
  }

  /** A name `stem + e` in a directory, with a dot-free stem and `e` a dot
      followed by no dot or slash, has extension `e`. */
  lemma ExtensionOfSuffix(dir: string, stem: string, e: string)
    requires dir == [] || dir[|dir| - 1] == '/'
    requires stem != [] && forall k | 0 <= k < |stem| :: stem[k] != '.' && stem[k] != '/'
    requires e != [] && e[0] == '.' && forall k | 1 <= k < |e| :: e[k] != '.' && e[k] != '/'
    ensures Extension(dir + stem + e) == e
  {
    var p := dir + stem + e;
    var d := |dir| + |stem|;
    assert forall k | |dir| <= k < d :: p[k] == stem[k - |dir|];
    assert forall k | d <= k < |p| :: p[k] == e[k - d];
    var dotIndex := RFind(p, '.');
    var sepIndex := RFind(p, '/');
    assert p[d] == '.';
    assert dotIndex == d;
    assert sepIndex < |dir|;
    assert p[|dir|] != '.';
    assert HasNonDot(p, sepIndex + 1, dotIndex);
    assert p[d..] == e;
  }

  /** A name ending in one of the three extensions, in any case, announces
      that format: "a.zip" is a zip upload, "dir/Roads.GeoJSON" GeoJSON. */
  lemma KnownExtensionIsRecognised(dir: string, stem: string, e: string)
    requires dir == [] || dir[|dir| - 1] == '/'
    requires stem != [] && forall k | 0 <= k < |stem| :: stem[k] != '.' && stem[k] != '/'
    requires Lower(e) in {".zip", ".kml", ".geojson"}
    ensures IsValidGeospatialFile(Some(dir + stem + e)) == Some(Lower(e)[1..])
  {
    assert |Lower(e)| == |e| && forall k | 0 <= k < |e| :: Lower(e)[k] == LowerChar(e[k]);
    assert forall k | 0 <= k < |e| :: (e[k] == '.' <==> Lower(e)[k] == '.') && (e[k] == '/' <==> Lower(e)[k] == '/');
    ExtensionOfSuffix(dir, stem, e);
  }

  /** A name whose last component has no dot after its leading dots has
      no format. */
  lemma NoExtensionNoFormat(name: string)
    requires forall k | RFind(name, '/') < k < |name| :: name[k] != '.'
    ensures IsValidGeospatialFile(Some(name)).None?
  {
  }
}
