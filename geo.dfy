/** Geometries as the ingestion loops see them: a geometry type tag and an
    opaque coordinate payload per part, the rows of a GeoDataFrame, and the
    bounding boxes stored on the metadata records. */
module Geo {
  import opened Py

  /** The coordinates of one single-part geometry; the model never looks inside. */
  type Payload = seq<real>

  datatype Geometry =
    | Point(point: Payload)
    | LineString(line: Payload)
    | Polygon(polygon: Payload)
    | MultiPoint(points: seq<Payload>)
    | MultiLineString(lines: seq<Payload>)
    | MultiPolygon(polygons: seq<Payload>)
    | GeometryCollection(members: seq<Geometry>)

  /** One row of a GeoDataFrame: its "geometry" cell, None for a feature
      with a null shape, and every other column
      (`row.drop("geometry").to_dict()`). */
  datatype Row = Row(geometry: Option<Geometry>, columns: map<string, Json>)

  /** Every row has a geometry. */
  predicate HaveGeometry(rows: seq<Row>)
  {
    forall j | 0 <= j < |rows| :: rows[j].geometry.Some?
  }

  /** The index of the first row without a geometry, or |rows|: the row
      whose `geom.geom_type` raises. */
  function FirstMissing(rows: seq<Row>): (k: nat)
    ensures k <= |rows|
    ensures k < |rows| ==> rows[k].geometry.None?
    ensures HaveGeometry(rows[..k])
  {
    if rows == [] || rows[0].geometry.None? then 0
    else
      var k := FirstMissing(rows[1..]);
      assert forall j | 1 <= j < k + 1 :: rows[j] == rows[1..][j - 1];
      k + 1
  }

  /** Some row has no geometry, so `geom_type` raises once a loop over
      the rows reaches it. */
  predicate Missing(rows: seq<Row>)
  {
    FirstMissing(rows) < |rows|
  }

  /** A row without a geometry after rows that all have one is the first. */
  lemma {:induction false} FirstMissingAt(rows: seq<Row>, i: nat)
    requires i <= |rows| && HaveGeometry(rows[..i])
    requires i < |rows| ==> rows[i].geometry.None?
    ensures FirstMissing(rows) == i
  {
    if i > 0 {
      assert rows[..i][0] == rows[0];
      assert rows[1..][..i - 1] == rows[..i][1..];
      FirstMissingAt(rows[1..], i - 1);
    }
  }

  /** What `None.geom_type` raises. */
  const NoGeometryError := AttributeError("'NoneType' object has no attribute 'geom_type'")

  /** `Polygon.from_bbox((xmin, ymin, xmax, ymax))` */
  datatype Bbox = Bbox(xmin: real, ymin: real, xmax: real, ymax: real)

  /** What `gpd.read_file` is handed: the uploaded file itself, or a path
      inside an extracted archive. */
  datatype Source = UploadedSource(fileName: string) | PathSource(path: string)

  /** What `gpd.read_file` (with reprojection to EPSG:4326) delivers: the
      rows and their `total_bounds`, or the exception it raised. */
  datatype ReadResult = ReadRaised(message: string) | Read(rows: seq<Row>, bounds: Bbox)
}
