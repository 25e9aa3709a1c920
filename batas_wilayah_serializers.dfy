/** `BatasWilayahDetailSerializer.to_representation`: the default
    representation of a region record, reshaped so that its geometry and
    properties sit inside a GeoJSON Feature under "geojson". */
module BatasWilayahSerializers {
  import opened Py

  /** The Feature object built from the popped geometry and properties. */
  function Feature(geometry: Json, properties: Json): (f: Json)
    ensures f.JDict? && f.entries.Keys == {"type", "geometry", "properties"}
    ensures f.entries["type"] == JStr("Feature")
    ensures f.entries["geometry"] == geometry && f.entries["properties"] == properties
  {
    JDict(map["type" := JStr("Feature"), "geometry" := geometry, "properties" := properties])
  }

  /** `representation.pop(key)`: the value and the dict without it, or
      `KeyError(key)`. */
  function Pop(d: map<string, Json>, key: string): (r: Result<(Json, map<string, Json>)>)
    ensures r.Ok? <==> key in d
    ensures r.Ok? ==> r.value.0 == d[key] && r.value.1 == d - {key}
    ensures r.Raise? ==> r.error == KeyError(key)
  {
    if key in d then Ok((d[key], d - {key})) else Raise(KeyError(key))
  }

  /** The reshaping. The base serializer always supplies both keys; without
      one of them the pop raises, "mpoly" being popped first. */
  method ToRepresentation(representation: map<string, Json>) returns (r: Result<map<string, Json>>)
    ensures "mpoly" !in representation ==> r == Raise(KeyError("mpoly"))
    ensures "mpoly" in representation && "properties" !in representation ==> r == Raise(KeyError("properties"))
    ensures r.Ok? <==> "mpoly" in representation && "properties" in representation
    ensures r.Ok? ==>
      && r.value.Keys == representation.Keys - {"mpoly", "properties"} + {"geojson"}
      && r.value["geojson"] == Feature(representation["mpoly"], representation["properties"])
      && forall k | k in representation && k !in {"mpoly", "properties", "geojson"} :: r.value[k] == representation[k]
  {
    var rep := representation;
    var geometry := Pop(rep, "mpoly");
    if geometry.Raise? {
      return Raise(geometry.error);
    }
    rep := geometry.value.1;
    var properties := Pop(rep, "properties");
    if properties.Raise? {
      return Raise(properties.error);
    }
    rep := properties.value.1;
    var geojson := Feature(geometry.value.0, properties.value.0);
    rep := rep["geojson" := geojson];
    return Ok(rep);
  }

  /** The representation as the base serializer gives it back, recovered
      from the reshaped one. */
  function Flatten(r: map<string, Json>): (d: map<string, Json>)
    requires "geojson" in r && r["geojson"].JDict?
    requires "geometry" in r["geojson"].entries && "properties" in r["geojson"].entries
  {
    (r - {"geojson"})["mpoly" := r["geojson"].entries["geometry"]]["properties" := r["geojson"].entries["properties"]]
  }

  /** Nothing is lost: a representation without its own "geojson" key is
      given back by flattening the reshaped one. */
  lemma FlattenUndoesReshaping(representation: map<string, Json>, r: map<string, Json>)
    requires "mpoly" in representation && "properties" in representation && "geojson" !in representation
    requires r.Keys == representation.Keys - {"mpoly", "properties"} + {"geojson"}
    requires r["geojson"] == Feature(representation["mpoly"], representation["properties"])
    requires forall k | k in representation && k !in {"mpoly", "properties", "geojson"} :: r[k] == representation[k]
    ensures Flatten(r) == representation
  {
  }
}
