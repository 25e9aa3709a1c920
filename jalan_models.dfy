/** The road dataset records: `JalanMetadata` (one uploaded road network,
    with its per-dataset road table and three status fields) and the rows of
    the road tables. The database keeps the metadata table and a journal of
    every write, so that the order of status saves and road inserts can be
    stated. */
module JalanModels {
  import opened Py
  import opened Geo

  /** `data_status`: UPLOADED | DEPLOYING | DEPLOYED | FAILED */
  datatype DataStatus = Uploaded | Deploying | Deployed | DeployFailed

  /** `geoserver_status`: DEPLOYED | FAILED */
  datatype GeoserverStatus = LayerDeployed | LayerFailed

  /** `topology_status`: CREATING | CREATED | FAILED */
  datatype TopologyStatus = Creating | Created | TopologyFailed

  function DataStatusName(s: DataStatus): string
  {
    match s
    case Uploaded => "UPLOADED"
    case Deploying => "DEPLOYING"
    case Deployed => "DEPLOYED"
    case DeployFailed => "FAILED"
  }

  /** The stored column values of one `tb_jalan_metadata` row. */
  datatype Snapshot = Snapshot(
    id: nat,
    name: string,
    roadTable: string,
    description: Option<string>,
    bbox: Option<Bbox>,
    dataStatus: Option<DataStatus>,
    geoserverStatus: Option<GeoserverStatus>,
    topologyStatus: Option<TopologyStatus>)

  /** One row inserted into a road table: the 2D line, the source row's
      other attributes, and the dataset it belongs to. */
  datatype Edge = Edge(mline: Payload, properties: map<string, Json>, fileMetadataId: nat)

  /** A road-table row after topology creation: its end nodes (NULL when
      the snapper left them unset) and the cost columns. */
  datatype CostedEdge = CostedEdge(source: Option<int>, target: Option<int>, cost: real, reverseCost: real)

  /** A write to the database, in the order it happens. */
  datatype Write =
    | MetadataSaved(row: Snapshot)
    | RoadTableCreated(table: string)
    | RoadInserted(table: string, edge: Edge)
    | CostsUpdated(table: string, edges: seq<CostedEdge>)

  class Database {
    /** `tb_jalan_metadata`, by id. */
    var metadata: map<nat, Snapshot>
    /** Every write so far, oldest first. */
    var writes: seq<Write>

    constructor ()
      ensures metadata == map[] && writes == []
    {
      metadata := map[];
      writes := [];
    }

    /** Every stored row sits under its own id and has its road table. */
    predicate Valid()
      reads this
    {
      forall id | id in metadata :: metadata[id].id == id && metadata[id].roadTable != ""
    }

    /** The `road_table` values in use. */
    function RoadTables(): set<string>
      reads this
    {
      set id | id in metadata :: metadata[id].roadTable
    }

    method Record(w: Write)
      modifies this
      ensures writes == old(writes) + [w] && metadata == old(metadata)
    {
      writes := writes + [w];
    }
  }

  // ---------------------------------------------------------------------
  // Road-table naming

  const RoadTablePrefix := "tb_jalan_x_"
  const RoadTableMaxLength := 50

  predicate IsLowercaseLetter(c: char)
  {
    'a' <= c <= 'z'
  }

  /** One draw of `random.choices(string.ascii_lowercase, k=4)`, joined. */
  type Suffix = s: string | |s| == 4 && forall i | 0 <= i < |s| :: IsLowercaseLetter(s[i])
    witness "aaaa"

  /** The shape of every name `save` generates. */
  predicate IsGeneratedName(t: string)
  {
    |t| == |RoadTablePrefix| + 4 && t[..|RoadTablePrefix|] == RoadTablePrefix
    && forall i | |RoadTablePrefix| <= i < |t| :: IsLowercaseLetter(t[i])
  }

  /** The name the drawing loop settles on: the first drawn candidate not
      already used, or None when every supplied draw collides (the source
      would keep drawing). */
  function ChooseRoadTable(existing: set<string>, draws: seq<Suffix>): (t: Option<string>)
    ensures t.None? <==> forall k | 0 <= k < |draws| :: RoadTablePrefix + draws[k] in existing
    ensures t.Some? ==> exists k | 0 <= k < |draws| ::
      && t.value == RoadTablePrefix + draws[k]
      && forall j | 0 <= j < k :: RoadTablePrefix + draws[j] in existing
    ensures t.Some? ==> t.value !in existing && IsGeneratedName(t.value) && |t.value| <= RoadTableMaxLength
  {
    if draws == [] then None
    else if RoadTablePrefix + draws[0] !in existing then Some(RoadTablePrefix + draws[0])
    else
      var rest := ChooseRoadTable(existing, draws[1..]);
      assert forall k | 1 <= k < |draws| :: draws[k] == draws[1..][k - 1];
      rest
  }

  /** `f"{road_table}_vertices_pgr"`, the node table pgRouting builds. */
  function VerticesTable(roadTable: string): string
  {
    roadTable + "_vertices_pgr"
  }

  /** Distinct road tables have distinct vertex tables. */
  lemma VerticesTableInjective(a: string, b: string)
    requires VerticesTable(a) == VerticesTable(b)
    ensures a == b
  {
    assert a == VerticesTable(a)[..|a|];
    assert b == VerticesTable(b)[..|b|];
  }

  /** A vertex table is never itself a generated road-table name. */
  lemma VerticesTableIsNotARoadTable(t: string)
    ensures !IsGeneratedName(VerticesTable(t))
  {
    var v := VerticesTable(t);
    assert v[|v| - 4] == '_';
  }

  /** A generated name is determined by its draw. */
  lemma GeneratedNamesDifferByDraw(a: Suffix, b: Suffix)
    requires a != b
    ensures RoadTablePrefix + a != RoadTablePrefix + b
  {
    assert (RoadTablePrefix + a)[|RoadTablePrefix|..] == a;
    assert (RoadTablePrefix + b)[|RoadTablePrefix|..] == b;
  }

  // ---------------------------------------------------------------------
  // The model object

  class JalanMetadata {
    const id: nat
    var name: string
    var roadTable: string
    var description: Option<string>
    var bbox: Option<Bbox>
    var dataStatus: Option<DataStatus>
    var geoserverStatus: Option<GeoserverStatus>
    var topologyStatus: Option<TopologyStatus>

    /** The instance's field values as they would be stored. */
    function Snap(): Snapshot
      reads this
    {
      Snapshot(id, name, roadTable, description, bbox, dataStatus, geoserverStatus, topologyStatus)
    }

    /** `JalanMetadata(name=..., description=..., data_status=...)`: not yet
        saved, `road_table` empty. */
    constructor (id: nat, name: string, description: Option<string>, dataStatus: Option<DataStatus>)
      ensures Snap() == Snapshot(id, name, "", description, None, dataStatus, None, None)
    {
      this.id := id;
      this.name := name;
      this.roadTable := "";
      this.description := description;
      this.bbox := None;
      this.dataStatus := dataStatus;
      this.geoserverStatus := None;
      this.topologyStatus := None;
    }

    /** `JalanMetadata.objects.get(id=...)`: a fresh instance holding the stored row. */
    constructor Load(row: Snapshot)
      ensures Snap() == row
    {
      id := row.id;
      name := row.name;
      roadTable := row.roadTable;
      description := row.description;
      bbox := row.bbox;
      dataStatus := row.dataStatus;
      geoserverStatus := row.geoserverStatus;
      topologyStatus := row.topologyStatus;
    }

    /** `save()`: an empty `road_table` first gets a fresh generated name
        from the draws, then the row is written. With every draw colliding
        the source never leaves its loop; here nothing is written and
        `saved` is false. */
    method Save(db: Database, draws: seq<Suffix>) returns (saved: bool)
      modifies this, db
      ensures old(roadTable) != "" ==> saved && roadTable == old(roadTable)
      ensures old(roadTable) == "" ==>
        var chosen := ChooseRoadTable(old(db.RoadTables()), draws);
        saved == chosen.Some? && (saved ==> roadTable == chosen.value)
      ensures !saved ==> roadTable == old(roadTable)
      ensures saved ==> roadTable != ""
      ensures Snap() == old(Snap()).(roadTable := roadTable)
      ensures old(db.Valid()) ==> db.Valid()
      ensures saved ==>
        db.metadata == old(db.metadata)[id := Snap()] && db.writes == old(db.writes) + [MetadataSaved(Snap())]
      ensures !saved ==> db.metadata == old(db.metadata) && db.writes == old(db.writes)
    {
      if roadTable == "" {
        ghost var existing := db.RoadTables();
        var chosen: Option<string> := None;
        var k := 0;
        while k < |draws| && chosen.None?
          invariant 0 <= k <= |draws|
          invariant chosen.Some? ==> ChooseRoadTable(existing, draws) == chosen
          invariant chosen.None? ==> ChooseRoadTable(existing, draws) == ChooseRoadTable(existing, draws[k..])
        {
          var tableName := RoadTablePrefix + draws[k];
          assert draws[k..][1..] == draws[k + 1..];
          if tableName !in db.RoadTables() {
            chosen := Some(tableName);
          }
          k := k + 1;
        }
        if chosen.None? {
          assert draws[k..] == [];
          return false;
        }
        roadTable := chosen.value;
      }
      db.metadata := db.metadata[id := Snap()];
      db.writes := db.writes + [MetadataSaved(Snap())];
      saved := true;
    }
  }

  /** `JalanMetadata.objects.create(...)`: construct, then save. */
  method CreateMetadata(db: Database, id: nat, name: string, description: Option<string>,
                        dataStatus: Option<DataStatus>, draws: seq<Suffix>)
    returns (m: JalanMetadata?)
    modifies db
    ensures old(db.Valid()) ==> db.Valid()
    ensures var chosen := ChooseRoadTable(old(db.RoadTables()), draws);
      if chosen.None? then m == null && db.metadata == old(db.metadata) && db.writes == old(db.writes)
      else
        var row := Snapshot(id, name, chosen.value, description, None, dataStatus, None, None);
        && m != null && fresh(m) && m.Snap() == row
        && db.metadata == old(db.metadata)[id := row]
        && db.writes == old(db.writes) + [MetadataSaved(row)]
  {
    m := new JalanMetadata(id, name, description, dataStatus);
    var saved := m.Save(db, draws);
    if !saved {
      m := null;
    }
  }
}
