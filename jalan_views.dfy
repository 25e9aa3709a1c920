/** The road-network views: upload and background ingestion into the
    dataset's own road table, topology generation with the edge-cost rule,
    and the route and isochrone queries' parameter handling and response
    shaping. The spatial SQL itself is a parameter of each handler. */
module JalanViews {
  import opened Py
  import opened Geo
  import opened GeodjangoUtils
  import opened Forms
  import opened JalanModels

  // =====================================================================
  // iterate_and_save: rows to road-table edges

  /** A geometry the ingestion keeps: a LineString or a MultiLineString. */
  predicate IsLinear(g: Geometry)
  {
    g.LineString? || g.MultiLineString?
  }

  /** The `geometries` list built for one row: the line itself, or the
      parts of a multi-line in order; other geometries are skipped. A row
      without a geometry has no lines, but the loop raises on it before
      looking for any (see `ReachedEdges`). */
  function RowLines(g: Option<Geometry>): (lines: seq<Payload>)
    ensures lines != [] ==> g.Some? && IsLinear(g.value)
    ensures g.Some? && g.value.LineString? ==> lines == [g.value.line]
    ensures g.Some? && g.value.MultiLineString? ==> lines == g.value.lines
  {
    match g
    case Some(LineString(line)) => [line]
    case Some(MultiLineString(lines)) => lines
    case _ => []
  }

  /** The edges one row contributes: one per line, each with the row's
      other columns and the dataset id. */
  function RowEdges(row: Row, metadataId: nat): seq<Edge>
  {
    var lines := RowLines(row.geometry);
    seq(|lines|, k requires 0 <= k < |lines| => Edge(lines[k], row.columns, metadataId))
  }

  /** Every edge the ingestion of `rows` inserts, in insertion order. */
  function IngestEdges(rows: seq<Row>, metadataId: nat): (edges: seq<Edge>)
    ensures forall k | 0 <= k < |edges| :: edges[k].fileMetadataId == metadataId
  {
    if rows == [] then []
    else IngestEdges(rows[..|rows| - 1], metadataId) + RowEdges(rows[|rows| - 1], metadataId)
  }

  lemma {:induction false} IngestEdgesAppend(a: seq<Row>, b: seq<Row>, metadataId: nat)
    ensures IngestEdges(a + b, metadataId) == IngestEdges(a, metadataId) + IngestEdges(b, metadataId)
  {
    if b != [] {
      var c := a + b;
      assert c[..|c| - 1] == a + b[..|b| - 1];
      IngestEdgesAppend(a, b[..|b| - 1], metadataId);
    } else {
      assert a + b == a;
    }
  }

  /** A row yields exactly its own edges, whatever precedes or follows it. */
  lemma IngestEdgesOfOneRow(row: Row, metadataId: nat)
    ensures IngestEdges([row], metadataId) == RowEdges(row, metadataId)
  {
    assert [row][..0] == [];
  }

  /** A LineString row yields one edge, that line. */
  lemma LineStringRowYieldsOneEdge(rows: seq<Row>, i: nat, metadataId: nat)
    requires i < |rows| && rows[i].geometry.Some? && rows[i].geometry.value.LineString?
    ensures IngestEdges(rows, metadataId) ==
      IngestEdges(rows[..i], metadataId)
      + [Edge(rows[i].geometry.value.line, rows[i].columns, metadataId)]
      + IngestEdges(rows[i + 1..], metadataId)
  {
    SplitAround(rows, i, metadataId);
  }

  /** A MultiLineString row yields one edge per part, in part order. */
  lemma MultiLineStringRowYieldsEachPart(rows: seq<Row>, i: nat, metadataId: nat)
    requires i < |rows| && rows[i].geometry.Some? && rows[i].geometry.value.MultiLineString?
    ensures var before := |IngestEdges(rows[..i], metadataId)|;
      var lines := rows[i].geometry.value.lines;
      before + |lines| <= |IngestEdges(rows, metadataId)|
      && IngestEdges(rows, metadataId)[before..before + |lines|]
         == seq(|lines|, k requires 0 <= k < |lines| => Edge(lines[k], rows[i].columns, metadataId))
  {
    SplitAround(rows, i, metadataId);
    var front := IngestEdges(rows[..i], metadataId);
    var mine := RowEdges(rows[i], metadataId);
    var all := IngestEdges(rows, metadataId);
    assert all == front + mine + IngestEdges(rows[i + 1..], metadataId);
    assert all[|front|..|front| + |mine|] == mine;
  }

  /** A row of any other geometry type is skipped: removing it changes nothing. */
  lemma NonLinearRowIsSkipped(rows: seq<Row>, i: nat, metadataId: nat)
    requires i < |rows| && rows[i].geometry.Some? && !IsLinear(rows[i].geometry.value)
    ensures IngestEdges(rows, metadataId) == IngestEdges(rows[..i] + rows[i + 1..], metadataId)
  {
    SplitAround(rows, i, metadataId);
    IngestEdgesAppend(rows[..i], rows[i + 1..], metadataId);
  }



  lemma SplitAround(rows: seq<Row>, i: nat, metadataId: nat)
    requires i < |rows|
    ensures IngestEdges(rows, metadataId) ==
      IngestEdges(rows[..i], metadataId) + RowEdges(rows[i], metadataId) + IngestEdges(rows[i + 1..], metadataId)
  {
    assert rows == rows[..i] + [rows[i]] + rows[i + 1..];
    IngestEdgesAppend(rows[..i] + [rows[i]], rows[i + 1..], metadataId);
    IngestEdgesAppend(rows[..i], [rows[i]], metadataId);
    IngestEdgesOfOneRow(rows[i], metadataId);
  }

  /** Every inserted edge is a line of some linear row, and carries that
      row's other columns and the dataset id. */
  lemma {:induction false} IngestEdgeOrigin(rows: seq<Row>, metadataId: nat, k: nat)
    requires k < |IngestEdges(rows, metadataId)|
    ensures var e := IngestEdges(rows, metadataId)[k];
      e.fileMetadataId == metadataId
      && exists i | 0 <= i < |rows| ::
           rows[i].geometry.Some? && IsLinear(rows[i].geometry.value)
           && e.properties == rows[i].columns && e.mline in RowLines(rows[i].geometry)
  {
    var front := IngestEdges(rows[..|rows| - 1], metadataId);
    if k < |front| {
      IngestEdgeOrigin(rows[..|rows| - 1], metadataId, k);
      var i :| 0 <= i < |rows| - 1 && rows[..|rows| - 1][i].geometry.Some? && IsLinear(rows[..|rows| - 1][i].geometry.value)
        && front[k].properties == rows[..|rows| - 1][i].columns
        && front[k].mline in RowLines(rows[..|rows| - 1][i].geometry);
      assert rows[..|rows| - 1][i] == rows[i];
    } else {
      var last := rows[|rows| - 1];
      assert RowEdges(last, metadataId)[k - |front|].mline == RowLines(last.geometry)[k - |front|];
    }
  }

  /** The journal entries of inserting `edges` into `table`. */
  function Inserts(table: string, edges: seq<Edge>): seq<Write>
  {
    seq(|edges|, k requires 0 <= k < |edges| => RoadInserted(table, edges[k]))
  }

  lemma InsertsAppend(table: string, a: seq<Edge>, b: seq<Edge>)
    ensures Inserts(table, a + b) == Inserts(table, a) + Inserts(table, b)
  {
  }

  // ---------------------------------------------------------------------
  // The specification of iterate_and_save

  /** What `create_geoserver_layer` does: report `{"success": ...}`, or raise. */
  datatype LayerResult = LayerReported(success: bool) | LayerRaised(message: string)

  /** The insert with index `failAt` (counting from 0 over all edges)
      raises; None when every insert succeeds. */
  predicate InsertFails(edges: seq<Edge>, failAt: Option<nat>)
  {
    failAt.Some? && failAt.value < |edges|
  }

  /** The edges of the rows the loop reaches: those before the first row
      without a geometry. */
  function ReachedEdges(rows: seq<Row>, metadataId: nat): seq<Edge>
  {
    IngestEdges(rows[..FirstMissing(rows)], metadataId)
  }

  /** The `try` of `iterate_and_save` leaves the loop by an exception: an
      insert raised, or a row without a geometry was reached. */
  predicate LoopRaises(edges: seq<Edge>, failAt: Option<nat>, missing: bool)
  {
    InsertFails(edges, failAt) || missing
  }

  /** The edges inserted before the failing insert, or all of them. */
  function Inserted(edges: seq<Edge>, failAt: Option<nat>): (done: seq<Edge>)
    ensures |done| <= |edges| && done == edges[..|done|]
    ensures |done| == |edges| <==> !InsertFails(edges, failAt)
  {
    if InsertFails(edges, failAt) then edges[..failAt.value] else edges
  }

  /** The writes `iterate_and_save` makes, from the metadata row `s0` it
      starts with; `edges` are those of the rows reached, `missing` whether
      the loop then meets a row without a geometry. */
  function IngestWrites(s0: Snapshot, table: string, edges: seq<Edge>, failAt: Option<nat>, missing: bool,
                        layer: LayerResult): seq<Write>
  {
    var deploying := s0.(dataStatus := Some(Deploying));
    [MetadataSaved(deploying)] + Inserts(table, Inserted(edges, failAt)) +
    if LoopRaises(edges, failAt, missing) then [MetadataSaved(deploying.(dataStatus := Some(DeployFailed)))]
    else IngestTail(deploying.(dataStatus := Some(Deployed)), layer)
  }

  /** The saves after the last insert: DEPLOYED, then the layer outcome. */
  function IngestTail(deployed: Snapshot, layer: LayerResult): seq<Write>
  {
    [MetadataSaved(deployed)] +
    match layer
    case LayerRaised(_) => [MetadataSaved(deployed.(dataStatus := Some(DeployFailed)))]
    case LayerReported(success) =>
      [MetadataSaved(deployed.(geoserverStatus := Some(if success then LayerDeployed else LayerFailed)))]
  }

  /** The row as `iterate_and_save` leaves it. */
  function IngestFinal(s0: Snapshot, edges: seq<Edge>, failAt: Option<nat>, missing: bool, layer: LayerResult): Snapshot
  {
    var deploying := s0.(dataStatus := Some(Deploying));
    if LoopRaises(edges, failAt, missing) then deploying.(dataStatus := Some(DeployFailed))
    else
      var deployed := deploying.(dataStatus := Some(Deployed));
      match layer
      case LayerRaised(_) => deployed.(dataStatus := Some(DeployFailed))
      case LayerReported(success) => deployed.(geoserverStatus := Some(if success then LayerDeployed else LayerFailed))
  }

  /** The `data_status` values of the metadata saves in a journal, in order. */
  function StatusTrace(ws: seq<Write>): seq<Option<DataStatus>>
  {
    if ws == [] then []
    else (if ws[0].MetadataSaved? then [ws[0].row.dataStatus] else []) + StatusTrace(ws[1..])
  }

  lemma {:induction false} StatusTraceAppend(a: seq<Write>, b: seq<Write>)
    ensures StatusTrace(a + b) == StatusTrace(a) + StatusTrace(b)
  {
    if a != [] {
      assert (a + b)[1..] == a[1..] + b;
      StatusTraceAppend(a[1..], b);
    } else {
      assert a + b == b;
    }
  }

  lemma {:induction false} StatusTraceOfInserts(table: string, edges: seq<Edge>)
    ensures StatusTrace(Inserts(table, edges)) == []
  {
    if edges != [] {
      assert Inserts(table, edges)[1..] == Inserts(table, edges[1..]);
      StatusTraceOfInserts(table, edges[1..]);
    }
  }

  /** `data_status` moves DEPLOYING → FAILED, DEPLOYING → DEPLOYED, or
      DEPLOYING → DEPLOYED → FAILED (layer creation raised after the
      inserts), and ends DEPLOYED only when every insert succeeded, every
      row had a geometry and the layer call returned. */
  lemma IngestStatusTrace(s0: Snapshot, table: string, edges: seq<Edge>, failAt: Option<nat>, missing: bool,
                          layer: LayerResult)
    ensures var trace := StatusTrace(IngestWrites(s0, table, edges, failAt, missing, layer));
      trace in {
        [Some(Deploying), Some(DeployFailed)],
        [Some(Deploying), Some(Deployed), Some(Deployed)],
        [Some(Deploying), Some(Deployed), Some(DeployFailed)]}
      && trace[|trace| - 1] == IngestFinal(s0, edges, failAt, missing, layer).dataStatus
      && (trace[|trace| - 1] == Some(Deployed) <==> !LoopRaises(edges, failAt, missing) && layer.LayerReported?)
  {
    var deploying := s0.(dataStatus := Some(Deploying));
    var ins := Inserts(table, Inserted(edges, failAt));
    var tail := if LoopRaises(edges, failAt, missing) then [MetadataSaved(deploying.(dataStatus := Some(DeployFailed)))]
      else IngestTail(deploying.(dataStatus := Some(Deployed)), layer);
    assert IngestWrites(s0, table, edges, failAt, missing, layer) == [MetadataSaved(deploying)] + ins + tail;
    StatusTraceAppend([MetadataSaved(deploying)] + ins, tail);
    StatusTraceAppend([MetadataSaved(deploying)], ins);
    StatusTraceOfInserts(table, Inserted(edges, failAt));
    TraceOfSaves([deploying]);
    var trace := StatusTrace(IngestWrites(s0, table, edges, failAt, missing, layer));
    assert trace == [Some(Deploying)] + StatusTrace(tail);
    if LoopRaises(edges, failAt, missing) {
      TraceOfSaves([deploying.(dataStatus := Some(DeployFailed))]);
      assert tail == Saves([deploying.(dataStatus := Some(DeployFailed))]);
      assert trace == [Some(Deploying), Some(DeployFailed)];
    } else {
      var deployed := deploying.(dataStatus := Some(Deployed));
      match layer {
        case LayerRaised(_) =>
          TraceOfSaves([deployed, deployed.(dataStatus := Some(DeployFailed))]);
          assert tail == Saves([deployed, deployed.(dataStatus := Some(DeployFailed))]);
          assert trace == [Some(Deploying), Some(Deployed), Some(DeployFailed)];
        case LayerReported(success) =>
          var last := deployed.(geoserverStatus := Some(if success then LayerDeployed else LayerFailed));
          TraceOfSaves([deployed, last]);
          assert tail == Saves([deployed, last]);
          assert trace == [Some(Deploying), Some(Deployed), Some(Deployed)];
      }
    }
  }

  function Saves(rows: seq<Snapshot>): seq<Write>
  {
    seq(|rows|, k requires 0 <= k < |rows| => MetadataSaved(rows[k]))
  }

  lemma {:induction false} TraceOfSaves(rows: seq<Snapshot>)
    ensures StatusTrace(Saves(rows)) == seq(|rows|, k requires 0 <= k < |rows| => rows[k].dataStatus)
  {
    if rows != [] {
      assert Saves(rows)[1..] == Saves(rows[1..]);
      TraceOfSaves(rows[1..]);
    }
  }

  /** DEPLOYING is saved before any edge is inserted, and the inserted edges
      are, in order, the first edges of the rows: all of them when no insert
      raised. */
  lemma DeployingBeforeInserts(s0: Snapshot, table: string, edges: seq<Edge>, failAt: Option<nat>, missing: bool,
                                layer: LayerResult)
    ensures var ws := IngestWrites(s0, table, edges, failAt, missing, layer);
      var done := Inserted(edges, failAt);
      && ws[0] == MetadataSaved(s0.(dataStatus := Some(Deploying)))
      && (forall k | 0 <= k < |ws| && ws[k].RoadInserted? :: 1 <= k <= |done| && ws[k] == RoadInserted(table, edges[k - 1]))
      && (forall k | 1 <= k <= |done| :: ws[k] == RoadInserted(table, edges[k - 1]))
      && (|done| == |edges| <==> !InsertFails(edges, failAt))
  {
  }

  /** `geoserver_status` is DEPLOYED exactly when the loop finished (every
      insert succeeded and every row had a geometry) and the layer call
      reported success, FAILED when it reported failure, and untouched
      otherwise. */
  lemma IngestGeoserverStatus(s0: Snapshot, edges: seq<Edge>, failAt: Option<nat>, missing: bool, layer: LayerResult)
    ensures var final := IngestFinal(s0, edges, failAt, missing, layer);
      var raised := LoopRaises(edges, failAt, missing);
      && (final.geoserverStatus == Some(LayerDeployed) <==>
            (!raised && layer == LayerReported(true))
            || (s0.geoserverStatus == Some(LayerDeployed) && (raised || layer.LayerRaised?)))
      && (!raised && layer.LayerReported? ==>
            final.geoserverStatus == Some(if layer.success then LayerDeployed else LayerFailed))
      && (raised || layer.LayerRaised? ==> final.geoserverStatus == s0.geoserverStatus)
      && final == s0.(dataStatus := final.dataStatus, geoserverStatus := final.geoserverStatus)
  {
  }

  /** A row without a geometry ends the ingestion FAILED even when no
      insert raised: the edges of the rows before it are inserted, then
      FAILED is saved, and the layer is never created. */
  lemma MissingGeometryFails(s0: Snapshot, table: string, rows: seq<Row>, metadataId: nat, failAt: Option<nat>,
                             layer: LayerResult)
    requires Missing(rows)
    ensures IngestFinal(s0, ReachedEdges(rows, metadataId), failAt, Missing(rows), layer)
      == s0.(dataStatus := Some(DeployFailed))
    ensures !InsertFails(ReachedEdges(rows, metadataId), failAt) ==>
      IngestWrites(s0, table, ReachedEdges(rows, metadataId), failAt, Missing(rows), layer)
      == [MetadataSaved(s0.(dataStatus := Some(Deploying)))]
         + Inserts(table, IngestEdges(rows[..FirstMissing(rows)], metadataId))
         + [MetadataSaved(s0.(dataStatus := Some(DeployFailed)))]
  {
  }

  // ---------------------------------------------------------------------
  // The loop

  /** `iterate_and_save(gdf, table_name, metadata)`, run to completion.
      `failAt` names the insert that raises, if any; `layer` what the layer
      call does. Every exception inside the `try` (an insert, or a row
      without a geometry) sets FAILED. */
  method IterateAndSave(db: Database, table: string, metadata: JalanMetadata, rows: seq<Row>,
                        failAt: Option<nat>, layer: LayerResult)
    requires metadata.roadTable != ""
    modifies db, metadata
    ensures db.writes == old(db.writes) +
      IngestWrites(old(metadata.Snap()), table, ReachedEdges(rows, metadata.id), failAt, Missing(rows), layer)
    ensures metadata.Snap() == IngestFinal(old(metadata.Snap()), ReachedEdges(rows, metadata.id), failAt, Missing(rows), layer)
    ensures db.metadata == old(db.metadata)[metadata.id := metadata.Snap()]
  {
    ghost var s0, w0 := metadata.Snap(), db.writes;
    ghost var edges := ReachedEdges(rows, metadata.id);
    ghost var deploying := s0.(dataStatus := Some(Deploying));
    metadata.dataStatus := Some(Deploying);
    var _ := metadata.Save(db, []);

    var raised := InsertAllRows(db, table, rows, metadata.id, failAt);
    ghost var ins := Inserts(table, Inserted(edges, failAt));

    if raised {
      metadata.dataStatus := Some(DeployFailed);
      var _ := metadata.Save(db, []);
      Reassociate(w0, [MetadataSaved(deploying)], ins, [MetadataSaved(metadata.Snap())]);
      return;
    }

    FinishDeploy(db, metadata, layer);
    Reassociate(w0, [MetadataSaved(deploying)], ins, IngestTail(deploying.(dataStatus := Some(Deployed)), layer));
  }

  lemma InsertsExtend(w: seq<Write>, table: string, a: seq<Edge>, b: seq<Edge>)
    ensures w + Inserts(table, a) + Inserts(table, b) == w + Inserts(table, a + b)
  {
    InsertsAppend(table, a, b);
  }

  lemma Associate<T>(a: seq<T>, b: seq<T>, c: seq<T>)
    ensures a + b + c == a + (b + c)
  {
  }

  lemma Reassociate<T>(a: seq<T>, b: seq<T>, c: seq<T>, d: seq<T>)
    ensures a + b + c + d == a + (b + c + d)
  {
  }

  /** The end of the `try` after the last insert: save DEPLOYED, then the
      layer outcome (FAILED again when the layer call raises). */
  method FinishDeploy(db: Database, metadata: JalanMetadata, layer: LayerResult)
    requires metadata.roadTable != ""
    modifies db, metadata
    ensures var deployed := old(metadata.Snap()).(dataStatus := Some(Deployed));
      && db.writes == old(db.writes) + IngestTail(deployed, layer)
      && metadata.Snap() == IngestTail(deployed, layer)[1].row
      && db.metadata == old(db.metadata)[metadata.id := metadata.Snap()]
  {
    ghost var deployed := metadata.Snap().(dataStatus := Some(Deployed));
    metadata.dataStatus := Some(Deployed);
    var _ := metadata.Save(db, []);
    match layer {
      case LayerRaised(_) =>
        metadata.dataStatus := Some(DeployFailed);
        var _ := metadata.Save(db, []);
      case LayerReported(success) =>
        metadata.geoserverStatus := Some(if success then LayerDeployed else LayerFailed);
        var _ := metadata.Save(db, []);
    }
  }

  /** The `for _, row in gdf.iterrows()` loop of `iterate_and_save`: split
      each row's geometry and insert its edges, skipping non-linear rows,
      until an insert raises or a row has no geometry. */
  method InsertAllRows(db: Database, table: string, rows: seq<Row>, metadataId: nat, failAt: Option<nat>)
    returns (raised: bool)
    modifies db
    ensures raised == LoopRaises(ReachedEdges(rows, metadataId), failAt, Missing(rows))
    ensures db.writes == old(db.writes) + Inserts(table, Inserted(ReachedEdges(rows, metadataId), failAt))
    ensures db.metadata == old(db.metadata)
  {
    ghost var w1 := db.writes;
    ghost var edges := ReachedEdges(rows, metadataId);
    ghost var done: seq<Edge> := [];
    raised := false;
    var count := 0;
    var i := 0;
    while i < |rows| && !raised
      invariant 0 <= i <= |rows| && i <= FirstMissing(rows)
      invariant db.metadata == old(db.metadata)
      invariant db.writes == w1 + Inserts(table, done) && count == |done|
      invariant !raised ==> done == IngestEdges(rows[..i], metadataId) && (failAt.None? || failAt.value >= count)
      invariant raised ==> LoopRaises(edges, failAt, Missing(rows)) && done == Inserted(edges, failAt)
      decreases if raised then 0 else 1, |rows| - i
    {
      ReachedFrom(rows, i);
      if rows[i].geometry.None? {
        // `geo_row.geom_type` raises AttributeError
        ReachedStop(rows, i, metadataId, failAt);
        raised := true;
        break;
      }
      IngestStep(rows, i, metadataId);
      ghost var before := done;
      ghost var count0 := count;
      count, raised := InsertRow(db, table, rows[i], metadataId, failAt, count);
      ghost var part := RowEdges(rows[i], metadataId)[..count - count0];
      InsertsExtend(w1, table, before, part);
      done := before + part;
      if raised {
        ReachedRaise(rows, i, metadataId, failAt);
      } else {
        assert part == RowEdges(rows[i], metadataId);
        i := i + 1;
      }
    }
    if !raised {
      ReachedStop(rows, i, metadataId, failAt);
    }
  }

  /** The outer loop stopping at row `i` without a failed insert, at the
      end of the rows or at a row without a geometry, has inserted all the
      reached edges. */
  lemma ReachedStop(rows: seq<Row>, i: nat, metadataId: nat, failAt: Option<nat>)
    requires i <= |rows| && i <= FirstMissing(rows)
    requires i == |rows| || rows[i].geometry.None?
    requires failAt.None? || failAt.value >= |IngestEdges(rows[..i], metadataId)|
    ensures Missing(rows) <==> i < |rows|
    ensures ReachedEdges(rows, metadataId) == IngestEdges(rows[..i], metadataId)
    ensures !InsertFails(ReachedEdges(rows, metadataId), failAt)
  {
    if i < |rows| {
      ReachedFrom(rows, i);
    }
  }

  /** An insert failing inside a reached row `i` stops the ingestion there. */
  lemma ReachedRaise(rows: seq<Row>, i: nat, metadataId: nat, failAt: Option<nat>)
    requires i < FirstMissing(rows) && failAt.Some?
    requires var b := |IngestEdges(rows[..i], metadataId)|;
      b <= failAt.value < b + |RowEdges(rows[i], metadataId)|
    ensures LoopRaises(ReachedEdges(rows, metadataId), failAt, Missing(rows))
    ensures Inserted(ReachedEdges(rows, metadataId), failAt)
      == IngestEdges(rows[..i], metadataId) + RowEdges(rows[i], metadataId)[..failAt.value - |IngestEdges(rows[..i], metadataId)|]
  {
    var reached := rows[..FirstMissing(rows)];
    assert reached[..i] == rows[..i] && reached[i] == rows[i];
    IngestRaise(reached, i, metadataId, failAt);
  }

  /** The loop reaches row `i` when no earlier row lacks a geometry; row
      `i` is the first without one exactly when it has none. */
  lemma ReachedFrom(rows: seq<Row>, i: nat)
    requires i < |rows| && i <= FirstMissing(rows)
    ensures rows[i].geometry.None? <==> FirstMissing(rows) == i
  {
    if i < FirstMissing(rows) {
      assert rows[..FirstMissing(rows)][i] == rows[i];
    }
  }

  /** The loop body for a row with a geometry: build its `geometries` list
      (nothing for a non-linear row) and insert them. */
  method InsertRow(db: Database, table: string, row: Row, metadataId: nat, failAt: Option<nat>, count0: nat)
    returns (count: nat, raised: bool)
    requires row.geometry.Some?
    requires failAt.None? || failAt.value >= count0
    modifies db
    ensures var mine := RowEdges(row, metadataId);
      var n := if failAt.Some? && failAt.value - count0 < |mine| then failAt.value - count0 else |mine|;
      && raised == (n < |mine|)
      && count == count0 + n
      && db.writes == old(db.writes) + Inserts(table, mine[..n])
    ensures !raised ==> failAt.None? || failAt.value >= count
    ensures db.metadata == old(db.metadata)
  {
    var geometries: seq<Payload>;
    var geoRow := row.geometry.value;
    if geoRow.LineString? {
      geometries := [geoRow.line];
    } else if geoRow.MultiLineString? {
      geometries := geoRow.lines;
    } else {
      return count0, false;
    }
    count, raised := InsertRowEdges(db, table, row, geometries, metadataId, failAt, count0);
  }

  lemma IngestStep(rows: seq<Row>, i: nat, metadataId: nat)
    requires i < |rows|
    ensures IngestEdges(rows[..i + 1], metadataId) == IngestEdges(rows[..i], metadataId) + RowEdges(rows[i], metadataId)
  {
    assert rows[..i + 1][..i] == rows[..i];
  }

  /** An insert failing inside row i stops the ingestion at that edge. */
  lemma IngestRaise(rows: seq<Row>, i: nat, metadataId: nat, failAt: Option<nat>)
    requires i < |rows| && failAt.Some?
    requires var b := |IngestEdges(rows[..i], metadataId)|;
      b <= failAt.value < b + |RowEdges(rows[i], metadataId)|
    ensures InsertFails(IngestEdges(rows, metadataId), failAt)
    ensures Inserted(IngestEdges(rows, metadataId), failAt)
      == IngestEdges(rows[..i], metadataId) + RowEdges(rows[i], metadataId)[..failAt.value - |IngestEdges(rows[..i], metadataId)|]
  {
    IngestStep(rows, i, metadataId);
    IngestPrefix(rows, i + 1, metadataId);
    var front := IngestEdges(rows[..i], metadataId);
    var mine := RowEdges(rows[i], metadataId);
    var all := IngestEdges(rows, metadataId);
    var n := failAt.value;
    assert all[..n] == (front + mine)[..n];
    assert (front + mine)[..n] == front + mine[..n - |front|];
  }

  /** The inner `for geom in geometries` loop for one row: insert each line
      with the row's other columns, until the insert with index `failAt`
      raises. `count` is the number of edges inserted so far. */
  method InsertRowEdges(db: Database, table: string, row: Row, geometries: seq<Payload>, metadataId: nat,
                        failAt: Option<nat>, count0: nat)
    returns (count: nat, raised: bool)
    requires geometries == RowLines(row.geometry)
    requires failAt.None? || failAt.value >= count0
    modifies db
    ensures var mine := RowEdges(row, metadataId);
      var n := if failAt.Some? && failAt.value - count0 < |mine| then failAt.value - count0 else |mine|;
      && raised == (n < |mine|)
      && count == count0 + n
      && db.writes == old(db.writes) + Inserts(table, mine[..n])
    ensures !raised ==> failAt.None? || failAt.value >= count
    ensures db.metadata == old(db.metadata)
  {
    ghost var mine := RowEdges(row, metadataId);
    count, raised := count0, false;
    var j := 0;
    while j < |geometries| && !raised
      invariant 0 <= j <= |geometries| && count == count0 + j
      decreases if raised then 0 else 1, |geometries| - j
      invariant db.writes == old(db.writes) + Inserts(table, mine[..j]) && db.metadata == old(db.metadata)
      invariant !raised ==> failAt.None? || failAt.value >= count
      invariant raised ==> failAt == Some(count) && j < |geometries|
    {
      if failAt == Some(count) {
        raised := true;
      } else {
        var properties := row.columns;
        db.Record(RoadInserted(table, Edge(geometries[j], properties, metadataId)));
        assert mine[..j + 1] == mine[..j] + [mine[j]];
        InsertsAppend(table, mine[..j], [mine[j]]);
        count := count + 1;
        j := j + 1;
      }
    }
    assert mine[..|mine|] == mine;
  }

  lemma IngestPrefix(rows: seq<Row>, n: nat, metadataId: nat)
    requires n <= |rows|
    ensures IngestEdges(rows[..n], metadataId) <= IngestEdges(rows, metadataId)
  {
    assert rows == rows[..n] + rows[n..];
    IngestEdgesAppend(rows[..n], rows[n..], metadataId);
  }

  // =====================================================================
  // JalanUpload.post

  /** What `process_file` hands to the background thread running
      `iterate_and_save`: the metadata object, its road table and the rows. */
  datatype Handoff = Handoff(metadata: JalanMetadata, table: string, rows: seq<Row>)

  const UploadedMessage := "File uploaded successfully"

  /** `JalanUpload.post`. `newId` is the fresh uuid of the metadata row,
      `draws` the random suffixes, `archive` what extracting a zip meets,
      `read` what `gpd.read_file` delivers for a source, and `tableFault`
      the error of the `CREATE TABLE ... LIKE tb_jalan` statements, if any.
      The ingestion itself runs in the background: it is returned, not run. */
  method Upload(db: Database, form: map<string, string>, files: map<string, UploadedFile>, newId: nat,
                draws: seq<Suffix>, archive: ZipArchive, read: Source -> ReadResult, tableFault: Option<string>)
    returns (response: Response, handoff: Option<Handoff>)
    requires newId !in db.metadata
    requires GeoUploadRejection(form, files).None? ==> ChooseRoadTable(db.RoadTables(), draws).Some?
    modifies db
    ensures old(db.Valid()) ==> db.Valid()
    ensures GeoUploadRejection(form, files).Some? ==>
      response == GeoUploadRejection(form, files).value && handoff.None?
      && db.metadata == old(db.metadata) && db.writes == old(db.writes)
    ensures GeoUploadRejection(form, files).None? ==>
      var table := ChooseRoadTable(old(db.RoadTables()), draws).value;
      var created := Snapshot(newId, form["name"], table, if "description" in form then Some(form["description"]) else None,
                              None, Some(Uploaded), None, None);
      var format := IsValidGeospatialFile(Some(files["file"].name)).value;
      match SourceOf(format, files["file"], archive)
      case Raise(e) =>
        && response == ErrorResponse(StatusServerError, Str(e)) && handoff.None?
        && db.metadata == old(db.metadata)[newId := created] && db.writes == old(db.writes) + [MetadataSaved(created)]
      case Ok(source) =>
        match read(source)
        case ReadRaised(message) =>
          && response == ErrorResponse(StatusServerError, message) && handoff.None?
          && db.metadata == old(db.metadata)[newId := created] && db.writes == old(db.writes) + [MetadataSaved(created)]
        case Read(rows, bounds) =>
          var bounded := created.(bbox := Some(bounds));
          && db.metadata == old(db.metadata)[newId := bounded]
          && match tableFault
             case Some(message) =>
               && response == ErrorResponse(StatusServerError, message) && handoff.None?
               && db.writes == old(db.writes) + [MetadataSaved(created), MetadataSaved(bounded)]
             case None =>
               && response == Response(StatusCreated, map["message" := JStr(UploadedMessage), "metadata_id" := JInt(newId)])
               && handoff.Some? && handoff.value.table == table && handoff.value.rows == rows
               && handoff.value.metadata.Snap() == bounded
               && db.writes == old(db.writes) + [MetadataSaved(created), MetadataSaved(bounded), RoadTableCreated(table)]
  {
    handoff := None;
    var rejection := GeoUploadRejection(form, files);
    if rejection.Some? {
      return rejection.value, None;
    }
    var file := files["file"];
    var format := IsValidGeospatialFile(Some(file.name)).value;
    var description := if "description" in form then Some(form["description"]) else None;
    ghost var table := ChooseRoadTable(db.RoadTables(), draws).value;
    ghost var created := Snapshot(newId, form["name"], table, description, None, Some(Uploaded), None, None);
    ghost var m0: map<nat, Snapshot> := db.metadata;
    var metadata := CreateMetadata(db, newId, form["name"], description, Some(Uploaded), draws);
    assert metadata.Snap() == created && db.metadata == m0[newId := created];
    response, handoff := ReadAndProcess(db, metadata, format, file, archive, read, tableFault);
    match SourceOf(format, file, archive) {
      case Raise(_) =>
      case Ok(source) =>
        match read(source) {
          case ReadRaised(_) =>
          case Read(_, bounds) =>
            assert m0[newId := created][newId := created.(bbox := Some(bounds))] == m0[newId := created.(bbox := Some(bounds))];
        }
    }
  }

  /** The upload after its metadata row exists: the source is resolved and
      read, then `process_file` goes on. */
  method ReadAndProcess(db: Database, metadata: JalanMetadata, format: string, file: UploadedFile,
                        archive: ZipArchive, read: Source -> ReadResult, tableFault: Option<string>)
    returns (response: Response, handoff: Option<Handoff>)
    requires format in {"zip", "kml", "geojson"} && metadata.roadTable != ""
    modifies db, metadata
    ensures old(db.Valid()) ==> db.Valid()
    ensures match SourceOf(format, file, archive)
      case Raise(e) =>
        response == ErrorResponse(StatusServerError, Str(e)) && handoff.None? && unchanged(db) && unchanged(metadata)
      case Ok(source) =>
        match read(source)
        case ReadRaised(message) =>
          response == ErrorResponse(StatusServerError, message) && handoff.None? && unchanged(db) && unchanged(metadata)
        case Read(rows, bounds) =>
          var bounded := old(metadata.Snap()).(bbox := Some(bounds));
          && metadata.Snap() == bounded
          && db.metadata == old(db.metadata)[metadata.id := bounded]
          && match tableFault
             case Some(message) =>
               && response == ErrorResponse(StatusServerError, message) && handoff.None?
               && db.writes == old(db.writes) + [MetadataSaved(bounded)]
             case None =>
               && response == Response(StatusCreated, map["message" := JStr(UploadedMessage), "metadata_id" := JInt(metadata.id)])
               && handoff == Some(Handoff(metadata, bounded.roadTable, rows))
               && db.writes == old(db.writes) + [MetadataSaved(bounded), RoadTableCreated(bounded.roadTable)]
  {
    var source := ResolveSource(format, file, archive);
    if source.Raise? {
      return ErrorResponse(StatusServerError, Str(source.error)), None;
    }
    // process_file
    match read(source.value) {
      case ReadRaised(message) =>
        return ErrorResponse(StatusServerError, message), None;
      case Read(rows, bounds) =>
        response, handoff := ProcessFile(db, metadata, rows, bounds, tableFault);
    }
  }

  /** The part of `process_file` that runs before the background thread:
      the bounds are saved on the metadata row, the road table is created
      and the ingestion is handed off. */
  method ProcessFile(db: Database, metadata: JalanMetadata, rows: seq<Row>, bounds: Bbox, tableFault: Option<string>)
    returns (response: Response, handoff: Option<Handoff>)
    requires metadata.roadTable != ""
    modifies db, metadata
    ensures old(db.Valid()) ==> db.Valid()
    ensures var bounded := old(metadata.Snap()).(bbox := Some(bounds));
      && metadata.Snap() == bounded
      && db.metadata == old(db.metadata)[metadata.id := bounded]
      && match tableFault
         case Some(message) =>
           && response == ErrorResponse(StatusServerError, message) && handoff.None?
           && db.writes == old(db.writes) + [MetadataSaved(bounded)]
         case None =>
           && response == Response(StatusCreated, map["message" := JStr(UploadedMessage), "metadata_id" := JInt(metadata.id)])
           && handoff == Some(Handoff(metadata, bounded.roadTable, rows))
           && db.writes == old(db.writes) + [MetadataSaved(bounded), RoadTableCreated(bounded.roadTable)]
  {
    metadata.bbox := Some(bounds);
    var _ := metadata.Save(db, []);
    var table := metadata.roadTable;
    if tableFault.Some? {
      return ErrorResponse(StatusServerError, tableFault.value), None;
    }
    db.Record(RoadTableCreated(table));
    handoff := Some(Handoff(metadata, table, rows));
    response := Response(StatusCreated, map["message" := JStr(UploadedMessage), "metadata_id" := JInt(metadata.id)]);
  }

  // =====================================================================
  // JalanGenerateTopology.put

  /** The walking pace, in minutes per kilometre. */
  const Pace: real := 15.0

  /** `speed = (1 * 1000) / (pace * 60)`, in metres per second. */
  const Speed: real := (1.0 * 1000.0) / (Pace * 60.0)

  /** `(ST_Length(...) / speed) / 60`: the minutes needed to walk a
      projected length at the pace, i.e. 15 minutes per 1000 metres. */
  function CostMinutes(lengthM: real): (minutes: real)
    ensures minutes == Pace * lengthM / 1000.0
    ensures minutes > 0.0 <==> lengthM > 0.0
  {
    (lengthM / Speed) / 60.0
  }

  /** A road-table row after `pgr_createTopology`: its end nodes and its
      projected length in metres. */
  datatype TopologyEdge = TopologyEdge(source: Option<int>, target: Option<int>, lengthM: real)

  /** The `UPDATE ... SET cost = ..., reverse_cost = ...` statement. */
  function UpdateCosts(edges: seq<TopologyEdge>): (costed: seq<CostedEdge>)
    ensures |costed| == |edges|
    ensures forall k | 0 <= k < |edges| ::
      && costed[k].source == edges[k].source && costed[k].target == edges[k].target
      && costed[k].cost == costed[k].reverseCost == Pace * edges[k].lengthM / 1000.0
  {
    seq(|edges|, k requires 0 <= k < |edges| =>
      CostedEdge(edges[k].source, edges[k].target, CostMinutes(edges[k].lengthM), CostMinutes(edges[k].lengthM)))
  }

  /** `source IS NOT NULL AND target IS NOT NULL AND cost > 0` */
  predicate IsValidEdge(e: CostedEdge)
  {
    e.source.Some? && e.target.Some? && e.cost > 0.0
  }

  function CountValid(edges: seq<CostedEdge>): (n: nat)
    ensures n <= |edges|
  {
    if edges == [] then 0
    else (if IsValidEdge(edges[0]) then 1 else 0) + CountValid(edges[1..])
  }

  const SampleLimit := 10

  /** The number of rows `... ORDER BY RANDOM() LIMIT 10` returns. */
  function SampleSize(edges: seq<CostedEdge>): (n: nat)
    ensures n <= SampleLimit && n <= CountValid(edges)
  {
    if CountValid(edges) < SampleLimit then CountValid(edges) else SampleLimit
  }

  /** What the three SQL statements do: raise, or leave the topology rows. */
  datatype TopologyRun = TopologySqlRaised(message: string) | TopologyBuilt(edges: seq<TopologyEdge>)

  const TopologyCreatedMessage := "Topology created successfully"

  function TopologyFailedMessage(n: nat): string
  {
    "Failed to create topology, the results validity length only " + NatToString(n)
  }

  /** `JalanGenerateTopology.put` for the metadata with id `metadataId`;
      `run` is what the SQL statements do on its road table. */
  method GenerateTopology(db: Database, metadataId: nat, run: TopologyRun) returns (response: Response)
    requires db.Valid()
    modifies db
    ensures db.Valid()
    ensures metadataId !in old(db.metadata) ==>
      && response == ErrorResponse(StatusServerError, Str(DoesNotExist("JalanMetadata")))
      && db.metadata == old(db.metadata) && db.writes == old(db.writes)
    ensures metadataId in old(db.metadata) ==>
      var row := old(db.metadata)[metadataId];
      var creating := row.(topologyStatus := Some(Creating));
      match run
      case TopologySqlRaised(message) =>
        && response == ErrorResponse(StatusServerError, message)
        && db.metadata == old(db.metadata)[metadataId := creating]
        && db.writes == old(db.writes) + [MetadataSaved(creating)]
      case TopologyBuilt(edges) =>
        var costed := UpdateCosts(edges);
        var created := SampleSize(costed) == SampleLimit;
        var final := creating.(topologyStatus := Some(if created then Created else TopologyFailed));
        && db.metadata == old(db.metadata)[metadataId := final]
        && db.writes == old(db.writes) + [MetadataSaved(creating), CostsUpdated(row.roadTable, costed), MetadataSaved(final)]
        && response == if created
             then Response(StatusCreated, map["message" := JStr(TopologyCreatedMessage), "layer" := JStr(row.roadTable)])
             else ErrorResponse(StatusServerError, TopologyFailedMessage(SampleSize(costed)))
  {
    if metadataId !in db.metadata {
      return ErrorResponse(StatusServerError, Str(DoesNotExist("JalanMetadata")));
    }
    var metadata := new JalanMetadata.Load(db.metadata[metadataId]);
    metadata.topologyStatus := Some(Creating);
    var _ := metadata.Save(db, []);
    var roadTable := metadata.roadTable;
    match run {
      case TopologySqlRaised(message) =>
        return ErrorResponse(StatusServerError, message);
      case TopologyBuilt(edges) =>
        var costed := UpdateCosts(edges);
        db.Record(CostsUpdated(roadTable, costed));
        var results := SampleSize(costed);
        if results == SampleLimit {
          metadata.topologyStatus := Some(Created);
          var _ := metadata.Save(db, []);
          return Response(StatusCreated, map["message" := JStr(TopologyCreatedMessage), "layer" := JStr(roadTable)]);
        } else {
          metadata.topologyStatus := Some(TopologyFailed);
          var _ := metadata.Save(db, []);
          return ErrorResponse(StatusServerError, Str(ValueError(TopologyFailedMessage(results))));
        }
    }
  }

  /** A topology row passes the validity check iff the snapper gave it both
      end nodes and it has positive length. */
  lemma ValidAfterCosting(edges: seq<TopologyEdge>, k: nat)
    requires k < |edges|
    ensures IsValidEdge(UpdateCosts(edges)[k]) <==>
      edges[k].source.Some? && edges[k].target.Some? && edges[k].lengthM > 0.0
  {
  }

  /** The number of rows with both end nodes and positive length. */
  function CountUsable(edges: seq<TopologyEdge>): nat
  {
    if edges == [] then 0
    else (if edges[0].source.Some? && edges[0].target.Some? && edges[0].lengthM > 0.0 then 1 else 0)
         + CountUsable(edges[1..])
  }

  lemma {:induction false} CountValidOfCosts(edges: seq<TopologyEdge>)
    ensures CountValid(UpdateCosts(edges)) == CountUsable(edges)
  {
    if edges != [] {
      assert UpdateCosts(edges)[1..] == UpdateCosts(edges[1..]);
      CountValidOfCosts(edges[1..]);
    }
  }

  /** The topology is CREATED exactly when at least ten rows have both end
      nodes and positive length; a network of fewer than ten edges always
      FAILS. */
  lemma TopologyCreatedIff(edges: seq<TopologyEdge>)
    ensures SampleSize(UpdateCosts(edges)) == SampleLimit <==> CountUsable(edges) >= SampleLimit
    ensures |edges| < SampleLimit ==> SampleSize(UpdateCosts(edges)) < SampleLimit
  {
    CountValidOfCosts(edges);
  }

  // =====================================================================
  // JalanFindRoute.get

  /** The routing query as the view builds it: the tables and the four
      coordinates (after `float()`). */
  datatype RouteQuery = RouteQuery(roadTable: string, verticesTable: string,
                                   startLon: real, startLat: real, endLon: real, endLat: real)

  /** What the routing query ends with: it raises, returns no geometry, or
      returns the merged route with `geojson_line_length` of it. */
  datatype RouteRun = RouteRaised(message: string) | NoRoute | RouteFound(geometry: Json, length: real)

  const RouteParamsMessage := "Both start and end 'lon' and 'lat' query parameters are required."
  const NumericMessage := "'lon' and 'lat' must be valid numeric values."
  const NoRouteMessage := "Failed to find route from the given coordinate and time"

  /** `float(s)` on a query-parameter string, `Some` unless it raises ValueError. */
  function QueryFloat(s: string): Option<real>
  {
    match ToFloat(JStr(s))
    case Ok(r) => Some(r)
    case Raise(_) => None
  }

  /** All four of `start-lat`, `start-lon`, `end-lat`, `end-lon` are given. */
  predicate RouteParamsGiven(params: map<string, string>)
  {
    "start-lat" in params && "start-lon" in params && "end-lat" in params && "end-lon" in params
  }

  /** All four convert with `float()`. */
  predicate RouteParamsNumeric(params: map<string, string>)
    requires RouteParamsGiven(params)
  {
    && QueryFloat(params["start-lat"]).Some? && QueryFloat(params["start-lon"]).Some?
    && QueryFloat(params["end-lat"]).Some? && QueryFloat(params["end-lon"]).Some?
  }

  function RouteProperties(q: RouteQuery, length: real): (p: map<string, Json>)
    ensures p.Keys == {"start_lat", "start_lon", "end_lat", "end_lon", "name", "length", "time"}
    ensures p["length"] == JFloat(length) && p["time"] == JFloat(Round(Pace * length, 1))
    ensures p["start_lat"] == JFloat(q.startLat) && p["start_lon"] == JFloat(q.startLon)
    ensures p["end_lat"] == JFloat(q.endLat) && p["end_lon"] == JFloat(q.endLon)
  {
    map["start_lat" := JFloat(q.startLat), "start_lon" := JFloat(q.startLon),
        "end_lat" := JFloat(q.endLat), "end_lon" := JFloat(q.endLon),
        "name" := JStr("Route"), "length" := JFloat(length), "time" := JFloat(Round(Pace * length, 1))]
  }

  /** `JalanFindRoute.get`. `dijkstra` is what the routing SQL returns for a query. */
  function FindRoute(db: Database, metadataId: nat, params: map<string, string>, dijkstra: RouteQuery -> RouteRun): (r: Response)
    reads db
    ensures r.status == StatusBadRequest <==> !RouteParamsGiven(params) || !RouteParamsNumeric(params)
    ensures !RouteParamsGiven(params) ==> r == ErrorResponse(StatusBadRequest, RouteParamsMessage)
    ensures RouteParamsGiven(params) && !RouteParamsNumeric(params) ==> r == ErrorResponse(StatusBadRequest, NumericMessage)
    ensures RouteParamsGiven(params) && RouteParamsNumeric(params) && metadataId !in db.metadata ==>
      r == ErrorResponse(StatusServerError, Str(DoesNotExist("JalanMetadata")))
    ensures r.status == StatusOk <==>
      && RouteParamsGiven(params) && RouteParamsNumeric(params)
      && metadataId in db.metadata
      && var t := db.metadata[metadataId].roadTable;
         dijkstra(RouteQuery(t, VerticesTable(t), QueryFloat(params["start-lon"]).value, QueryFloat(params["start-lat"]).value,
                             QueryFloat(params["end-lon"]).value, QueryFloat(params["end-lat"]).value)).RouteFound?
    ensures r.status in {StatusOk, StatusBadRequest, StatusServerError}
  {
    if "start-lat" !in params || "start-lon" !in params || "end-lat" !in params || "end-lon" !in params then
      ErrorResponse(StatusBadRequest, RouteParamsMessage)
    else
      var startLat, startLon := QueryFloat(params["start-lat"]), QueryFloat(params["start-lon"]);
      var endLat, endLon := QueryFloat(params["end-lat"]), QueryFloat(params["end-lon"]);
      if startLat.None? || startLon.None? || endLat.None? || endLon.None? then
        ErrorResponse(StatusBadRequest, NumericMessage)
      else if metadataId !in db.metadata then
        ErrorResponse(StatusServerError, Str(DoesNotExist("JalanMetadata")))
      else
        var roadTable := db.metadata[metadataId].roadTable;
        var q := RouteQuery(roadTable, VerticesTable(roadTable), startLon.value, startLat.value, endLon.value, endLat.value);
        match dijkstra(q)
        case RouteRaised(message) => ErrorResponse(StatusServerError, message)
        case NoRoute => ErrorResponse(StatusServerError, Str(ValueError(NoRouteMessage)))
        case RouteFound(geometry, length) =>
          var feature := JDict(map["type" := JStr("Feature"), "properties" := JDict(RouteProperties(q, length)),
                                   "geometry" := geometry]);
          Response(StatusOk, map["type" := JStr("FeatureCollection"), "features" := JList([feature])])
  }

  /** A found route reports the walking time of its length at the pace,
      to the nearest tenth of a minute. */
  lemma RouteTimeIsPaceTimesLength(q: RouteQuery, length: real)
    ensures var t := RouteProperties(q, length)["time"];
      t.JFloat? && -0.05 <= t.r - Pace * length <= 0.05
  {
  }

  // =====================================================================
  // JalanFindIsochrone.get

  /** The isochrone queries as the view builds them: tables and the raw
      `lon`, `lat` and `time` strings, pasted into the SQL unconverted. */
  datatype IsochroneQuery = IsochroneQuery(roadTable: string, verticesTable: string, lon: string, lat: string, time: string)

  /** What the two queries return: the `ST_AsGeoJSON` text of each nearest
      vertex (None for a NULL), in distance order, and the text of the
      buffered reachable network, None when no row or a NULL comes back. */
  datatype IsochroneRun = IsochroneRaised(message: string) | IsochroneRan(nearest: seq<Option<string>>, buffer: Option<string>)

  /** What `json.loads(None)` raises. */
  const LoadsNoneMessage := "the JSON object must be str, bytes or bytearray, not NoneType"

  /** `json.loads(cell)` on a fetched column that may be NULL; `loads` is
      `json.loads` on text. */
  function LoadCell(cell: Option<string>, loads: string -> Result<Json>): Result<Json>
  {
    if cell.Some? then loads(cell.value) else Raise(TypeError(LoadsNoneMessage))
  }

  /** The geometries of the `res_point` comprehension: every cell parsed in
      turn, the first exception raised. */
  function LoadAll(cells: seq<Option<string>>, loads: string -> Result<Json>): (r: Result<seq<Json>>)
    ensures r.Ok? <==> forall i | 0 <= i < |cells| :: LoadCell(cells[i], loads).Ok?
    ensures r.Ok? ==> |r.value| == |cells| && forall i | 0 <= i < |cells| :: r.value[i] == LoadCell(cells[i], loads).value
    ensures r.Raise? ==> exists i | 0 <= i < |cells| ::
      LoadCell(cells[i], loads) == Raise(r.error) && forall j | 0 <= j < i :: LoadCell(cells[j], loads).Ok?
  {
    if cells == [] then Ok([])
    else
      match LoadCell(cells[0], loads)
      case Raise(e) => Raise(e)
      case Ok(g) =>
        var rest := LoadAll(cells[1..], loads);
        assert forall i | 1 <= i < |cells| :: cells[i] == cells[1..][i - 1];
        if rest.Raise? then
          var i :| 0 <= i < |cells[1..]| && LoadCell(cells[1..][i], loads) == Raise(rest.error)
            && forall j | 0 <= j < i :: LoadCell(cells[1..][j], loads).Ok?;
          assert LoadCell(cells[i + 1], loads) == Raise(rest.error);
          Raise(rest.error)
        else Ok([g] + rest.value)
  }

  /** What the view computes once `result and result[0]` holds: the buffer
      text parsed, the concave hull of it made and parsed, then every
      nearest vertex parsed, in that order. The first exception is raised;
      otherwise the parsed buffer, hull and vertex geometries. */
  function IsochroneParts(buffer: string, nearest: seq<Option<string>>,
                          loads: string -> Result<Json>, hull: Json -> Result<string>): (r: Result<(Json, Json, seq<Json>)>)
    ensures r.Ok? <==>
      && loads(buffer).Ok? && hull(loads(buffer).value).Ok? && loads(hull(loads(buffer).value).value).Ok?
      && LoadAll(nearest, loads).Ok?
    ensures r.Ok? ==>
      r.value == (loads(buffer).value, loads(hull(loads(buffer).value).value).value, LoadAll(nearest, loads).value)
    ensures loads(buffer).Raise? ==> r == Raise(loads(buffer).error)
    ensures loads(buffer).Ok? && hull(loads(buffer).value).Raise? ==> r == Raise(hull(loads(buffer).value).error)
    ensures loads(buffer).Ok? && hull(loads(buffer).value).Ok? && loads(hull(loads(buffer).value).value).Raise? ==>
      r == Raise(loads(hull(loads(buffer).value).value).error)
    ensures loads(buffer).Ok? && hull(loads(buffer).value).Ok? && loads(hull(loads(buffer).value).value).Ok? ==>
      r.Raise? == LoadAll(nearest, loads).Raise? && (r.Raise? ==> r.error == LoadAll(nearest, loads).error)
  {
    match loads(buffer)
    case Raise(e) => Raise(e)
    case Ok(geojsonBuffer) =>
      match hull(geojsonBuffer)
      case Raise(e) => Raise(e)
      case Ok(concaveText) =>
        match loads(concaveText)
        case Raise(e) => Raise(e)
        case Ok(concave) =>
          match LoadAll(nearest, loads)
          case Raise(e) => Raise(e)
          case Ok(points) => Ok((geojsonBuffer, concave, points))
  }

  const DefaultFilter := "isochrone|buffer|point"
  const IsochroneParamsMessage := "Both 'lon' and 'lat' and time query parameters are required."
  const NoIsochroneMessage := "Failed to create isochrone from the given coordinate and time"

  /** The `res_point` list: one feature per nearest vertex, `idx` its rank. */
  function PointFeatures(nearest: seq<Json>): (points: seq<Json>)
    ensures |points| == |nearest|
    ensures forall i | 0 <= i < |points| ::
      points[i] == JDict(map["type" := JStr("Feature"),
                             "properties" := JDict(map["name" := JStr("PT"), "idx" := JInt(i)]),
                             "geometry" := nearest[i]])
  {
    seq(|nearest|, i requires 0 <= i < |nearest| =>
      JDict(map["type" := JStr("Feature"),
                "properties" := JDict(map["name" := JStr("PT"), "idx" := JInt(i)]),
                "geometry" := nearest[i]]))
  }

  /** The selection the `if "isochrone" in filter` / `"buffer"` / `"point"`
      steps make, in that order. */
  function SelectedFeatures(concave: Json, buffer: Json, points: seq<Json>, filter: string): seq<Json>
  {
    (if Contains(filter, "isochrone") then [concave] else [])
    + (if Contains(filter, "buffer") then [buffer] else [])
    + (if Contains(filter, "point") then points else [])
  }

  /** The `res_features` list, built by `append` and `extend`. */
  method BuildFeatures(concave: Json, buffer: Json, points: seq<Json>, filter: string) returns (features: seq<Json>)
    ensures features == SelectedFeatures(concave, buffer, points, filter)
  {
    features := [];
    if Contains(filter, "isochrone") {
      features := features + [concave];
    }
    if Contains(filter, "buffer") {
      features := features + [buffer];
    }
    if Contains(filter, "point") {
      features := features + points;
    }
  }

  lemma OccursInDefault(needle: string, at: nat)
    requires at + |needle| <= |DefaultFilter| && DefaultFilter[at..at + |needle|] == needle
    ensures Contains(DefaultFilter, needle)
  {
    assert OccursAt(DefaultFilter, needle, at);
  }

  /** With the default filter all three groups are returned: concave hull,
      buffer, then every point. */
  lemma DefaultFilterSelectsAll(concave: Json, buffer: Json, points: seq<Json>)
    ensures SelectedFeatures(concave, buffer, points, DefaultFilter) == [concave, buffer] + points
  {
    assert DefaultFilter == "isochrone" + "|" + "buffer" + "|" + "point";
    OccursInDefault("isochrone", 0);
    OccursInDefault("buffer", 10);
    OccursInDefault("point", 17);
  }

  /** Each group appears iff its keyword is a substring of the filter, and
      the groups keep the order concave, buffer, points. */
  lemma SelectionByKeyword(concave: Json, buffer: Json, points: seq<Json>, filter: string)
    ensures var f := SelectedFeatures(concave, buffer, points, filter);
      var c := if Contains(filter, "isochrone") then 1 else 0;
      var b := if Contains(filter, "buffer") then 1 else 0;
      && |f| == c + b + (if Contains(filter, "point") then |points| else 0)
      && (c == 1 ==> f[0] == concave)
      && (b == 1 ==> f[c] == buffer)
      && (Contains(filter, "point") ==> f[c + b..] == points)
  {
  }

  function IsochroneProperties(lat: string, lon: string, time: string, name: string): (p: map<string, Json>)
    ensures p.Keys == {"lat", "lon", "time", "name"}
    ensures p["lat"] == JStr(lat) && p["lon"] == JStr(lon) && p["time"] == JStr(time) && p["name"] == JStr(name)
  {
    map["lat" := JStr(lat), "lon" := JStr(lon), "time" := JStr(time), "name" := JStr(name)]
  }

  /** The run of the queries for the parsed parameters, when they and the
      metadata row are there. */
  function IsochroneRunOf(db: Database, metadataId: nat, params: map<string, string>, run: IsochroneQuery -> IsochroneRun): IsochroneRun
    reads db
    requires "lat" in params && "lon" in params && "time" in params && metadataId in db.metadata
  {
    var t := db.metadata[metadataId].roadTable;
    run(IsochroneQuery(t, VerticesTable(t), params["lon"], params["lat"], params["time"]))
  }

  /** `JalanFindIsochrone.get`. `run` is what the queries return, `loads`
      `json.loads` and `hull` what `create_concave_hull(buffer, 0.003, 50)`
      makes of the parsed buffer; each of the last two may raise. */
  method FindIsochrone(db: Database, metadataId: nat, params: map<string, string>,
                       run: IsochroneQuery -> IsochroneRun, loads: string -> Result<Json>, hull: Json -> Result<string>)
    returns (r: Response)
    ensures r.status == StatusBadRequest <==> "lat" !in params || "lon" !in params || "time" !in params
    ensures r.status == StatusBadRequest ==> r == ErrorResponse(StatusBadRequest, IsochroneParamsMessage)
    ensures "lat" in params && "lon" in params && "time" in params && metadataId !in db.metadata ==>
      r == ErrorResponse(StatusServerError, Str(DoesNotExist("JalanMetadata")))
    ensures "lat" in params && "lon" in params && "time" in params && metadataId in db.metadata ==>
      var out := IsochroneRunOf(db, metadataId, params, run);
      && (out.IsochroneRaised? ==> r == ErrorResponse(StatusServerError, out.message))
      && (out.IsochroneRan? && (out.buffer.None? || out.buffer.value == "") ==>
            r == ErrorResponse(StatusServerError, Str(ValueError(NoIsochroneMessage))))
      && (out.IsochroneRan? && out.buffer.Some? && out.buffer.value != "" ==>
            var parts := IsochroneParts(out.buffer.value, out.nearest, loads, hull);
            parts.Raise? ==> r == ErrorResponse(StatusServerError, Str(parts.error)))
    ensures r.status == StatusOk <==>
      && "lat" in params && "lon" in params && "time" in params && metadataId in db.metadata
      && var out := IsochroneRunOf(db, metadataId, params, run);
         out.IsochroneRan? && out.buffer.Some? && out.buffer.value != ""
         && IsochroneParts(out.buffer.value, out.nearest, loads, hull).Ok?
    ensures r.status == StatusOk ==>
      var out := IsochroneRunOf(db, metadataId, params, run);
      var parts := IsochroneParts(out.buffer.value, out.nearest, loads, hull).value;
      var filter := if "filter" in params then params["filter"] else DefaultFilter;
      var properties := (name: string) => IsochroneProperties(params["lat"], params["lon"], params["time"], name);
      var concave := JDict(map["type" := JStr("Feature"), "properties" := JDict(properties("Concave")),
                               "geometry" := parts.1]);
      var buffer := JDict(map["type" := JStr("Feature"), "properties" := JDict(properties("Iso Buffer")),
                              "geometry" := parts.0]);
      r.body == map["type" := JStr("FeatureCollection"),
                    "features" := JList(SelectedFeatures(concave, buffer, PointFeatures(parts.2), filter))]
    ensures r.status in {StatusOk, StatusBadRequest, StatusServerError}
  {
    if "lat" !in params || "lon" !in params || "time" !in params {
      return ErrorResponse(StatusBadRequest, IsochroneParamsMessage);
    }
    var lat, lon, time := params["lat"], params["lon"], params["time"];
    var filter := if "filter" in params then params["filter"] else DefaultFilter;
    if metadataId !in db.metadata {
      return ErrorResponse(StatusServerError, Str(DoesNotExist("JalanMetadata")));
    }
    var roadTable := db.metadata[metadataId].roadTable;
    var out := run(IsochroneQuery(roadTable, VerticesTable(roadTable), lon, lat, time));
    if out.IsochroneRaised? {
      return ErrorResponse(StatusServerError, out.message);
    }
    if out.buffer.None? || out.buffer.value == "" {
      return ErrorResponse(StatusServerError, Str(ValueError(NoIsochroneMessage)));
    }
    var parsed := loads(out.buffer.value);
    if parsed.Raise? {
      return ErrorResponse(StatusServerError, Str(parsed.error));
    }
    var geojsonBuffer := parsed.value;
    var concaveText := hull(geojsonBuffer);
    if concaveText.Raise? {
      return ErrorResponse(StatusServerError, Str(concaveText.error));
    }
    var concaveGeometry := loads(concaveText.value);
    if concaveGeometry.Raise? {
      return ErrorResponse(StatusServerError, Str(concaveGeometry.error));
    }
    var concave := JDict(map["type" := JStr("Feature"),
                             "properties" := JDict(IsochroneProperties(lat, lon, time, "Concave")),
                             "geometry" := concaveGeometry.value]);
    var buffer := JDict(map["type" := JStr("Feature"),
                            "properties" := JDict(IsochroneProperties(lat, lon, time, "Iso Buffer")),
                            "geometry" := geojsonBuffer]);
    var points := LoadAll(out.nearest, loads);
    if points.Raise? {
      return ErrorResponse(StatusServerError, Str(points.error));
    }
    var features := BuildFeatures(concave, buffer, PointFeatures(points.value), filter);
    r := Response(StatusOk, map["type" := JStr("FeatureCollection"), "features" := JList(features)]);
  }
}
