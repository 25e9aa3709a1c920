/** The zonation projects: a `ProjectMetadata` row names a set of layers to
    show together, one of which may be a road dataset whose bounding box the
    project takes over. The views create a project as a draft, store its
    layers, publish or withdraw it, and list projects newest first. */
module ProjectViews {
  import opened Py
  import opened Geo
  import opened Forms
  import opened JalanModels

  /** The stored columns of one `tb_project_metadata` row. The UUID primary
      key is a `nat`. */
  datatype ProjectMetadata = ProjectMetadata(
    id: nat,
    name: string,
    level: string,
    kind: string,
    description: Option<string>,
    layers: Json,
    status: string,
    bbox: Option<Bbox>)

  const Draft := "DRAFT"
  const Published := "PUBLISHED"

  /** The two statuses a project may have. */
  predicate KnownStatus(s: string)
  {
    s == Draft || s == Published
  }

  /** Distinct ids, and every status DRAFT or PUBLISHED. */
  predicate ProjectsValid(ps: seq<ProjectMetadata>)
  {
    && (forall i, j | 0 <= i < j < |ps| :: ps[i].id != ps[j].id)
    && (forall i | 0 <= i < |ps| :: KnownStatus(ps[i].status))
  }

  class Database {
    /** The project rows in creation order, oldest first. */
    var projects: seq<ProjectMetadata>

    constructor ()
      ensures projects == []
    {
      projects := [];
    }

    predicate Valid()
      reads this
    {
      ProjectsValid(projects)
    }
  }

  /** `ProjectMetadata.objects.get(id=...)`: the position of the row with
      that id. */
  function IndexOf(ps: seq<ProjectMetadata>, id: nat): (r: Option<nat>)
    ensures r.Some? ==> r.value < |ps| && ps[r.value].id == id
    ensures r.Some? ==> forall j | 0 <= j < r.value :: ps[j].id != id
    ensures r.None? <==> forall j | 0 <= j < |ps| :: ps[j].id != id
  {
    if ps == [] then None
    else if ps[0].id == id then Some(0)
    else
      match IndexOf(ps[1..], id)
      case None => None
      case Some(k) =>
        assert forall j | 1 <= j < k + 1 :: ps[j] == ps[1..][j - 1];
        Some(k + 1)
  }

  const ProjectNotFound := DoesNotExist("ProjectMetadata")
  const RoadNotFound := DoesNotExist("JalanMetadata")
  const CreatedMessage := "Project created successfully"
  const LayersMissing := "Layers data is missing."
  const LayersSaved := "Layer updated successfully."
  const StatusInvalid := "Status invalid!."
  const StatusSaved := "Status updated successfully."

  // ---------------------------------------------------------------------
  // Creating a project

  /** The create view's checks, in order: name, level, type. */
  function CreateRejection(form: map<string, string>): (r: Option<Response>)
    ensures r.None? <==> FormGiven(form, "name") && FormGiven(form, "level") && FormGiven(form, "type")
    ensures !FormGiven(form, "name") ==> r == Some(ErrorResponse(StatusBadRequest, "Name is required."))
    ensures FormGiven(form, "name") && !FormGiven(form, "level") ==>
      r == Some(ErrorResponse(StatusBadRequest, "Level is required."))
    ensures FormGiven(form, "name") && FormGiven(form, "level") && !FormGiven(form, "type") ==>
      r == Some(ErrorResponse(StatusBadRequest, "Type is required."))
  {
    if !FormGiven(form, "name") then Some(ErrorResponse(StatusBadRequest, "Name is required."))
    else if !FormGiven(form, "level") then Some(ErrorResponse(StatusBadRequest, "Level is required."))
    else if !FormGiven(form, "type") then Some(ErrorResponse(StatusBadRequest, "Type is required."))
    else None
  }

  /** `request.data.get("description")` */
  function Description(form: map<string, string>): Option<string>
  {
    if "description" in form then Some(form["description"]) else None
  }

  /** `ProjectCreate.post`. `newId` is the fresh UUID; `fault` is the error
      the insert raises, if any (a missing description violates the column's
      NOT NULL constraint). */
  method Create(db: Database, form: map<string, string>, newId: nat, fault: Option<string>)
    returns (response: Response)
    requires forall j | 0 <= j < |db.projects| :: db.projects[j].id != newId
    modifies db
    ensures old(db.Valid()) ==> db.Valid()
    ensures CreateRejection(form).Some? ==> response == CreateRejection(form).value && unchanged(db)
    ensures CreateRejection(form).None? && fault.Some? ==>
      response == ErrorResponse(StatusServerError, fault.value) && unchanged(db)
    ensures CreateRejection(form).None? && fault.None? ==>
      && db.projects == old(db.projects) +
           [ProjectMetadata(newId, form["name"], form["level"], form["type"], Description(form), JNull, Draft, None)]
      && response == Response(StatusCreated, map["message" := JStr(CreatedMessage), "metadata_id" := JInt(newId)])
  {
    var rejection := CreateRejection(form);
    if rejection.Some? {
      return rejection.value;
    }
    if fault.Some? {
      return ErrorResponse(StatusServerError, fault.value);
    }
    var metadata := ProjectMetadata(newId, form["name"], form["level"], form["type"], Description(form), JNull, Draft, None);
    db.projects := db.projects + [metadata];
    response := Response(StatusCreated, map["message" := JStr(CreatedMessage), "metadata_id" := JInt(newId)]);
  }

  // ---------------------------------------------------------------------
  // Saving the layers

  /** `v[key]` for a string key: a dict lookup, or the `TypeError` Python
      raises for every other value. */
  function Subscript(v: Json, key: string): (r: Result<Json>)
    ensures r.Ok? <==> v.JDict? && key in v.entries
    ensures r.Ok? ==> r.value == v.entries[key]
    ensures v.JDict? && key !in v.entries ==> r == Raise(KeyError(key))
    ensures !v.JDict? ==> r.Raise? && r.error.TypeError?
  {
    match v
    case JDict(entries) => if key in entries then Ok(entries[key]) else Raise(KeyError(key))
    case JStr(_) => Raise(TypeError("string indices must be integers, not 'str'"))
    case JList(_) => Raise(TypeError("list indices must be integers or slices, not str"))
    case _ => Raise(TypeError("'" + TypeName(v) + "' object is not subscriptable"))
  }

  /** `layer["type"] == "jalan"` */
  predicate IsRoadLayer(layer: Json): (b: bool)
    ensures b <==> layer.JDict? && "type" in layer.entries && layer.entries["type"] == JStr("jalan")
  {
    Subscript(layer, "type") == Ok(JStr("jalan"))
  }

  /** A layer the search passes over: a dict whose type is not "jalan". */
  predicate IsOtherLayer(layer: Json)
  {
    Subscript(layer, "type").Ok? && !IsRoadLayer(layer)
  }

  /** `next((layer for layer in items if layer["type"] == "jalan"), None)`
      on a list. */
  function FirstRoadLayer(items: seq<Json>): (r: Result<Option<Json>>)
    ensures r.Ok? && r.value.Some? ==> IsRoadLayer(r.value.value) && r.value.value in items
    ensures r == Ok(None) <==> forall j | 0 <= j < |items| :: IsOtherLayer(items[j])
    ensures (forall j | 0 <= j < |items| :: Subscript(items[j], "type").Ok?) ==> r.Ok?
    ensures r.Raise? ==> r.error == KeyError("type") || r.error.TypeError?
  {
    if items == [] then Ok(None)
    else
      match Subscript(items[0], "type")
      case Raise(e) => Raise(e)
      case Ok(t) =>
        if t == JStr("jalan") then Ok(Some(items[0]))
        else
          var rest := FirstRoadLayer(items[1..]);
          assert forall j | 1 <= j < |items| :: items[j] == items[1..][j - 1];
          rest
  }

  /** The search stops at the first road layer: every layer before it only
      needs to have a type. */
  lemma {:induction false} FirstRoadLayerIsFirst(items: seq<Json>, k: nat)
    requires k < |items| && IsRoadLayer(items[k])
    requires forall j | 0 <= j < k :: IsOtherLayer(items[j])
    ensures FirstRoadLayer(items) == Ok(Some(items[k]))
  {
    if k > 0 {
      assert items[1..][k - 1] == items[k];
      assert forall j | 0 <= j < k - 1 :: items[1..][j] == items[j + 1];
      FirstRoadLayerIsFirst(items[1..], k - 1);
    }
  }

  /** The search over `layers` whatever its type. A string or a dict is
      iterated over its characters or keys, each a string that cannot be
      subscripted by "type"; a number or a bool cannot be iterated. */
  function FindRoadLayer(layers: Json): (r: Result<Option<Json>>)
    ensures layers.JList? ==> r == FirstRoadLayer(layers.items)
    ensures layers.JStr? || layers.JDict? ==>
      if Truthy(layers) then r == Raise(TypeError("string indices must be integers, not 'str'")) else r == Ok(None)
    ensures layers.JNull? || layers.JBool? || layers.JInt? || layers.JFloat? ==>
      r.Raise? && r.error == TypeError("'" + TypeName(layers) + "' object is not iterable")
  {
    match layers
    case JList(items) => FirstRoadLayer(items)
    case JStr(s) => if s == "" then Ok(None) else Raise(TypeError("string indices must be integers, not 'str'"))
    case JDict(entries) => if entries == map[] then Ok(None) else Raise(TypeError("string indices must be integers, not 'str'"))
    case _ => Raise(TypeError("'" + TypeName(layers) + "' object is not iterable"))
  }

  /** `JalanMetadata.objects.get(id=jalan_id)`. `uuidOf` is the UUID field's
      conversion of the lookup value, which raises on a malformed one. */
  function RoadById(roads: map<nat, Snapshot>, jalanId: Json, uuidOf: Json -> Result<nat>): (r: Result<Snapshot>)
    ensures r.Ok? <==> uuidOf(jalanId).Ok? && uuidOf(jalanId).value in roads
    ensures r.Ok? ==> r.value == roads[uuidOf(jalanId).value]
    ensures uuidOf(jalanId).Ok? && uuidOf(jalanId).value !in roads ==> r == Raise(RoadNotFound)
    ensures uuidOf(jalanId).Raise? ==> r == Raise(uuidOf(jalanId).error)
  {
    match uuidOf(jalanId)
    case Raise(e) => Raise(e)
    case Ok(n) => if n in roads then Ok(roads[n]) else Raise(RoadNotFound)
  }

  /** The row the save-layer view stores for project `m`, or the exception
      that stops it. */
  function LayerUpdate(m: ProjectMetadata, layers: Json, roads: map<nat, Snapshot>, uuidOf: Json -> Result<nat>)
    : (r: Result<ProjectMetadata>)
    ensures FindRoadLayer(layers).Raise? ==> r == Raise(FindRoadLayer(layers).error)
    ensures FindRoadLayer(layers) == Ok(None) ==> r == Ok(m.(layers := layers))
    ensures FindRoadLayer(layers).Ok? && FindRoadLayer(layers).value.Some? ==>
      var layer := FindRoadLayer(layers).value.value;
      && "id" in layer.entries
      ==> (r.Ok? <==> RoadById(roads, layer.entries["id"], uuidOf).Ok?)
    ensures r.Ok? ==> r.value == m.(layers := layers, bbox := r.value.bbox)
    ensures r.Ok? && FindRoadLayer(layers).value.Some? ==>
      var layer := FindRoadLayer(layers).value.value;
      "id" in layer.entries && r.value.bbox == RoadById(roads, layer.entries["id"], uuidOf).value.bbox
  {
    match FindRoadLayer(layers)
    case Raise(e) => Raise(e)
    case Ok(None) => Ok(m.(layers := layers))
    case Ok(Some(layer)) =>
      match Subscript(layer, "id")
      case Raise(e) => Raise(e)
      case Ok(jalanId) =>
        match RoadById(roads, jalanId, uuidOf)
        case Raise(e) => Raise(e)
        case Ok(road) => Ok(m.(bbox := road.bbox, layers := layers))
  }

  /** A road layer naming a road dataset that does not exist stops the save. */
  lemma UnknownRoadStopsSave(m: ProjectMetadata, layers: Json, roads: map<nat, Snapshot>, uuidOf: Json -> Result<nat>)
    requires FindRoadLayer(layers).Ok? && FindRoadLayer(layers).value.Some?
    requires var layer := FindRoadLayer(layers).value.value;
      "id" in layer.entries && uuidOf(layer.entries["id"]).Ok? && uuidOf(layer.entries["id"]).value !in roads
    ensures LayerUpdate(m, layers, roads, uuidOf) == Raise(RoadNotFound)
  {
  }

  /** `ProjectSaveLayer.put`. `roads` are the stored road metadata rows. */
  method SaveLayer(db: Database, metadataId: nat, data: map<string, Json>,
                   roads: map<nat, Snapshot>, uuidOf: Json -> Result<nat>)
    returns (response: Response)
    modifies db
    ensures old(db.Valid()) ==> db.Valid()
    ensures IndexOf(old(db.projects), metadataId).None? ==>
      response == ErrorResponse(StatusServerError, Str(ProjectNotFound)) && unchanged(db)
    ensures IndexOf(old(db.projects), metadataId).Some? ==>
      var i := IndexOf(old(db.projects), metadataId).value;
      var layers := Get(data, "layers");
      if layers == JNull then response == ErrorResponse(StatusBadRequest, LayersMissing) && unchanged(db)
      else
        match LayerUpdate(old(db.projects)[i], layers, roads, uuidOf)
        case Raise(e) => response == ErrorResponse(StatusServerError, Str(e)) && unchanged(db)
        case Ok(saved) =>
          && db.projects == old(db.projects)[i := saved]
          && response == Response(StatusOk, map["message" := JStr(LayersSaved)])
  {
    var index := IndexOf(db.projects, metadataId);
    if index.None? {
      return ErrorResponse(StatusServerError, Str(ProjectNotFound));
    }
    var metadata := db.projects[index.value];
    var layers := Get(data, "layers");
    if layers == JNull {
      return ErrorResponse(StatusBadRequest, LayersMissing);
    }
    var found := FindRoadLayer(layers);
    if found.Raise? {
      return ErrorResponse(StatusServerError, Str(found.error));
    }
    if found.value.Some? {
      var jalanId := Subscript(found.value.value, "id");
      if jalanId.Raise? {
        return ErrorResponse(StatusServerError, Str(jalanId.error));
      }
      var road := RoadById(roads, jalanId.value, uuidOf);
      if road.Raise? {
        return ErrorResponse(StatusServerError, Str(road.error));
      }
      metadata := metadata.(bbox := road.value.bbox);
    }
    metadata := metadata.(layers := layers);
    db.projects := db.projects[index.value := metadata];
    response := Response(StatusOk, map["message" := JStr(LayersSaved)]);
  }

  // ---------------------------------------------------------------------
  // Publishing

  /** `ProjectUpdateStatus.put`: the status is checked before the lookup. */
  method UpdateStatus(db: Database, metadataId: nat, inStatus: string) returns (response: Response)
    modifies db
    ensures old(db.Valid()) ==> db.Valid()
    ensures !KnownStatus(inStatus) ==> response == ErrorResponse(StatusBadRequest, StatusInvalid) && unchanged(db)
    ensures KnownStatus(inStatus) && IndexOf(old(db.projects), metadataId).None? ==>
      response == ErrorResponse(StatusServerError, Str(ProjectNotFound)) && unchanged(db)
    ensures KnownStatus(inStatus) && IndexOf(old(db.projects), metadataId).Some? ==>
      var i := IndexOf(old(db.projects), metadataId).value;
      && db.projects == old(db.projects)[i := old(db.projects)[i].(status := inStatus)]
      && response == Response(StatusOk, map["message" := JStr(StatusSaved)])
  {
    if inStatus != Draft && inStatus != Published {
      return ErrorResponse(StatusBadRequest, StatusInvalid);
    }
    var index := IndexOf(db.projects, metadataId);
    if index.None? {
      return ErrorResponse(StatusServerError, Str(ProjectNotFound));
    }
    var metadata := db.projects[index.value];
    metadata := metadata.(status := inStatus);
    db.projects := db.projects[index.value := metadata];
    response := Response(StatusOk, map["message" := JStr(StatusSaved)]);
  }

  // ---------------------------------------------------------------------
  // Listing

  /** The rows `keep` admits, newest first (`order_by("-created_at")` over
      rows in creation order). */
  function Selected(ps: seq<ProjectMetadata>, keep: ProjectMetadata -> bool): (r: seq<ProjectMetadata>)
    ensures forall p :: p in r <==> p in ps && keep(p)
    ensures |r| <= |ps|
    ensures (forall j | 0 <= j < |ps| :: keep(ps[j])) ==> |r| == |ps|
  {
    if ps == [] then []
    else Selected(ps[1..], keep) + (if keep(ps[0]) then [ps[0]] else [])
  }

  /** Every row created later is listed before every row created earlier. */
  lemma {:induction false} LaterListedFirst(older: seq<ProjectMetadata>, newer: seq<ProjectMetadata>, keep: ProjectMetadata -> bool)
    ensures Selected(older + newer, keep) == Selected(newer, keep) + Selected(older, keep)
  {
    if older == [] {
      assert older + newer == newer;
    } else {
      assert (older + newer)[1..] == older[1..] + newer;
      LaterListedFirst(older[1..], newer, keep);
    }
  }

  /** A newly created project heads the list when it is admitted. */
  lemma NewestListedFirst(ps: seq<ProjectMetadata>, p: ProjectMetadata, keep: ProjectMetadata -> bool)
    ensures Selected(ps + [p], keep) == (if keep(p) then [p] else []) + Selected(ps, keep)
  {
    LaterListedFirst(ps, [p], keep);
    assert [p][1..] == [];
    assert Selected([p], keep) == (if keep(p) then [p] else []);
  }

  /** `query_params.get(name)` given and non-empty. */
  predicate ParamGiven(param: Option<string>)
  {
    param.Some? && param.value != ""
  }

  /** `ProjectMetadataList.get_queryset` */
  function ProjectList(ps: seq<ProjectMetadata>, projectType: Option<string>): (r: seq<ProjectMetadata>)
    ensures forall p :: p in r <==> p in ps && (ParamGiven(projectType) ==> p.kind == projectType.value)
    ensures !ParamGiven(projectType) ==> |r| == |ps|
  {
    if ParamGiven(projectType) then Selected(ps, (p: ProjectMetadata) => p.kind == projectType.value)
    else Selected(ps, (p: ProjectMetadata) => true)
  }

  /** `ProjectListZonasi.get_queryset`: published projects only. */
  function ZonasiList(ps: seq<ProjectMetadata>, level: Option<string>): (r: seq<ProjectMetadata>)
    ensures forall p :: p in r <==> p in ps && p.status == Published && (ParamGiven(level) ==> p.level == level.value)
  {
    if ParamGiven(level) then Selected(ps, (p: ProjectMetadata) => p.level == level.value && p.status == Published)
    else Selected(ps, (p: ProjectMetadata) => p.status == Published)
  }

  /** A new project is a draft: it heads the project list of its type and
      stays out of the zonation list until it is published. */
  lemma CreatedProjectIsDraft(ps: seq<ProjectMetadata>, p: ProjectMetadata, level: Option<string>)
    requires p.status == Draft
    ensures ZonasiList(ps + [p], level) == ZonasiList(ps, level)
    ensures ProjectList(ps + [p], Some(p.kind))[0] == p
  {
    if ParamGiven(level) {
      NewestListedFirst(ps, p, (q: ProjectMetadata) => q.level == level.value && q.status == Published);
    } else {
      NewestListedFirst(ps, p, (q: ProjectMetadata) => q.status == Published);
    }
    if p.kind != "" {
      NewestListedFirst(ps, p, (q: ProjectMetadata) => q.kind == p.kind);
    } else {
      NewestListedFirst(ps, p, (q: ProjectMetadata) => true);
    }
  }

  /** Publishing a project puts it on the zonation list of its level. */
  lemma PublishedProjectIsListed(ps: seq<ProjectMetadata>, i: nat, level: Option<string>)
    requires i < |ps|
    requires !ParamGiven(level) || level.value == ps[i].level
    ensures ps[i].(status := Published) in ZonasiList(ps[i := ps[i].(status := Published)], level)
  {
    var after := ps[i := ps[i].(status := Published)];
    assert after[i] in after;
  }
}
