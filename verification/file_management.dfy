/**
 * The persistence layer, reduced to the abstract document: which fields of
 * which entities are written, the rules the loader applies while reading them
 * back, and the reset that precedes a load. The document's text syntax is not
 * modelled.
 */
module Persistence {
  import opened Optional
  import opened Geometry
  import opened Ids
  import opened Registry
  import opened Paths
  import opened Agvs
  import opened Stations
  import opened Store
  import opened Proxies

  /** A station type as written: name, colour and description only. */
  datatype TypeElem = TypeElem(name: string, color: string, description: string)

  /** A station as written. */
  datatype StationElem = StationElem(
    id: int, name: string, x: real, y: real, typeName: string, direction: real,
    width: real, length: real, height: real, meshPath: Option<string>)

  /** A path node as written: no name, no adjacency. */
  datatype NodeElem = NodeElem(id: int, x: real, y: real, direction: real)

  /** An AGV as written; `latestNodeId` is present only when the AGV has a latest node. */
  datatype AgvElem = AgvElem(
    id: int, name: string, x: real, y: real, direction: real, status: string,
    width: real, length: real, height: real, latestNodeId: Option<int>)

  /** The saved layout. Element order within a section is not modelled. */
  datatype Document = Document(
    mapSize: int,
    stationTypes: set<TypeElem>,
    stations: set<StationElem>,
    nodes: set<NodeElem>,
    agvs: set<AgvElem>)

  // ---------------------------------------------------------------------------
  // Export

  function TypeElemOf(t: StationType): TypeElem
  {
    TypeElem(t.name, t.color, t.description)
  }

  function StationElemOf(id: int, s: Station): StationElem
  {
    StationElem(id, s.name, s.position.x, s.position.y, s.stationType.name, s.direction,
                s.size.width, s.size.length, s.size.height, s.meshPath)
  }

  function NodeElemOf(id: int, n: PathNode): NodeElem
  {
    NodeElem(id, n.position.x, n.position.y, n.direction)
  }

  function AgvElemOf(id: int, a: Agv): AgvElem
  {
    AgvElem(id, a.name, a.position.x, a.position.y, a.direction, StatusText(a.status),
            a.size.width, a.size.length, a.size.height, a.latestNode)
  }

  /**
   * Builds the document from the catalogue and the store: one element per
   * catalogue type and per stored station, node and AGV, each under the id it
   * is stored under.
   */
  function Export(mapSize: int, types: StationTypeManager, h: ClassHolder): (d: Document)
    ensures d.mapSize == mapSize
    ensures forall n :: n in types.types ==> TypeElemOf(types.types[n]) in d.stationTypes
    ensures forall id :: id in h.stations.byId ==> StationElemOf(id, h.stations.byId[id]) in d.stations
    ensures forall id :: id in h.pathNodes ==> NodeElemOf(id, h.pathNodes[id]) in d.nodes
    ensures forall id :: id in h.agvs.byId ==> AgvElemOf(id, h.agvs.byId[id]) in d.agvs
    ensures forall e :: e in d.stationTypes ==> exists n :: n in types.types && e == TypeElemOf(types.types[n])
    ensures forall e :: e in d.stations ==> e.id in h.stations.byId && e == StationElemOf(e.id, h.stations.byId[e.id])
    ensures forall e :: e in d.nodes ==> e.id in h.pathNodes && e == NodeElemOf(e.id, h.pathNodes[e.id])
    ensures forall e :: e in d.agvs ==> e.id in h.agvs.byId && e == AgvElemOf(e.id, h.agvs.byId[e.id])
  {
    Document(
      mapSize,
      set n | n in types.types :: TypeElemOf(types.types[n]),
      set id | id in h.stations.byId :: StationElemOf(id, h.stations.byId[id]),
      set id | id in h.pathNodes :: NodeElemOf(id, h.pathNodes[id]),
      set id | id in h.agvs.byId :: AgvElemOf(id, h.agvs.byId[id]))
  }

  /** In a well-formed store the id written for each entity is the entity's own id. */
  lemma ExportWritesOwnIds(mapSize: int, types: StationTypeManager, h: ClassHolder)
    requires WellFormed(h)
    ensures forall e :: e in Export(mapSize, types, h).stations ==> h.stations.byId[e.id].id == Some(e.id)
    ensures forall e :: e in Export(mapSize, types, h).agvs ==> h.agvs.byId[e.id].id == Some(e.id)
    ensures forall e :: e in Export(mapSize, types, h).nodes ==> h.pathNodes[e.id].id == Some(e.id)
  {
  }

  /** The document has exactly as many station, node and AGV elements as the store has entries. */
  lemma ExportCounts(mapSize: int, types: StationTypeManager, h: ClassHolder)
    ensures |Export(mapSize, types, h).stations| == |h.stations.byId|
    ensures |Export(mapSize, types, h).nodes| == |h.pathNodes|
    ensures |Export(mapSize, types, h).agvs| == |h.agvs.byId|
  {
    var d := Export(mapSize, types, h);
    KeyedImageSize(h.stations.byId, d.stations, (e: StationElem) => e.id);
    KeyedImageSize(h.pathNodes, d.nodes, (e: NodeElem) => e.id);
    KeyedImageSize(h.agvs.byId, d.agvs, (e: AgvElem) => e.id);
  }

  /** Types that differ only in port geometry are written identically: the port pose is not saved. */
  lemma PortGeometryNotSaved(t: StationType, portX: real, portY: real, portDirection: real)
    ensures TypeElemOf(t.(portX := portX, portY := portY, portDirection := portDirection)) == TypeElemOf(t)
  {
  }

  /** The latest-node element is written exactly when the AGV has a latest node. */
  lemma LatestNodeWrittenOnlyIfPresent(id: int, a: Agv)
    ensures AgvElemOf(id, a).latestNodeId.Some? <==> a.latestNode.Some?
  {
  }

  // ---------------------------------------------------------------------------
  // Load rules

  /**
   * Reads station types into the catalogue: each becomes a type with the
   * default port pose, and a name already in the catalogue is refused.
   */
  function LoadStationTypes(m: StationTypeManager, elems: seq<TypeElem>): (r: StationTypeManager)
    ensures m.types.Keys <= r.types.Keys
    decreases |elems|
  {
    if |elems| == 0 then m
    else
      var e := elems[0];
      LoadStationTypes(AddType(m, NewStationType(e.name, e.color, e.description)).manager, elems[1..])
  }

  /**
   * After loading, every written name is in the catalogue; types already there
   * are kept as they were; every newly added type carries the default port pose.
   */
  lemma {:induction false} LoadStationTypesKeepsExisting(m: StationTypeManager, elems: seq<TypeElem>)
    ensures LoadStationTypes(m, elems).types.Keys == m.types.Keys + Names(elems)
    ensures forall n :: n in m.types ==> n in LoadStationTypes(m, elems).types && LoadStationTypes(m, elems).types[n] == m.types[n]
    ensures forall n :: n in LoadStationTypes(m, elems).types && n !in m.types ==>
      var t := LoadStationTypes(m, elems).types[n];
      t.portX == 1.5 && t.portY == 0.0 && t.portDirection == 0.0
    decreases |elems|
  {
    if |elems| > 0 {
      var e := elems[0];
      var m1 := AddType(m, NewStationType(e.name, e.color, e.description)).manager;
      LoadStationTypesKeepsExisting(m1, elems[1..]);
      assert LoadStationTypes(m, elems) == LoadStationTypes(m1, elems[1..]);
      assert Names(elems) == {e.name} + Names(elems[1..]) by {
        assert forall x :: x in elems <==> x == e || x in elems[1..];
      }
    }
  }

  /** The names carried by a sequence of type elements. */
  function Names(elems: seq<TypeElem>): set<string>
  {
    set e | e in elems :: e.name
  }

  /**
   * Builds the station an element describes, with the catalogue's type of
   * that name, or nothing when the catalogue has no such type.
   */
  function LoadStation(e: StationElem, m: StationTypeManager): (r: Option<Station>)
    ensures r.None? <==> e.typeName !in m.types
    ensures r.Some? ==> && r.value.stationType == m.types[e.typeName]
                        && r.value.id == Some(e.id) && r.value.name == e.name
                        && r.value.position == Vec2(e.x, e.y) && r.value.direction == e.direction
                        && r.value.size == Size3(e.width, e.length, e.height)
                        && r.value.meshPath == e.meshPath && r.value.port.None?
  {
    match GetType(m, e.typeName)
    case None => None
    case Some(t) =>
      var s := NewStation(e.x, e.y, t, e.name, Some(e.id)).(direction := e.direction);
      Some(Set3dSize(s, e.width, e.length, e.height).(meshPath := e.meshPath))
  }

  /**
   * The positions, in document order, of the station elements whose type the
   * catalogue knows: the elements the loader turns into stations.
   */
  function KnownIndices(elems: seq<StationElem>, m: StationTypeManager, from: nat): (ix: seq<nat>)
    requires from <= |elems|
    ensures forall j :: 0 <= j < |ix| ==> from <= ix[j] < |elems| && elems[ix[j]].typeName in m.types
    ensures forall j, k :: 0 <= j < k < |ix| ==> ix[j] < ix[k]
    ensures forall i :: from <= i < |elems| && elems[i].typeName in m.types ==> i in ix
    decreases |elems| - from
  {
    if from == |elems| then []
    else (if elems[from].typeName in m.types then [from] else []) + KnownIndices(elems, m, from + 1)
  }

  /**
   * Loads the stations in document order, skipping every element whose type
   * is unknown: one station per known-type element, in the same order.
   */
  function LoadStations(elems: seq<StationElem>, m: StationTypeManager): (r: seq<Station>)
    ensures var ix := KnownIndices(elems, m, 0);
      && |r| == |ix|
      && forall j :: 0 <= j < |r| ==> LoadStation(elems[ix[j]], m) == Some(r[j])
    ensures forall s :: s in r <==> exists i :: 0 <= i < |elems| && LoadStation(elems[i], m) == Some(s)
  {
    var r := LoadStationsFrom(elems, m, 0);
    LoadStationsFromIndexed(elems, m, 0);
    LoadedAreExactlyKnown(elems, m, r);
    r
  }

  function LoadStationsFrom(elems: seq<StationElem>, m: StationTypeManager, from: nat): seq<Station>
    requires from <= |elems|
    decreases |elems| - from
  {
    if from == |elems| then []
    else
      var rest := LoadStationsFrom(elems, m, from + 1);
      match LoadStation(elems[from], m)
      case None => rest
      case Some(s) => [s] + rest
  }

  /** The stations loaded from position `from` on correspond, one for one and in order, to the known-type elements. */
  lemma {:induction false} LoadStationsFromIndexed(elems: seq<StationElem>, m: StationTypeManager, from: nat)
    requires from <= |elems|
    ensures var r := LoadStationsFrom(elems, m, from);
      var ix := KnownIndices(elems, m, from);
      && |r| == |ix|
      && forall j :: 0 <= j < |r| ==> LoadStation(elems[ix[j]], m) == Some(r[j])
    decreases |elems| - from
  {
    if from < |elems| {
      LoadStationsFromIndexed(elems, m, from + 1);
      var rest := LoadStationsFrom(elems, m, from + 1);
      var later := KnownIndices(elems, m, from + 1);
      match LoadStation(elems[from], m)
      case None =>
        assert KnownIndices(elems, m, from) == later;
      case Some(s) =>
        assert KnownIndices(elems, m, from) == [from] + later;
        assert LoadStationsFrom(elems, m, from) == [s] + rest;
    }
  }

  /**
   * A sequence built one-for-one from the known-type elements holds exactly
   * the stations some element loads to.
   */
  lemma LoadedAreExactlyKnown(elems: seq<StationElem>, m: StationTypeManager, r: seq<Station>)
    requires var ix := KnownIndices(elems, m, 0);
      && |r| == |ix|
      && forall j :: 0 <= j < |r| ==> LoadStation(elems[ix[j]], m) == Some(r[j])
    ensures forall s :: s in r <==> exists i :: 0 <= i < |elems| && LoadStation(elems[i], m) == Some(s)
  {
    var ix := KnownIndices(elems, m, 0);
    forall s | s in r
      ensures exists i :: 0 <= i < |elems| && LoadStation(elems[i], m) == Some(s)
    {
      var j :| 0 <= j < |r| && r[j] == s;
      assert LoadStation(elems[ix[j]], m) == Some(s);
    }
    forall s, i | 0 <= i < |elems| && LoadStation(elems[i], m) == Some(s)
      ensures s in r
    {
      assert i in ix;
      var j :| 0 <= j < |ix| && ix[j] == i;
      assert r[j] == s;
    }
  }

  /**
   * The node an AGV's latest-node element refers to: found only when the
   * element is present and names a node read from the same document.
   */
  function LinkLatestNode(e: AgvElem, loaded: map<int, PathNode>): (r: Option<PathNode>)
    ensures r.Some? <==> e.latestNodeId.Some? && e.latestNodeId.value in loaded
    ensures r.Some? ==> r.value == loaded[e.latestNodeId.value]
  {
    match e.latestNodeId
    case None => None
    case Some(id) => Get(loaded, id)
  }

  // ---------------------------------------------------------------------------
  // Reset before load

  /**
   * Empties the stations, AGVs and path nodes of the store and the registry and
   * resets their three allocators. Station types, the path allocator and the
   * registry's link to its store are kept.
   */
  function ClearExistingData(q: QClassHolder): (r: QClassHolder)
    ensures r.backend.stations == EmptyIndex() && r.backend.agvs == EmptyIndex() && r.backend.pathNodes == map[]
    ensures r.qstations == map[] && r.qagvs == map[] && r.qpathNodes == map[]
    ensures r.backend.stationIds.counter == 0 && r.backend.agvIds.counter == 0 && r.backend.pathNodeIds.counter == 0
    ensures r.backend.stationTypes == q.backend.stationTypes
    ensures r.backend.pathIds == q.backend.pathIds
  {
    var h := q.backend;
    var h' := h.(stations := EmptyIndex(), agvs := EmptyIndex(), pathNodes := map[],
                 stationIds := ResetIds(h.stationIds), agvIds := ResetIds(h.agvIds),
                 pathNodeIds := ResetIds(h.pathNodeIds));
    QClassHolder(h', map[], map[], map[])
  }

  /** After a reset the store is well formed and the next station, AGV and path node each get id 1. */
  lemma ClearThenAdd(q: QClassHolder, s: Station, a: Agv, n: PathNode)
    requires s.id.None? && a.id.None? && n.id.None?
    ensures var h := ClearExistingData(q).backend;
      && WellFormed(h) == (forall k :: k in h.stationTypes ==> h.stationTypes[k].name == k)
      && AddStation(h, s).entity.id == Some(1)
      && AddAgv(h, a).entity.id == Some(1)
      && AddPathNode(h, n).entity.id == Some(1)
  {
  }
}
