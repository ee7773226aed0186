/**
 * The registry of canvas proxies: one map per entity class from the entity's
 * id to its proxy, with name lookups resolved through the backend store.
 */
module Proxies {
  import opened Optional
  import opened Geometry
  import opened Registry
  import opened Paths
  import opened Agvs
  import opened Stations
  import opened Store

  /**
   * The key a proxy is filed under: the id attribute of the entity it was
   * built from, which is `None` for an entity the store has not yet numbered.
   */
  type ProxyKey = Option<int>

  /** The registry, holding the backend store it resolves names through. */
  datatype QClassHolder = QClassHolder(
    backend: ClassHolder,
    qstations: map<ProxyKey, QStation>,
    qagvs: map<ProxyKey, QAgv>,
    qpathNodes: map<ProxyKey, QPathNode>)

  /** The registry after an add, and the proxy just built. */
  datatype QAdded<P> = QAdded(holder: QClassHolder, proxy: P)

  function NewQClassHolder(backend: ClassHolder): (q: QClassHolder)
    ensures q.backend == backend
    ensures q.qstations == map[] && q.qagvs == map[] && q.qpathNodes == map[]
  {
    QClassHolder(backend, map[], map[], map[])
  }

  // ---------------------------------------------------------------------------
  // Stations

  /** Builds the station's proxy and files it under the station's id, replacing any earlier one. */
  function AddQStation(q: QClassHolder, s: Station, trig: Trig): (r: QAdded<QStation>)
    ensures r.proxy == MakeQStation(s, trig)
    ensures r.holder.qstations == q.qstations[s.id := r.proxy]
    ensures r.holder.backend == q.backend
    ensures r.holder == q.(qstations := r.holder.qstations)
  {
    var p := MakeQStation(s, trig);
    QAdded(q.(qstations := q.qstations[s.id := p]), p)
  }

  function GetQStationById(q: QClassHolder, id: ProxyKey): (r: Option<QStation>)
    ensures r.Some? <==> id in q.qstations
    ensures r.Some? ==> r.value == q.qstations[id]
  {
    Get(q.qstations, id)
  }

  /**
   * Resolves the name to a station through the backend's name index, then
   * looks up the proxy filed under that station's id.
   */
  function GetQStationByName(q: QClassHolder, name: string): (r: Option<QStation>)
    ensures r.Some? <==> name in q.backend.stations.byName && q.backend.stations.byName[name].id in q.qstations
    ensures r.Some? ==> r.value == q.qstations[q.backend.stations.byName[name].id]
  {
    match GetStationByName(q.backend, name)
    case None => None
    case Some(s) => Get(q.qstations, s.id)
  }

  function DeleteQStation(q: QClassHolder, id: ProxyKey): (r: QClassHolder)
    ensures id !in q.qstations ==> r == q
    ensures r.qstations.Keys == q.qstations.Keys - {id}
    ensures forall k :: k in r.qstations ==> r.qstations[k] == q.qstations[k]
    ensures r.backend == q.backend
    ensures r == q.(qstations := r.qstations)
  {
    q.(qstations := q.qstations - {id})
  }

  /** Lists every registered station proxy exactly once (the listing order is open). */
  method GetAllQStations(q: QClassHolder) returns (all: seq<QStation>)
    ensures |all| == |q.qstations|
    ensures forall k :: k in q.qstations ==> q.qstations[k] in all
    ensures forall p :: p in all ==> p in q.qstations.Values
  {
    var ks;
    ks, all := ListEntries(q.qstations);
  }

  // ---------------------------------------------------------------------------
  // AGVs

  /** Builds the AGV's proxy and files it under the AGV's id, replacing any earlier one. */
  function AddQAgv(q: QClassHolder, a: Agv): (r: QAdded<QAgv>)
    ensures r.proxy == MakeQAgv(a)
    ensures r.holder.qagvs == q.qagvs[a.id := r.proxy]
    ensures r.holder.backend == q.backend
    ensures r.holder == q.(qagvs := r.holder.qagvs)
  {
    var p := MakeQAgv(a);
    QAdded(q.(qagvs := q.qagvs[a.id := p]), p)
  }

  function GetQAgvById(q: QClassHolder, id: ProxyKey): (r: Option<QAgv>)
    ensures r.Some? <==> id in q.qagvs
    ensures r.Some? ==> r.value == q.qagvs[id]
  {
    Get(q.qagvs, id)
  }

  /** Resolves the name through the backend's AGV name index, then looks up the proxy by that AGV's id. */
  function GetQAgvByName(q: QClassHolder, name: string): (r: Option<QAgv>)
    ensures r.Some? <==> name in q.backend.agvs.byName && q.backend.agvs.byName[name].id in q.qagvs
    ensures r.Some? ==> r.value == q.qagvs[q.backend.agvs.byName[name].id]
  {
    match GetAgvByName(q.backend, name)
    case None => None
    case Some(a) => Get(q.qagvs, a.id)
  }

  function DeleteQAgv(q: QClassHolder, id: ProxyKey): (r: QClassHolder)
    ensures id !in q.qagvs ==> r == q
    ensures r.qagvs.Keys == q.qagvs.Keys - {id}
    ensures forall k :: k in r.qagvs ==> r.qagvs[k] == q.qagvs[k]
    ensures r.backend == q.backend
    ensures r == q.(qagvs := r.qagvs)
  {
    q.(qagvs := q.qagvs - {id})
  }

  /** Lists every registered AGV proxy exactly once (the listing order is open). */
  method GetAllQAgvs(q: QClassHolder) returns (all: seq<QAgv>)
    ensures |all| == |q.qagvs|
    ensures forall k :: k in q.qagvs ==> q.qagvs[k] in all
    ensures forall p :: p in all ==> p in q.qagvs.Values
  {
    var ks;
    ks, all := ListEntries(q.qagvs);
  }

  // ---------------------------------------------------------------------------
  // Path nodes

  /** Builds the node's proxy and files it under the node's id, replacing any earlier one. */
  function AddQPathNode(q: QClassHolder, n: PathNode, trig: Trig): (r: QAdded<QPathNode>)
    ensures r.proxy == MakeQPathNode(n, trig)
    ensures r.holder.qpathNodes == q.qpathNodes[n.id := r.proxy]
    ensures r.holder.backend == q.backend
    ensures r.holder == q.(qpathNodes := r.holder.qpathNodes)
  {
    var p := MakeQPathNode(n, trig);
    QAdded(q.(qpathNodes := q.qpathNodes[n.id := p]), p)
  }

  function GetQPathNodeById(q: QClassHolder, id: ProxyKey): (r: Option<QPathNode>)
    ensures r.Some? <==> id in q.qpathNodes
    ensures r.Some? ==> r.value == q.qpathNodes[id]
  {
    Get(q.qpathNodes, id)
  }

  function DeleteQPathNode(q: QClassHolder, id: ProxyKey): (r: QClassHolder)
    ensures id !in q.qpathNodes ==> r == q
    ensures r.qpathNodes.Keys == q.qpathNodes.Keys - {id}
    ensures forall k :: k in r.qpathNodes ==> r.qpathNodes[k] == q.qpathNodes[k]
    ensures r.backend == q.backend
    ensures r == q.(qpathNodes := r.qpathNodes)
  {
    q.(qpathNodes := q.qpathNodes - {id})
  }

  /** Lists every registered path-node proxy exactly once (the listing order is open). */
  method GetAllQPathNodes(q: QClassHolder) returns (all: seq<QPathNode>)
    ensures |all| == |q.qpathNodes|
    ensures forall k :: k in q.qpathNodes ==> q.qpathNodes[k] in all
    ensures forall p :: p in all ==> p in q.qpathNodes.Values
  {
    var ks;
    ks, all := ListEntries(q.qpathNodes);
  }

  // ---------------------------------------------------------------------------
  // Store and registry together

  /**
   * A station added to the store and then given a proxy is found by its
   * (non-empty) name, and its proxy carries the derived port.
   */
  lemma AddedStationFoundByName(q: QClassHolder, s: Station, trig: Trig)
    requires s.name != ""
    ensures var r1 := AddStation(q.backend, s);
      var r2 := AddQStation(q.(backend := r1.holder), r1.entity, trig);
      && GetQStationByName(r2.holder, s.name) == Some(r2.proxy)
      && GetQStationById(r2.holder, r1.entity.id) == Some(r2.proxy)
      && PortConsistent(r2.proxy, trig)
  {
  }

  /** An AGV added to the store and then given a proxy is found by its (non-empty) name. */
  lemma AddedAgvFoundByName(q: QClassHolder, a: Agv)
    requires a.name != ""
    ensures var r1 := AddAgv(q.backend, a);
      var r2 := AddQAgv(q.(backend := r1.holder), r1.entity);
      GetQAgvByName(r2.holder, a.name) == Some(r2.proxy)
  {
  }

  /**
   * Deleting a station from the store alone makes its proxy unreachable by the
   * station's name, while the proxy stays registered under the station's id.
   */
  lemma DeletedStationUnreachableByName(q: QClassHolder, id: int)
    requires id in q.backend.stations.byId
    ensures var s := q.backend.stations.byId[id];
      GetQStationByName(q.(backend := DeleteStation(q.backend, id)), s.name).None?
    ensures Some(id) in q.qstations ==>
      GetQStationById(q.(backend := DeleteStation(q.backend, id)), Some(id)) == Some(q.qstations[Some(id)])
  {
  }
}
