/**
 * The backend entity store: stations and AGVs filed by id and by name, path
 * nodes by id, station types by name, and one identifier allocator per class.
 */
module Store {
  import opened Optional
  import opened Ids
  import opened Registry
  import opened Paths
  import opened Agvs
  import opened Stations

  /**
   * The store. `pathIds` allocates identifiers for paths, which the store
   * declares but never holds.
   */
  datatype ClassHolder = ClassHolder(
    stationIds: IdManager,
    agvIds: IdManager,
    pathIds: IdManager,
    pathNodeIds: IdManager,
    stations: Index<Station>,
    agvs: Index<Agv>,
    pathNodes: map<int, PathNode>,
    stationTypes: map<string, StationType>)

  /** The store after an add, and the entity as stored (with its id filled in). */
  datatype Added<T> = Added(holder: ClassHolder, entity: T)

  function NewClassHolder(): (h: ClassHolder)
    ensures h.stations == EmptyIndex() && h.agvs == EmptyIndex() && h.pathNodes == map[]
    ensures h.stationTypes == map[]
    ensures h.stationIds == Fresh() && h.agvIds == Fresh() && h.pathNodeIds == Fresh() && h.pathIds == Fresh()
    ensures WellFormed(h)
  {
    ClassHolder(Fresh(), Fresh(), Fresh(), Fresh(), EmptyIndex(), EmptyIndex(), map[], map[])
  }

  /**
   * The store keeps every entity under its own id, and every name entry under
   * that entity's own non-empty name.
   */
  ghost predicate WellFormed(h: ClassHolder)
  {
    && StationsFiled(h.stations)
    && AgvsFiled(h.agvs)
    && (forall id :: id in h.pathNodes ==> h.pathNodes[id].id == Some(id))
    && (forall n :: n in h.stationTypes ==> h.stationTypes[n].name == n)
  }

  ghost predicate StationsFiled(ix: Index<Station>)
  {
    && (forall id :: id in ix.byId ==> ix.byId[id].id == Some(id))
    && (forall n :: n in ix.byName ==> n != "" && ix.byName[n].name == n)
  }

  ghost predicate AgvsFiled(ix: Index<Agv>)
  {
    && (forall id :: id in ix.byId ==> ix.byId[id].id == Some(id))
    && (forall n :: n in ix.byName ==> n != "" && ix.byName[n].name == n)
  }

  // ---------------------------------------------------------------------------
  // Stations

  /**
   * Adds a station: an id is drawn only when the station has none; the station
   * is filed under its id and, when its name is non-empty, under its name,
   * overwriting whatever either key held.
   */
  function AddStation(h: ClassHolder, s: Station): (r: Added<Station>)
    ensures s.id.Some? ==> r.entity == s && r.holder.stationIds == h.stationIds
    ensures s.id.None? ==> r.entity == s.(id := Some(h.stationIds.counter + 1))
    ensures s.id.None? ==> r.holder.stationIds.counter == h.stationIds.counter + 1
    ensures r.entity.id.Some?
    ensures r.holder.stations == Put(h.stations, r.entity.id.value, s.name, r.entity)
    ensures r.holder == h.(stationIds := r.holder.stationIds, stations := r.holder.stations)
  {
    var s' := if s.id.None? then s.(id := Some(GetNewId(h.stationIds).id)) else s;
    var ids := if s.id.None? then GetNewId(h.stationIds).manager else h.stationIds;
    Added(h.(stationIds := ids, stations := Put(h.stations, s'.id.value, s'.name, s')), s')
  }

  function GetStationById(h: ClassHolder, id: int): (r: Option<Station>)
    ensures r.Some? <==> id in h.stations.byId
    ensures r.Some? ==> r.value == h.stations.byId[id]
  {
    Get(h.stations.byId, id)
  }

  function GetStationByName(h: ClassHolder, name: string): (r: Option<Station>)
    ensures r.Some? <==> name in h.stations.byName
    ensures r.Some? ==> r.value == h.stations.byName[name]
  {
    Get(h.stations.byName, name)
  }

  /**
   * Deletes a station: an absent id changes nothing; a present one loses its
   * id entry and the name entry keyed by its name, even when that name now
   * keys another station.
   */
  function DeleteStation(h: ClassHolder, id: int): (r: ClassHolder)
    ensures id !in h.stations.byId ==> r == h
    ensures id !in r.stations.byId
    ensures id in h.stations.byId ==> h.stations.byId[id].name !in r.stations.byName
    ensures r.stations.byId.Keys == h.stations.byId.Keys - {id}
    ensures forall k :: k in r.stations.byId ==> r.stations.byId[k] == h.stations.byId[k]
    ensures id in h.stations.byId ==> r.stations.byName.Keys == h.stations.byName.Keys - {h.stations.byId[id].name}
    ensures forall n :: n in r.stations.byName ==> r.stations.byName[n] == h.stations.byName[n]
    ensures r == h.(stations := r.stations)
  {
    h.(stations := Pop(h.stations, id, (s: Station) => s.name))
  }

  /** Lists every stored station exactly once (the listing order is open). */
  method GetAllStations(h: ClassHolder) returns (all: seq<Station>)
    ensures |all| == |h.stations.byId|
    ensures forall id :: id in h.stations.byId ==> h.stations.byId[id] in all
    ensures forall s :: s in all ==> s in h.stations.byId.Values
  {
    var ks;
    ks, all := ListEntries(h.stations.byId);
  }

  // ---------------------------------------------------------------------------
  // AGVs

  /** Adds an AGV under the same rules as a station, drawing from the AGV allocator. */
  function AddAgv(h: ClassHolder, a: Agv): (r: Added<Agv>)
    ensures a.id.Some? ==> r.entity == a && r.holder.agvIds == h.agvIds
    ensures a.id.None? ==> r.entity == a.(id := Some(h.agvIds.counter + 1))
    ensures a.id.None? ==> r.holder.agvIds.counter == h.agvIds.counter + 1
    ensures r.entity.id.Some?
    ensures r.holder.agvs == Put(h.agvs, r.entity.id.value, a.name, r.entity)
    ensures r.holder == h.(agvIds := r.holder.agvIds, agvs := r.holder.agvs)
  {
    var a' := if a.id.None? then a.(id := Some(GetNewId(h.agvIds).id)) else a;
    var ids := if a.id.None? then GetNewId(h.agvIds).manager else h.agvIds;
    Added(h.(agvIds := ids, agvs := Put(h.agvs, a'.id.value, a'.name, a')), a')
  }

  function GetAgvById(h: ClassHolder, id: int): (r: Option<Agv>)
    ensures r.Some? <==> id in h.agvs.byId
    ensures r.Some? ==> r.value == h.agvs.byId[id]
  {
    Get(h.agvs.byId, id)
  }

  function GetAgvByName(h: ClassHolder, name: string): (r: Option<Agv>)
    ensures r.Some? <==> name in h.agvs.byName
    ensures r.Some? ==> r.value == h.agvs.byName[name]
  {
    Get(h.agvs.byName, name)
  }

  /** Deletes an AGV under the same rules as a station. */
  function DeleteAgv(h: ClassHolder, id: int): (r: ClassHolder)
    ensures id !in h.agvs.byId ==> r == h
    ensures id !in r.agvs.byId
    ensures id in h.agvs.byId ==> h.agvs.byId[id].name !in r.agvs.byName
    ensures r.agvs.byId.Keys == h.agvs.byId.Keys - {id}
    ensures forall k :: k in r.agvs.byId ==> r.agvs.byId[k] == h.agvs.byId[k]
    ensures id in h.agvs.byId ==> r.agvs.byName.Keys == h.agvs.byName.Keys - {h.agvs.byId[id].name}
    ensures forall n :: n in r.agvs.byName ==> r.agvs.byName[n] == h.agvs.byName[n]
    ensures r == h.(agvs := r.agvs)
  {
    h.(agvs := Pop(h.agvs, id, (a: Agv) => a.name))
  }

  /** Lists every stored AGV exactly once (the listing order is open). */
  method GetAllAgvs(h: ClassHolder) returns (all: seq<Agv>)
    ensures |all| == |h.agvs.byId|
    ensures forall id :: id in h.agvs.byId ==> h.agvs.byId[id] in all
    ensures forall a :: a in all ==> a in h.agvs.byId.Values
  {
    var ks;
    ks, all := ListEntries(h.agvs.byId);
  }

  // ---------------------------------------------------------------------------
  // Path nodes

  /** Adds a path node under its id, drawing one from the path-node allocator only when it has none. */
  function AddPathNode(h: ClassHolder, n: PathNode): (r: Added<PathNode>)
    ensures n.id.Some? ==> r.entity == n && r.holder.pathNodeIds == h.pathNodeIds
    ensures n.id.None? ==> r.entity == n.(id := Some(h.pathNodeIds.counter + 1))
    ensures n.id.None? ==> r.holder.pathNodeIds.counter == h.pathNodeIds.counter + 1
    ensures r.entity.id.Some?
    ensures r.holder.pathNodes == h.pathNodes[r.entity.id.value := r.entity]
    ensures r.holder == h.(pathNodeIds := r.holder.pathNodeIds, pathNodes := r.holder.pathNodes)
  {
    var n' := if n.id.None? then n.(id := Some(GetNewId(h.pathNodeIds).id)) else n;
    var ids := if n.id.None? then GetNewId(h.pathNodeIds).manager else h.pathNodeIds;
    Added(h.(pathNodeIds := ids, pathNodes := h.pathNodes[n'.id.value := n']), n')
  }

  function GetPathNodeById(h: ClassHolder, id: int): (r: Option<PathNode>)
    ensures r.Some? <==> id in h.pathNodes
    ensures r.Some? ==> r.value == h.pathNodes[id]
  {
    Get(h.pathNodes, id)
  }

  /** Removes exactly the given key; an unknown id changes nothing. */
  function DeletePathNode(h: ClassHolder, id: int): (r: ClassHolder)
    ensures id !in h.pathNodes ==> r == h
    ensures r.pathNodes.Keys == h.pathNodes.Keys - {id}
    ensures forall k :: k in r.pathNodes ==> r.pathNodes[k] == h.pathNodes[k]
    ensures r == h.(pathNodes := r.pathNodes)
  {
    h.(pathNodes := h.pathNodes - {id})
  }

  /** Lists every stored path node exactly once (the listing order is open). */
  method GetAllPathNodes(h: ClassHolder) returns (all: seq<PathNode>)
    ensures |all| == |h.pathNodes|
    ensures forall id :: id in h.pathNodes ==> h.pathNodes[id] in all
    ensures forall n :: n in all ==> n in h.pathNodes.Values
  {
    var ks;
    ks, all := ListEntries(h.pathNodes);
  }

  // ---------------------------------------------------------------------------
  // Station types

  /** Files a type under its name, overwriting a same-named one (the catalogue refuses instead). */
  function AddStationType(h: ClassHolder, t: StationType): (r: ClassHolder)
    ensures r.stationTypes.Keys == h.stationTypes.Keys + {t.name} && r.stationTypes[t.name] == t
    ensures forall n :: n in h.stationTypes && n != t.name ==> r.stationTypes[n] == h.stationTypes[n]
    ensures r == h.(stationTypes := r.stationTypes)
  {
    h.(stationTypes := h.stationTypes[t.name := t])
  }

  function GetStationType(h: ClassHolder, name: string): (r: Option<StationType>)
    ensures r.Some? <==> name in h.stationTypes
    ensures r.Some? ==> r.value == h.stationTypes[name]
  {
    Get(h.stationTypes, name)
  }

  function DeleteStationType(h: ClassHolder, name: string): (r: ClassHolder)
    ensures name !in h.stationTypes ==> r == h
    ensures r.stationTypes.Keys == h.stationTypes.Keys - {name}
    ensures forall n :: n in r.stationTypes ==> r.stationTypes[n] == h.stationTypes[n]
    ensures r == h.(stationTypes := r.stationTypes)
  {
    h.(stationTypes := h.stationTypes - {name})
  }

  // ---------------------------------------------------------------------------
  // Properties of the store

  /**
   * After an add, the station is found under its id; it is found under its
   * name exactly when the name is non-empty, and an empty name leaves every
   * name lookup as it was.
   */
  lemma AddStationThenLookup(h: ClassHolder, s: Station)
    ensures var r := AddStation(h, s);
      GetStationById(r.holder, r.entity.id.value) == Some(r.entity)
    ensures s.name != "" ==> GetStationByName(AddStation(h, s).holder, s.name) == Some(AddStation(h, s).entity)
    ensures s.name == "" ==> forall n :: GetStationByName(AddStation(h, s).holder, n) == GetStationByName(h, n)
  {
  }

  /**
   * Two stations with the same name and different ids: both stay filed under
   * their ids, and the name now finds only the second.
   */
  lemma StationNameCollision(h: ClassHolder, a: Station, b: Station)
    requires a.name == b.name && a.name != ""
    requires a.id.Some? && b.id.Some? && a.id != b.id
    ensures var h2 := AddStation(AddStation(h, a).holder, b).holder;
      && GetStationById(h2, a.id.value) == Some(a)
      && GetStationById(h2, b.id.value) == Some(b)
      && GetStationByName(h2, a.name) == Some(b)
  {
  }

  /**
   * Deleting the first of two same-named stations removes the name entry that
   * now keys the second, so the second, still stored, is no longer found by name.
   */
  lemma DeleteDropsNewerNameEntry(h: ClassHolder, a: Station, b: Station)
    requires a.name == b.name && a.name != ""
    requires a.id.Some? && b.id.Some? && a.id != b.id
    ensures var h3 := DeleteStation(AddStation(AddStation(h, a).holder, b).holder, a.id.value);
      && GetStationById(h3, b.id.value) == Some(b)
      && GetStationByName(h3, b.name).None?
  {
  }

  /** For every class, add, then delete by the id it was stored under, then look up: not found. */
  lemma AddDeleteGet(h: ClassHolder, s: Station, a: Agv, n: PathNode)
    ensures var r := AddStation(h, s); GetStationById(DeleteStation(r.holder, r.entity.id.value), r.entity.id.value).None?
    ensures var r := AddAgv(h, a); GetAgvById(DeleteAgv(r.holder, r.entity.id.value), r.entity.id.value).None?
    ensures var r := AddPathNode(h, n); GetPathNodeById(DeletePathNode(r.holder, r.entity.id.value), r.entity.id.value).None?
  {
  }

  /** Station, AGV and path-node identifiers come from separate allocators: each class starts at 1. */
  lemma IndependentAllocators(s: Station, a: Agv, n: PathNode)
    requires s.id.None? && a.id.None? && n.id.None?
    ensures var r1 := AddStation(NewClassHolder(), s);
      var r2 := AddAgv(r1.holder, a);
      var r3 := AddPathNode(r2.holder, n);
      r1.entity.id == Some(1) && r2.entity.id == Some(1) && r3.entity.id == Some(1)
  {
  }

  /** The store overwrites a same-named type where the catalogue keeps the one it has. */
  lemma TypeOverwriteVersusRefuse(h: ClassHolder, m: StationTypeManager, t: StationType)
    requires t.name in h.stationTypes && t.name in m.types
    ensures GetStationType(AddStationType(h, t), t.name) == Some(t)
    ensures GetType(AddType(m, t).manager, t.name) == Some(m.types[t.name])
  {
  }

  /** Adding or deleting a station keeps every entity under its own id and name. */
  lemma StationOpsKeepWellFormed(h: ClassHolder, s: Station, id: int)
    requires WellFormed(h)
    ensures WellFormed(AddStation(h, s).holder)
    ensures WellFormed(DeleteStation(h, id))
  {
    var r := AddStation(h, s);
    assert StationsFiled(r.holder.stations);
    assert StationsFiled(DeleteStation(h, id).stations);
  }

  /** Adding or deleting an AGV keeps every entity under its own id and name. */
  lemma AgvOpsKeepWellFormed(h: ClassHolder, a: Agv, id: int)
    requires WellFormed(h)
    ensures WellFormed(AddAgv(h, a).holder)
    ensures WellFormed(DeleteAgv(h, id))
  {
    var r := AddAgv(h, a);
    assert AgvsFiled(r.holder.agvs);
    assert AgvsFiled(DeleteAgv(h, id).agvs);
  }

  /** Path-node and station-type operations keep every entity under its own id and name. */
  lemma OtherOpsKeepWellFormed(h: ClassHolder, n: PathNode, t: StationType, id: int, name: string)
    requires WellFormed(h)
    ensures WellFormed(AddPathNode(h, n).holder)
    ensures WellFormed(AddStationType(h, t))
    ensures WellFormed(DeletePathNode(h, id))
    ensures WellFormed(DeleteStationType(h, name))
  {
  }
}
