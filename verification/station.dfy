/**
 * Station types and their catalogue, stations, and the canvas proxy of a
 * station that derives the station's port: a path node placed at the type's
 * port offset rotated by the station's heading.
 */
module Stations {
  import opened Optional
  import opened Geometry
  import opened Paths

  /** A kind of station, with the pose of its port relative to the station. */
  datatype StationType = StationType(
    name: string,
    color: string,
    description: string,
    portX: real,
    portY: real,
    portDirection: real)

  function NewStationType(name: string, color: string, description: string := "",
                          portX: real := 1.5, portY: real := 0.0, portDirection: real := 0.0): (t: StationType)
    ensures t.name == name && t.color == color && t.description == description
    ensures t.portX == portX && t.portY == portY && t.portDirection == portDirection
  {
    StationType(name, color, description, portX, portY, portDirection)
  }

  /** A type built from name and colour alone has an empty description and its port 1.5 m ahead, facing the same way. */
  lemma StationTypeDefaults(name: string, color: string)
    ensures NewStationType(name, color).description == ""
    ensures NewStationType(name, color).portX == 1.5 && NewStationType(name, color).portY == 0.0
    ensures NewStationType(name, color).portDirection == 0.0
  {
  }

  // ---------------------------------------------------------------------------
  // The station type catalogue

  /** The catalogue of station types, keyed by name. */
  datatype StationTypeManager = StationTypeManager(types: map<string, StationType>)

  /** The catalogue after an add request, and whether the type went in. */
  datatype TypeAdded = TypeAdded(manager: StationTypeManager, added: bool)

  /** The catalogue after a remove request, and whether anything was removed. */
  datatype TypeRemoved = TypeRemoved(manager: StationTypeManager, removed: bool)

  /** Adds a type unless its name is already taken; a taken name leaves the catalogue as it was. */
  function AddType(m: StationTypeManager, t: StationType): (r: TypeAdded)
    ensures r.added <==> t.name !in m.types
    ensures !r.added ==> r.manager == m
    ensures r.added ==> r.manager.types == m.types[t.name := t]
  {
    if t.name in m.types then TypeAdded(m, false)
    else TypeAdded(StationTypeManager(m.types[t.name := t]), true)
  }

  function GetType(m: StationTypeManager, name: string): (r: Option<StationType>)
    ensures r.Some? <==> name in m.types
    ensures r.Some? ==> r.value == m.types[name]
  {
    Get(m.types, name)
  }

  /** A copy of the catalogue with the same entries. */
  function GetAllTypes(m: StationTypeManager): (r: map<string, StationType>)
    ensures r.Keys == m.types.Keys
    ensures forall n :: n in r ==> r[n] == m.types[n]
  {
    m.types
  }

  function RemoveType(m: StationTypeManager, name: string): (r: TypeRemoved)
    ensures r.removed <==> name in m.types
    ensures name !in r.manager.types
    ensures forall n :: n != name ==> (n in r.manager.types <==> n in m.types)
    ensures forall n :: n != name && n in m.types ==> r.manager.types[n] == m.types[n]
  {
    if name in m.types then TypeRemoved(StationTypeManager(m.types - {name}), true)
    else TypeRemoved(m, false)
  }

  /** The four types every catalogue starts with. */
  function DefaultTypes(): seq<StationType>
  {
    [ NewStationType("Loading", "#4CAF50", "Loading station for materials"),
      NewStationType("Unloading", "#f44336", "Unloading station for materials"),
      NewStationType("Charging", "#FFC107", "QAGV charging station"),
      NewStationType("Storage", "#2196F3", "Storage location") ]
  }

  /** A fresh catalogue holds exactly the four default types, each under its own name. */
  function NewManager(): (m: StationTypeManager)
    ensures m.types.Keys == {"Loading", "Unloading", "Charging", "Storage"}
    ensures forall i :: 0 <= i < |DefaultTypes()| ==> m.types[DefaultTypes()[i].name] == DefaultTypes()[i]
  {
    var d := DefaultTypes();
    var m0 := StationTypeManager(map[]);
    var m1 := AddType(m0, d[0]).manager;
    var m2 := AddType(m1, d[1]).manager;
    var m3 := AddType(m2, d[2]).manager;
    AddType(m3, d[3]).manager
  }

  /** Adding then looking up: a new name yields the new type, a taken name the type already there. */
  lemma AddTypeThenGet(m: StationTypeManager, t: StationType)
    ensures t.name !in m.types ==> GetType(AddType(m, t).manager, t.name) == Some(t)
    ensures t.name in m.types ==> GetType(AddType(m, t).manager, t.name) == Some(m.types[t.name])
  {
  }

  // ---------------------------------------------------------------------------
  // Stations

  /**
   * A station. `port` stays `None` on the record: the derived port lives in
   * the station's canvas proxy.
   */
  datatype Station = Station(
    position: Vec2,
    stationType: StationType,
    name: string,
    id: Option<int>,
    size: Size3,
    direction: real,
    port: Option<PathNode>,
    meshPath: Option<string>)

  function NewStation(x: real, y: real, stationType: StationType, name: string, id: Option<int> := None): (s: Station)
    ensures s.position == Vec2(x, y) && s.stationType == stationType && s.name == name && s.id == id
    ensures s.size == Size3(1.0, 1.0, 1.0) && s.direction == 0.0
    ensures s.port.None? && s.meshPath.None?
  {
    Station(Vec2(x, y), stationType, name, id, Size3(1.0, 1.0, 1.0), 0.0, None, None)
  }

  function Set3dSize(s: Station, width: real, length: real, height: real): (r: Station)
    ensures r.size == Size3(width, length, height)
    ensures r == s.(size := r.size)
  {
    s.(size := Size3(width, length, height))
  }

  /** The port's position: the station's position plus the type's offset turned by the heading. */
  function PortPosition(s: Station, trig: Trig): (p: Vec2)
    ensures s.stationType.portX == 0.0 && s.stationType.portY == 0.0 ==> p == s.position
  {
    var a := Radians(s.direction);
    Add2(s.position, Rotate(Vec2(s.stationType.portX, s.stationType.portY), trig.cos(a), trig.sin(a)))
  }

  /** The port's heading: station heading plus the type's port direction, reduced modulo 360. */
  function PortHeading(s: Station): (h: real)
    ensures 0.0 <= h < 360.0
    ensures 0.0 <= s.direction + s.stationType.portDirection < 360.0 ==> h == s.direction + s.stationType.portDirection
  {
    FloorMod(s.direction + s.stationType.portDirection, 360.0)
  }

  /** Turning a station by whole turns does not change its port heading. */
  lemma PortHeadingWholeTurns(s: Station, k: int)
    ensures PortHeading(s.(direction := s.direction + k as real * 360.0)) == PortHeading(s)
  {
    var a := s.direction + s.stationType.portDirection;
    assert s.direction + k as real * 360.0 + s.stationType.portDirection == a + k as real * 360.0;
    FloorModPeriodic(a, k, 360.0);
  }

  /** With a genuine cosine/sine pair the port sits exactly the offset's length from the station. */
  lemma PortDistance(s: Station, trig: Trig)
    requires var a := Radians(s.direction); trig.cos(a) * trig.cos(a) + trig.sin(a) * trig.sin(a) == 1.0
    ensures var p := PortPosition(s, trig);
      Norm2Sq(Vec2(p.x - s.position.x, p.y - s.position.y)) == Norm2Sq(Vec2(s.stationType.portX, s.stationType.portY))
  {
    var a := Radians(s.direction);
    RotatePreservesLength(Vec2(s.stationType.portX, s.stationType.portY), trig.cos(a), trig.sin(a));
  }

  // ---------------------------------------------------------------------------
  // The station's canvas proxy

  /**
   * The canvas proxy of a station: the station, its body rectangle in scene
   * units and the proxy of its derived port, if built yet.
   */
  datatype QStation = QStation(station: Station, rect: Rect, qport: Option<QPathNode>)

  /** The port proxy agrees with the station's current position, heading and type. */
  ghost predicate PortConsistent(q: QStation, trig: Trig)
  {
    && q.qport.Some?
    && q.qport.value.node.position == PortPosition(q.station, trig)
    && q.qport.value.node.direction == PortHeading(q.station)
    && SceneCentre(q.qport.value) == ToScene(PortPosition(q.station, trig))
  }

  /** The body rectangle: `length` across, `width` down, centred on the station's scene point. */
  function StationRect(s: Station): (r: Rect)
    ensures Centre(r) == ToScene(s.position)
    ensures r.w == s.size.length * SceneScale && r.h == s.size.width * SceneScale
  {
    Rect(s.position.x * SceneScale - s.size.length / 2.0 * SceneScale,
         -(s.position.y * SceneScale) - s.size.width / 2.0 * SceneScale,
         s.size.length * SceneScale,
         s.size.width * SceneScale)
  }

  /**
   * Moves an existing port proxy to a new pose in place: the node keeps its id,
   * name and adjacency, and is drawn centred on its new scene point.
   */
  function MovePort(q: QPathNode, p: Vec2, heading: real, trig: Trig): (r: QPathNode)
    ensures r.node == q.node.(position := p, direction := heading)
    ensures SceneCentre(r) == ToScene(p)
    ensures r.arrow == ArrowPolygon(trig, heading)
  {
    q.(node := q.node.(position := p, direction := heading),
       rect := NodeRect(p), pos := Vec2(0.0, 0.0), arrow := ArrowPolygon(trig, heading))
  }

  /**
   * Re-derives the port from the station: builds the port node the first time
   * (no id, named after the station), moves the same node on every later call.
   */
  function UpdatePort(q: QStation, trig: Trig): (r: QStation)
    ensures r.station == q.station && r.rect == q.rect
    ensures PortConsistent(r, trig)
    ensures q.qport.None? ==> r.qport.value.node.id.None? && r.qport.value.node.name == Some(q.station.name + " Port")
    ensures q.qport.None? ==> r.qport.value.pos == Vec2(0.0, 0.0)
    ensures q.qport.Some? ==> && r.qport.value.node.id == q.qport.value.node.id
                              && r.qport.value.node.name == q.qport.value.node.name
                              && r.qport.value.node.connectedPaths == q.qport.value.node.connectedPaths
  {
    var p := PortPosition(q.station, trig);
    var h := PortHeading(q.station);
    match q.qport
    case None =>
      var node := NewPathNode(p.x, p.y, h, None, Some(q.station.name + " Port"));
      q.(qport := Some(MakeQPathNode(node, trig)))
    case Some(qp) =>
      q.(qport := Some(MovePort(qp, p, h, trig)))
  }

  function MakeQStation(s: Station, trig: Trig): (q: QStation)
    ensures q.station == s
    ensures Centre(q.rect) == ToScene(s.position)
    ensures q.rect.w == s.size.length * SceneScale && q.rect.h == s.size.width * SceneScale
    ensures PortConsistent(q, trig)
    ensures q.qport.value.pos == Vec2(0.0, 0.0)
  {
    UpdatePort(QStation(s, StationRect(s), None), trig)
  }

  /** Sets the heading and re-derives the port, reusing the existing port node. */
  function SetStationDirection(q: QStation, angle: real, trig: Trig): (r: QStation)
    ensures r.station == q.station.(direction := angle)
    ensures PortConsistent(r, trig)
    ensures q.qport.Some? ==> && r.qport.value.node.id == q.qport.value.node.id
                              && r.qport.value.node.name == q.qport.value.node.name
  {
    UpdatePort(q.(station := q.station.(direction := angle)), trig)
  }

  /**
   * A Loading station at (2, 3) turned to 90 degrees has its port at (2, 4.5)
   * facing 90 degrees, given cos 90 = 0 and sin 90 = 1.
   */
  lemma PortScenario(trig: Trig)
    requires trig.cos(Radians(90.0)) == 0.0 && trig.sin(Radians(90.0)) == 1.0
    ensures var q := SetStationDirection(MakeQStation(NewStation(2.0, 3.0, DefaultTypes()[0], "S1"), trig), 90.0, trig);
      && q.qport.value.node.position == Vec2(2.0, 4.5)
      && q.qport.value.node.direction == 90.0
  {
    var t := DefaultTypes()[0];
    assert t.portX == 1.5 && t.portY == 0.0 && t.portDirection == 0.0;
    var s0 := NewStation(2.0, 3.0, t, "S1");
    var q := SetStationDirection(MakeQStation(s0, trig), 90.0, trig);
    var s := s0.(direction := 90.0);
    assert q.station == s;
    assert Rotate(Vec2(1.5, 0.0), 0.0, 1.0) == Vec2(0.0, 1.5);
    assert PortPosition(s, trig) == Vec2(2.0, 4.5);
    assert PortHeading(s) == 90.0;
  }

  // ---------------------------------------------------------------------------
  // The port move as the source writes it

  /**
   * The move of an existing port as written: the node's item offset is set to
   * the port's scene point, while its circle is still drawn at the absolute
   * scene point it was built at, so the two add up.
   */
  function MovePortAsWritten(q: QPathNode, p: Vec2, heading: real, trig: Trig): (r: QPathNode)
    ensures r.node == q.node.(position := p, direction := heading)
    ensures r.rect == q.rect
    ensures SceneCentre(r) == Add2(ToScene(p), Centre(q.rect))
  {
    q.(node := q.node.(position := p, direction := heading), pos := ToScene(p),
       arrow := ArrowPolygon(trig, heading))
  }

  /**
   * A station at (1, 0) facing 0 degrees, of a type with the default port pose,
   * gets a fresh port proxy for (2.5, 0): a circle built around scene point
   * (250, 0) and not offset.
   */
  lemma FreshPortAt(t: StationType, trig: Trig)
    requires t.portX == 1.5 && t.portY == 0.0 && t.portDirection == 0.0
    requires trig.cos(Radians(0.0)) == 1.0 && trig.sin(Radians(0.0)) == 0.0
    ensures var qp := MakeQStation(NewStation(1.0, 0.0, t, "S1"), trig).qport.value;
      && qp.node.position == Vec2(2.5, 0.0)
      && qp.pos == Vec2(0.0, 0.0)
      && Centre(qp.rect) == Vec2(250.0, 0.0)
  {
    PortAheadOfStation(t, trig);
    var qp := MakeQStation(NewStation(1.0, 0.0, t, "S1"), trig).qport.value;
    assert SceneCentre(qp) == Vec2(250.0, 0.0);
  }

  /** The default port of a station at (1, 0) facing 0 degrees lies 1.5 m ahead, at (2.5, 0). */
  lemma PortAheadOfStation(t: StationType, trig: Trig)
    requires t.portX == 1.5 && t.portY == 0.0 && t.portDirection == 0.0
    requires trig.cos(Radians(0.0)) == 1.0 && trig.sin(Radians(0.0)) == 0.0
    ensures PortPosition(NewStation(1.0, 0.0, t, "S1"), trig) == Vec2(2.5, 0.0)
  {
    var s := NewStation(1.0, 0.0, t, "S1");
    var a := Radians(s.direction);
    assert a == Radians(0.0);
    var v := Vec2(s.stationType.portX, s.stationType.portY);
    assert v == Vec2(1.5, 0.0);
    assert Rotate(v, trig.cos(a), trig.sin(a)) == Rotate(Vec2(1.5, 0.0), 1.0, 0.0) == Vec2(1.5, 0.0);
  }

  /**
   * That port, moved as written to the point it already occupies, is drawn at
   * scene point (500, 0); the corrected move draws it at (250, 0).
   */
  lemma PortDrawnTwiceAsFar(t: StationType, trig: Trig)
    requires t.portX == 1.5 && t.portY == 0.0 && t.portDirection == 0.0
    requires trig.cos(Radians(0.0)) == 1.0 && trig.sin(Radians(0.0)) == 0.0
    ensures var qp := MakeQStation(NewStation(1.0, 0.0, t, "S1"), trig).qport.value;
      && SceneCentre(MovePortAsWritten(qp, Vec2(2.5, 0.0), 0.0, trig)) == Vec2(500.0, 0.0)
      && SceneCentre(MovePort(qp, Vec2(2.5, 0.0), 0.0, trig)) == Vec2(250.0, 0.0)
  {
    FreshPortAt(t, trig);
    MovesOfPortAt250(MakeQStation(NewStation(1.0, 0.0, t, "S1"), trig).qport.value, trig);
  }

  /**
   * Any port circle built around scene point (250, 0), moved to (2.5, 0): as
   * written it is drawn at (500, 0), corrected at (250, 0).
   */
  lemma MovesOfPortAt250(qp: QPathNode, trig: Trig)
    requires Centre(qp.rect) == Vec2(250.0, 0.0)
    ensures SceneCentre(MovePortAsWritten(qp, Vec2(2.5, 0.0), 0.0, trig)) == Vec2(500.0, 0.0)
    ensures SceneCentre(MovePort(qp, Vec2(2.5, 0.0), 0.0, trig)) == Vec2(250.0, 0.0)
  {
    assert ToScene(Vec2(2.5, 0.0)) == Vec2(250.0, 0.0);
  }
}
