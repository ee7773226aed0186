/**
 * The 2D map editor: its mode and path-tool switches, the scene rectangle and
 * grid drawn for a map size, the 2D view's wheel zoom, and the two clicks that
 * create entities (a path node in path mode, a station from the side panel).
 * Dialogs are replaced by their outcome, passed in as parameters.
 */
module Editor {
  import opened Optional
  import opened Geometry
  import opened Ids
  import opened Paths
  import opened Stations
  import opened Store
  import opened Proxies
  import Camera

  /** The path tools; buttons 0 and 1 of the path tool group select them. */
  datatype PathTool = AddNode | DeleteNode

  /** The 2D view's drag behaviour. */
  datatype DragMode = RubberBandDrag | NoDrag

  /** Which of the three mode buttons is checked. */
  datatype ModeButtons = ModeButtons(station: bool, path: bool, agv: bool)

  /**
   * The editor's state. `firstNode` and `currentPath` identify the path node
   * picked for a connection and the path being drawn.
   */
  datatype MapEditor = MapEditor(
    mode: string,
    pathTool: PathTool,
    currentPath: Option<int>,
    firstNode: Option<int>,
    mapSize: int,
    buttons: ModeButtons,
    toolsPage: nat,
    dragMode: DragMode)

  function NewEditor(): (e: MapEditor)
    ensures e.mode == "station" && e.pathTool == AddNode
    ensures e.currentPath.None? && e.firstNode.None? && e.mapSize == 10
    ensures e.buttons == ModeButtons(true, false, false) && e.toolsPage == 0
    ensures e.dragMode == RubberBandDrag
  {
    MapEditor("station", AddNode, None, None, 10, ModeButtons(true, false, false), 0, RubberBandDrag)
  }

  // ---------------------------------------------------------------------------
  // Modes and tools

  /**
   * Switches mode: leaving path mode drops the picked node, the button of the
   * new mode alone is checked, and the tool page and drag mode follow the mode
   * (station mode also drops the current path).
   */
  function SetMode(e: MapEditor, mode: string): (r: MapEditor)
    ensures r.mode == mode
    ensures r.buttons == ModeButtons(mode == "station", mode == "path", mode == "agv")
    ensures mode == "station" ==> r.toolsPage == 0 && r.dragMode == RubberBandDrag && r.currentPath.None?
    ensures mode == "path" ==> r.toolsPage == 1 && r.dragMode == NoDrag && r.currentPath == e.currentPath
    ensures mode != "station" && mode != "path" ==> r.toolsPage == 2 && r.dragMode == RubberBandDrag && r.currentPath == e.currentPath
    ensures e.mode == "path" ==> r.firstNode.None?
    ensures e.mode != "path" ==> r.firstNode == e.firstNode
    ensures r.pathTool == e.pathTool && r.mapSize == e.mapSize
  {
    var picked := if e.mode == "path" && e.firstNode.Some? then None else e.firstNode;
    var e1 := e.(firstNode := picked, mode := mode,
                 buttons := ModeButtons(mode == "station", mode == "path", mode == "agv"));
    if mode == "station" then e1.(toolsPage := 0, currentPath := None, dragMode := RubberBandDrag)
    else if mode == "path" then e1.(toolsPage := 1, dragMode := NoDrag)
    else e1.(toolsPage := 2, dragMode := RubberBandDrag)
  }

  /** The checked button agrees with the tool page: one of the three modes checks exactly its own button, any other mode none. */
  lemma ModeButtonMatchesPage(e: MapEditor, mode: string)
    ensures var r := SetMode(e, mode);
      (r.buttons.station <==> r.toolsPage == 0) && (r.buttons.path <==> r.toolsPage == 1)
    ensures var b := SetMode(e, mode).buttons;
      (mode == "station" || mode == "path" || mode == "agv") <==> (b.station || b.path || b.agv)
  {
  }

  /**
   * The visible outcome of a switch depends only on the mode chosen last, and
   * a node picked in path mode does not survive a second switch.
   */
  lemma LastModeWins(e: MapEditor, first: string, second: string)
    ensures var r := SetMode(SetMode(e, first), second);
      var direct := SetMode(e, second);
      && r.mode == direct.mode && r.buttons == direct.buttons
      && r.toolsPage == direct.toolsPage && r.dragMode == direct.dragMode
    ensures first == "path" ==> SetMode(SetMode(e, first), second).firstNode.None?
  {
  }

  /** Button 0 selects adding nodes, button 1 deleting them; any other button changes nothing. */
  function SetPathTool(e: MapEditor, toolId: int): (r: MapEditor)
    ensures toolId == 0 ==> r.pathTool == AddNode
    ensures toolId == 1 ==> r.pathTool == DeleteNode
    ensures toolId != 0 && toolId != 1 ==> r == e
    ensures r == e.(pathTool := r.pathTool)
  {
    if toolId == 0 then e.(pathTool := AddNode)
    else if toolId == 1 then e.(pathTool := DeleteNode)
    else e
  }

  /** The last recognised button wins. */
  lemma LastToolButtonWins(e: MapEditor, first: int, second: int)
    requires second == 0 || second == 1
    ensures SetPathTool(SetPathTool(e, first), second) == SetPathTool(e, second)
  {
  }

  // ---------------------------------------------------------------------------
  // Scene rectangle and grid

  /** The scene rectangle for a map size in metres, in scene units (100 per metre). */
  function SceneRect(mapSize: int): (r: Rect)
    ensures Centre(r) == Vec2(0.0, 0.0)
    ensures r.w == r.h == 2.0 * SceneScale * mapSize as real
  {
    var half := mapSize as real * SceneScale;
    Rect(-half, -half, half * 2.0, half * 2.0)
  }

  /** A grid line from (x1, y1) to (x2, y2), in scene units. */
  datatype Line = Line(x1: int, y1: int, x2: int, y2: int)

  /** The vertical line `i` metres right of the origin, spanning the map's height. */
  function VerticalAt(mapSize: int, i: int): Line
  {
    Line(i * 100, -mapSize * 100, i * 100, mapSize * 100)
  }

  /** The horizontal line `i` metres below the origin, spanning the map's width. */
  function HorizontalAt(mapSize: int, i: int): Line
  {
    Line(-mapSize * 100, i * 100, mapSize * 100, i * 100)
  }

  /**
   * The grid lines for a map size: for each i from -m to m, first the
   * vertical then the horizontal line at i metres.
   */
  method GridLines(mapSize: int) returns (lines: seq<Line>)
    ensures mapSize < 0 ==> lines == []
    ensures mapSize >= 0 ==> |lines| == 2 * (2 * mapSize + 1)
    ensures forall k :: 0 <= k < |lines| / 2 ==>
      && 2 * k + 1 < |lines|
      && lines[2 * k] == VerticalAt(mapSize, k - mapSize)
      && lines[2 * k + 1] == HorizontalAt(mapSize, k - mapSize)
  {
    lines := [];
    var i := -mapSize;
    while i < mapSize + 1
      invariant mapSize >= 0 ==> -mapSize <= i <= mapSize + 1
      invariant mapSize < 0 ==> i == -mapSize
      invariant |lines| == 2 * (i + mapSize)
      invariant forall k :: 0 <= k < |lines| / 2 ==>
        && 2 * k + 1 < |lines|
        && lines[2 * k] == VerticalAt(mapSize, k - mapSize)
        && lines[2 * k + 1] == HorizontalAt(mapSize, k - mapSize)
      decreases mapSize + 1 - i
    {
      lines := lines + [VerticalAt(mapSize, i), HorizontalAt(mapSize, i)];
      i := i + 1;
    }
  }

  /** Whether a scene point lies in the (closed) rectangle. */
  predicate InRect(r: Rect, x: real, y: real)
  {
    r.x <= x <= r.x + r.w && r.y <= y <= r.y + r.h
  }

  /** Every grid line starts and ends inside the scene rectangle. */
  lemma GridInsideScene(mapSize: int, i: int)
    requires -mapSize <= i <= mapSize
    ensures var v := VerticalAt(mapSize, i);
      InRect(SceneRect(mapSize), v.x1 as real, v.y1 as real) && InRect(SceneRect(mapSize), v.x2 as real, v.y2 as real)
    ensures var h := HorizontalAt(mapSize, i);
      InRect(SceneRect(mapSize), h.x1 as real, h.y1 as real) && InRect(SceneRect(mapSize), h.x2 as real, h.y2 as real)
  {
  }

  // ---------------------------------------------------------------------------
  // 2D wheel zoom

  const ViewZoomFactor: real := 1.15

  /** The view's scale after one wheel step: times 1.15 on a positive delta, divided by 1.15 otherwise. */
  function WheelScale(scale: real, deltaY: int): (r: real)
    ensures deltaY > 0 ==> r == scale * ViewZoomFactor
    ensures deltaY <= 0 ==> r * ViewZoomFactor == scale
  {
    if deltaY > 0 then scale * ViewZoomFactor else scale * (1.0 / ViewZoomFactor)
  }

  /** One step in followed by one step out, in either order, returns to the original scale. */
  lemma WheelInOutCancel(scale: real, inDelta: int, outDelta: int)
    requires inDelta > 0 && outDelta <= 0
    ensures WheelScale(WheelScale(scale, inDelta), outDelta) == scale
    ensures WheelScale(WheelScale(scale, outDelta), inDelta) == scale
  {
  }

  /** The scale after `n` steps in. */
  function StepsIn(scale: real, n: nat): real
  {
    if n == 0 then scale else WheelScale(StepsIn(scale, n - 1), 1)
  }

  /** `ViewZoomFactor` to the power `n`. */
  function ZoomPower(n: nat): (p: real)
    ensures p >= 1.0
  {
    if n == 0 then 1.0 else ZoomPower(n - 1) * ViewZoomFactor
  }

  /** `n` steps in multiply the scale by 1.15 to the power `n`: the zoom is geometric. */
  lemma {:induction false} StepsInAreGeometric(scale: real, n: nat)
    ensures StepsIn(scale, n) == scale * ZoomPower(n)
  {
    if n > 0 {
      StepsInAreGeometric(scale, n - 1);
      assert StepsIn(scale, n) == (scale * ZoomPower(n - 1)) * ViewZoomFactor;
    }
  }

  // ---------------------------------------------------------------------------
  // Clicks

  /**
   * A path-add click whose direction dialog was accepted: a node is made at
   * the clicked point converted to metres, with an id drawn from the
   * path-node allocator, stored, given a proxy, and the proxy turned to the
   * chosen direction.
   */
  function AddNodeAtClick(q: QClassHolder, scenePos: Vec2, direction: real, trig: Trig): (r: QClassHolder)
    ensures var id := q.backend.pathNodeIds.counter + 1;
      && r.backend.pathNodeIds.counter == id
      && id in r.backend.pathNodes
      && r.backend.pathNodes[id] == NewPathNode(FromScene(scenePos).x, FromScene(scenePos).y, direction, Some(id))
      && r.backend.pathNodes == q.backend.pathNodes[id := r.backend.pathNodes[id]]
      && Some(id) in r.qpathNodes
      && r.qpathNodes[Some(id)].node == r.backend.pathNodes[id]
      && r.qpathNodes == q.qpathNodes[Some(id) := r.qpathNodes[Some(id)]]
    ensures r.backend == q.backend.(pathNodeIds := r.backend.pathNodeIds, pathNodes := r.backend.pathNodes)
    ensures r == q.(backend := r.backend, qpathNodes := r.qpathNodes)
  {
    var drawn := GetNewId(q.backend.pathNodeIds);
    var p := FromScene(scenePos);
    var node := NewPathNode(p.x, p.y, direction, Some(drawn.id));
    var added := AddPathNode(q.backend.(pathNodeIds := drawn.manager), node);
    var proxied := AddQPathNode(q.(backend := added.holder), added.entity, trig);
    var turned := SetQDirection(proxied.proxy, direction, trig);
    proxied.holder.(qpathNodes := proxied.holder.qpathNodes[added.entity.id := turned])
  }

  /** The node made by a path-add click is drawn centred exactly where the user clicked. */
  lemma ClickedNodeSitsUnderCursor(q: QClassHolder, scenePos: Vec2, direction: real, trig: Trig)
    ensures var id := q.backend.pathNodeIds.counter + 1;
      SceneCentre(AddNodeAtClick(q, scenePos, direction, trig).qpathNodes[Some(id)]) == scenePos
    ensures var id := q.backend.pathNodeIds.counter + 1;
      AddNodeAtClick(q, scenePos, direction, trig).qpathNodes[Some(id)].arrow == ArrowPolygon(trig, direction)
  {
    var drawn := GetNewId(q.backend.pathNodeIds);
    var p := FromScene(scenePos);
    var node := NewPathNode(p.x, p.y, direction, Some(drawn.id));
    assert SceneCentre(MakeQPathNode(node, trig)) == ToScene(p) == scenePos;
  }

  /**
   * A press on the 2D view. A middle press is left to the view (panning). In
   * path mode a left press either adds a node, when the add tool is active and
   * the direction dialog returned a direction, or deletes the node under the
   * cursor, when the delete tool is active and `hit` reports that node's id
   * attribute. Every other press leaves the stores alone.
   */
  function HandleMousePress(e: MapEditor, q: QClassHolder, button: Camera.MouseButton, scenePos: Vec2,
                            dialog: Option<real>, hit: Option<ProxyKey>, trig: Trig): (r: QClassHolder)
    ensures button != Camera.LeftButton || e.mode != "path" ==> r == q
    ensures button == Camera.LeftButton && e.mode == "path" && e.pathTool == AddNode ==>
      r == (if dialog.Some? then AddNodeAtClick(q, scenePos, dialog.value, trig) else q)
    ensures button == Camera.LeftButton && e.mode == "path" && e.pathTool == DeleteNode && hit.None? ==> r == q
    ensures button == Camera.LeftButton && e.mode == "path" && e.pathTool == DeleteNode && hit.Some? ==>
      && r.qpathNodes.Keys == q.qpathNodes.Keys - {hit.value}
      && (forall k :: k in r.qpathNodes ==> r.qpathNodes[k] == q.qpathNodes[k])
      && r.qstations == q.qstations && r.qagvs == q.qagvs
      && (hit.value.Some? ==> r.backend.pathNodes.Keys == q.backend.pathNodes.Keys - {hit.value.value})
      && r.backend.pathNodes.Keys <= q.backend.pathNodes.Keys
      && (forall k :: k in r.backend.pathNodes ==> r.backend.pathNodes[k] == q.backend.pathNodes[k])
      && r.backend == q.backend.(pathNodes := r.backend.pathNodes)
      && (hit.value.None? ==> r.backend == q.backend)
  {
    if button == Camera.LeftButton && e.mode == "path" then
      match e.pathTool
      case AddNode =>
        (match dialog
         case None => q
         case Some(d) => AddNodeAtClick(q, scenePos, d, trig))
      case DeleteNode =>
        (match hit
         case None => q
         case Some(key) =>
           var q1 := DeleteQPathNode(q, key);
           if key.Some? then q1.(backend := DeletePathNode(q1.backend, key.value)) else q1)
    else q
  }

  /** A node added by a click and then clicked with the delete tool is gone from both stores. */
  lemma AddThenDeleteNode(e: MapEditor, q: QClassHolder, scenePos: Vec2, direction: real, trig: Trig)
    requires e.mode == "path"
    ensures var id := q.backend.pathNodeIds.counter + 1;
      var added := HandleMousePress(e.(pathTool := AddNode), q, Camera.LeftButton, scenePos, Some(direction), None, trig);
      var deleted := HandleMousePress(e.(pathTool := DeleteNode), added, Camera.LeftButton, scenePos, None, Some(Some(id)), trig);
      && Some(id) !in deleted.qpathNodes && id !in deleted.backend.pathNodes
      && deleted.backend.pathNodeIds.counter == id
  {
  }

  /** The side panel's inputs for a new station. */
  datatype StationForm = StationForm(x: real, y: real, width: real, length: real, height: real, direction: real)

  /**
   * Adds a station from the side panel: nothing happens without a selected
   * type, or when the name dialog was cancelled or returned an empty name.
   * Otherwise the station gets the form's position, size and heading, is
   * stored and given a proxy.
   */
  function AddStationAtPosition(q: QClassHolder, selected: Option<StationType>, name: string, ok: bool,
                                form: StationForm, trig: Trig): (r: QClassHolder)
    ensures selected.None? || !ok || name == "" ==> r == q
    ensures selected.Some? && ok && name != "" ==>
      var s := Set3dSize(NewStation(form.x, form.y, selected.value, name), form.width, form.length, form.height)
               .(direction := form.direction);
      var stored := AddStation(q.backend, s);
      && r.backend == stored.holder
      && r.qstations == q.qstations[stored.entity.id := MakeQStation(stored.entity, trig)]
    ensures r.qagvs == q.qagvs && r.qpathNodes == q.qpathNodes
  {
    match selected
    case None => q
    case Some(t) =>
      if ok && name != "" then
        var s := Set3dSize(NewStation(form.x, form.y, t, name), form.width, form.length, form.height)
                 .(direction := form.direction);
        var stored := AddStation(q.backend, s);
        AddQStation(q.(backend := stored.holder), stored.entity, trig).holder
      else q
  }

  /** A station added from the side panel is found by its name, with the heading and size entered. */
  lemma PanelStationFoundByName(q: QClassHolder, t: StationType, name: string, form: StationForm, trig: Trig)
    requires name != ""
    ensures var r := AddStationAtPosition(q, Some(t), name, true, form, trig);
      && GetQStationByName(r, name).Some?
      && var s := GetQStationByName(r, name).value.station;
      && s.name == name && s.stationType == t && s.position == Vec2(form.x, form.y)
      && s.direction == form.direction && s.size == Size3(form.width, form.length, form.height)
      && s.id.Some?
  {
    var s := Set3dSize(NewStation(form.x, form.y, t, name), form.width, form.length, form.height)
             .(direction := form.direction);
    AddedStationFoundByName(q, s, trig);
  }
}
