/**
 * Path nodes: the backend record and its canvas proxy, a 10-unit circle with a
 * heading arrow.
 */
module Paths {
  import opened Optional
  import opened Geometry

  /**
   * A node of the path network. `connectedPaths` is the adjacency list, which
   * nothing in the editor fills in.
   */
  datatype PathNode = PathNode(
    position: Vec2,
    connectedPaths: seq<int>,
    id: Option<int>,
    direction: real,
    name: Option<string>)

  function NewPathNode(x: real, y: real, direction: real := 0.0, id: Option<int> := None,
                       name: Option<string> := None): (n: PathNode)
    ensures n.position == Vec2(x, y)
    ensures n.connectedPaths == []
    ensures n.direction == direction && n.id == id && n.name == name
  {
    PathNode(Vec2(x, y), [], id, direction, name)
  }

  /** A node built from a position alone faces 0 degrees and has neither id nor name. */
  lemma NewPathNodeDefaults(x: real, y: real)
    ensures NewPathNode(x, y).direction == 0.0
    ensures NewPathNode(x, y).id.None? && NewPathNode(x, y).name.None?
  {
  }

  function GetPosition(n: PathNode): (p: Vec2)
    ensures p == n.position
  {
    n.position
  }

  function SetDirection(n: PathNode, direction: real): (r: PathNode)
    ensures r.direction == direction
    ensures r.position == n.position && r.connectedPaths == n.connectedPaths
    ensures r.id == n.id && r.name == n.name
  {
    n.(direction := direction)
  }

  /** Diameter of the node circle, in scene units. */
  const NodeSize: real := 10.0

  /** Length of the heading arrow, in scene units. */
  const ArrowSize: real := 8.0

  /** Half-angle of the arrow head, in degrees. */
  const ArrowAngle: real := 30.0

  /**
   * The canvas proxy of a node. `rect` is the circle's bounding box in item
   * coordinates, `pos` the item's offset in the scene (the origin unless moved),
   * `arrow` the heading polygon relative to the item.
   */
  datatype QPathNode = QPathNode(node: PathNode, rect: Rect, pos: Vec2, arrow: seq<Vec2>)

  /** Where the circle's centre is drawn in the scene. */
  function SceneCentre(q: QPathNode): Vec2
  {
    Add2(q.pos, Centre(q.rect))
  }

  /** The circle's bounding box for a node at `p`, built in scene coordinates. */
  function NodeRect(p: Vec2): Rect
  {
    Rect(p.x * SceneScale - NodeSize / 2.0, -(p.y * SceneScale) - NodeSize / 2.0, NodeSize, NodeSize)
  }

  /** Tip of the heading arrow: `ArrowSize` along the heading, y flipped for the canvas. */
  function ArrowTip(trig: Trig, direction: real): Vec2
  {
    var a := Radians(direction);
    Vec2(ArrowSize * trig.cos(a), -ArrowSize * trig.sin(a))
  }

  /** The arrow polygon: origin, tip, first barb, tip, second barb. */
  function ArrowPolygon(trig: Trig, direction: real): (poly: seq<Vec2>)
    ensures |poly| == 5
    ensures poly[0] == Vec2(0.0, 0.0)
    ensures poly[1] == ArrowTip(trig, direction) && poly[3] == poly[1]
    ensures var a := Radians(direction); var head := Radians(ArrowAngle);
      && poly[2] == Vec2(-ArrowSize / 2.0 * trig.cos(a + head), ArrowSize / 2.0 * trig.sin(a + head))
      && poly[4] == Vec2(-ArrowSize / 2.0 * trig.cos(a - head), ArrowSize / 2.0 * trig.sin(a - head))
  {
    var a := Radians(direction);
    var head := Radians(ArrowAngle);
    var tip := ArrowTip(trig, direction);
    var p1 := Vec2(-ArrowSize / 2.0 * trig.cos(a + head), ArrowSize / 2.0 * trig.sin(a + head));
    var p2 := Vec2(-ArrowSize / 2.0 * trig.cos(a - head), ArrowSize / 2.0 * trig.sin(a - head));
    [Vec2(0.0, 0.0), tip, p1, tip, p2]
  }

  /**
   * The arrow tip, read back in metres, points along the heading: the canvas
   * y flip of the tip is the same flip that places world points on the canvas.
   */
  lemma ArrowTipAlongHeading(trig: Trig, direction: real)
    ensures FromScene(ArrowTip(trig, direction))
         == Vec2(ArrowSize / SceneScale * trig.cos(Radians(direction)),
                 ArrowSize / SceneScale * trig.sin(Radians(direction)))
  {
  }

  /** With a genuine cosine/sine pair the tip lies exactly `ArrowSize` from the node centre. */
  lemma ArrowTipLength(trig: Trig, direction: real)
    requires trig.cos(Radians(direction)) * trig.cos(Radians(direction))
           + trig.sin(Radians(direction)) * trig.sin(Radians(direction)) == 1.0
    ensures Norm2Sq(ArrowTip(trig, direction)) == ArrowSize * ArrowSize
  {
    var c := trig.cos(Radians(direction));
    var s := trig.sin(Radians(direction));
    calc {
      Norm2Sq(ArrowTip(trig, direction));
      (ArrowSize * c) * (ArrowSize * c) + (-ArrowSize * s) * (-ArrowSize * s);
      ArrowSize * ArrowSize * (c * c + s * s);
    }
  }

  /** Builds the proxy of `node`: a circle centred on the node's scene point. */
  function MakeQPathNode(node: PathNode, trig: Trig): (q: QPathNode)
    ensures q.node == node
    ensures SceneCentre(q) == ToScene(node.position)
    ensures q.rect.w == NodeSize && q.rect.h == NodeSize
    ensures q.pos == Vec2(0.0, 0.0)
    ensures q.arrow == ArrowPolygon(trig, node.direction)
  {
    QPathNode(node, NodeRect(node.position), Vec2(0.0, 0.0), ArrowPolygon(trig, node.direction))
  }

  /** The proxy's `id` property reads the backend node's id. */
  function Id(q: QPathNode): Option<int>
  {
    q.node.id
  }

  /** Writing the proxy's `id` property writes through to the backend node. */
  function WithId(q: QPathNode, v: Option<int>): (r: QPathNode)
    ensures Id(r) == v && r.node.id == v
    ensures r.node == q.node.(id := v)
    ensures r.rect == q.rect && r.pos == q.pos && r.arrow == q.arrow
  {
    q.(node := q.node.(id := v))
  }

  /** Turning the proxy stores the angle on the backend node and redraws the arrow. */
  function SetQDirection(q: QPathNode, angle: real, trig: Trig): (r: QPathNode)
    ensures r.node == SetDirection(q.node, angle)
    ensures r.arrow == ArrowPolygon(trig, angle)
    ensures r.rect == q.rect && r.pos == q.pos
    ensures SceneCentre(r) == SceneCentre(q)
  {
    q.(node := SetDirection(q.node, angle), arrow := ArrowPolygon(trig, angle))
  }
}
