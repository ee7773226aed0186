/** AGVs: the backend record, its status values and its canvas proxy. */
module Agvs {
  import opened Optional
  import opened Geometry
  import opened Paths

  datatype AgvStatus = Idle | Moving | Loading | Unloading | Charging | Error | Unknown

  /** The text each status is stored and written as. */
  function StatusText(s: AgvStatus): string
  {
    match s
    case Idle => "idle"
    case Moving => "moving"
    case Loading => "loading"
    case Unloading => "unloading"
    case Charging => "charging"
    case Error => "error"
    case Unknown => "unknown"
  }

  const AllStatuses: seq<AgvStatus> := [Idle, Moving, Loading, Unloading, Charging, Error, Unknown]

  /** There are exactly seven statuses and their texts tell them apart. */
  lemma StatusesAreSevenDistinct()
    ensures forall s: AgvStatus :: s in AllStatuses
    ensures forall i, j :: 0 <= i < j < |AllStatuses| ==> StatusText(AllStatuses[i]) != StatusText(AllStatuses[j])
    ensures |AllStatuses| == 7
  {
    forall s: AgvStatus
      ensures s in AllStatuses
    {
      match s
      case Idle => assert AllStatuses[0] == s;
      case Moving => assert AllStatuses[1] == s;
      case Loading => assert AllStatuses[2] == s;
      case Unloading => assert AllStatuses[3] == s;
      case Charging => assert AllStatuses[4] == s;
      case Error => assert AllStatuses[5] == s;
      case Unknown => assert AllStatuses[6] == s;
    }
    forall i, j | 0 <= i < j < |AllStatuses|
      ensures StatusText(AllStatuses[i]) != StatusText(AllStatuses[j])
    {
      var a := StatusText(AllStatuses[i]);
      var b := StatusText(AllStatuses[j]);
      assert a[0] != b[0] || a[1] != b[1] || |a| != |b|;
    }
  }

  /**
   * An AGV. Speed and acceleration limits are stored, never used.
   * `interactions` is never filled in. `latestNode` is the id of the last node
   * visited: the exporter and the loader read and write it, though the record
   * in the source never declares it.
   */
  datatype Agv = Agv(
    name: string,
    position: Vec2,
    size: Size3,
    id: Option<int>,
    maxSpeed: real,
    maxAcc: real,
    maxDec: real,
    direction: real,
    status: AgvStatus,
    interactions: seq<int>,
    port: Option<PathNode>,
    latestNode: Option<int>)

  function NewAgv(name: string, position: Vec2, size: Size3): (a: Agv)
    ensures a.name == name && a.position == position && a.size == size
    ensures a.id.None? && a.status == Unknown && a.direction == 0.0
    ensures a.maxSpeed == 1.0 && a.maxAcc == 0.5 && a.maxDec == 0.5
    ensures a.interactions == [] && a.port.None? && a.latestNode.None?
  {
    Agv(name, position, size, None, 1.0, 0.5, 0.5, 0.0, Unknown, [], None, None)
  }

  /**
   * The canvas proxy of an AGV. It keeps its own copies of the id, position,
   * heading and name taken at construction, beside the AGV record itself, and
   * sits at scene point `pos`.
   */
  datatype QAgv = QAgv(agv: Agv, id: Option<int>, position: Vec2, direction: real, name: string, pos: Vec2)

  function MakeQAgv(agv: Agv): (q: QAgv)
    ensures q.agv == agv
    ensures q.id == agv.id && q.position == agv.position && q.direction == agv.direction && q.name == agv.name
    ensures FromScene(q.pos) == agv.position
  {
    QAgv(agv, agv.id, Vec2(agv.position.x, agv.position.y), agv.direction, agv.name, ToScene(agv.position))
  }

  /**
   * The body rectangle in item coordinates: `length` along the item's x axis,
   * `width` along its y axis, centred on the item origin.
   */
  function BoundingRect(q: QAgv): (r: Rect)
    ensures Centre(r) == Vec2(0.0, 0.0)
    ensures r.w == q.agv.size.length * SceneScale && r.h == q.agv.size.width * SceneScale
  {
    var width := q.agv.size.width * SceneScale;
    var length := q.agv.size.length * SceneScale;
    Rect(-length / 2.0, -width / 2.0, length, width)
  }

  /** The heading arrow's length: 80% of the body rectangle's width, which is the AGV's length. */
  function ArrowLength(q: QAgv): (l: real)
    ensures l == 0.8 * BoundingRect(q).w
    ensures l == 80.0 * q.agv.size.length
  {
    BoundingRect(q).w * 0.8
  }

  /** The arrow's base width: 30% of its length. */
  function ArrowWidth(q: QAgv): (w: real)
    ensures w == 0.3 * ArrowLength(q)
    ensures w == 24.0 * q.agv.size.length
  {
    ArrowLength(q) * 0.3
  }

  /** The arrow polygon: left base corner, tip, right base corner, around the rectangle's centre. */
  function ArrowPoints(q: QAgv): (pts: seq<Vec2>)
    ensures |pts| == 3
    ensures var c := Centre(BoundingRect(q));
      && pts[1] == Vec2(c.x + ArrowLength(q) / 2.0, c.y)
      && pts[0].x == c.x == pts[2].x
      && pts[0].y + pts[2].y == 2.0 * c.y
      && pts[2].y - pts[0].y == ArrowWidth(q)
  {
    var c := Centre(BoundingRect(q));
    [Vec2(c.x, c.y - ArrowWidth(q) / 2.0), Vec2(c.x + ArrowLength(q) / 2.0, c.y), Vec2(c.x, c.y + ArrowWidth(q) / 2.0)]
  }

  /** For a body of non-negative extent the whole arrow stays inside the body rectangle. */
  lemma ArrowInsideBody(q: QAgv)
    requires q.agv.size.length >= 0.0 && q.agv.size.width >= 0.3 * q.agv.size.length
    ensures forall i :: 0 <= i < |ArrowPoints(q)| ==> Inside(ArrowPoints(q)[i], BoundingRect(q))
  {
  }

  predicate Inside(p: Vec2, r: Rect)
  {
    r.x <= p.x <= r.x + r.w && r.y <= p.y <= r.y + r.h
  }
}
