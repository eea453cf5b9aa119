/**
 * A stove top (`ofxStovetop`): one of the four corners of the kitchen, with
 * its pot and its information box, and the crossfade that sets how loud its
 * pot is for a given drag of the kitchen.
 */
module Stovetops {
  import opened Geometry
  import opened CookableNodes
  import opened Pots

  /** `stoveInformation::tactoStove`. */
  datatype Stove = Invalid | FrontRight | FrontLeft | RearLeft | RearRight

  /** `STOVE_COLOR`. */
  const StoveColor: int := 0x323232

  /**
   * `getCrossfadeVolume`: the gain of a stove for the kitchen's drag offset
   * `pt`, by the program's case analysis.  The last branch of each case
   * cannot be reached over the reals; it is kept as written.
   */
  function CrossfadeVolume(id: Stove, pt: Point): real {
    match id
    case FrontRight =>
      if pt.x == 0.0 then 1.0 - pt.y
      else if pt.y == 0.0 then 1.0 - pt.x
      else if pt.x <= pt.y then 1.0 - pt.y
      else if pt.x > pt.y then 1.0 - pt.x
      else 0.0
    case FrontLeft =>
      if pt.x == 1.0 then 1.0 - pt.y
      else if pt.y == 0.0 then pt.x
      else if 1.0 - pt.x <= pt.y then 1.0 - pt.y
      else if 1.0 - pt.x > pt.y then pt.x
      else 0.0
    case RearLeft =>
      if pt.x == 1.0 then pt.y
      else if pt.y == 1.0 then pt.x
      else if pt.x <= pt.y then pt.x
      else if pt.x > pt.y then pt.y
      else 0.0
    case RearRight =>
      if pt.x == 0.0 then pt.y
      else if pt.y == 1.0 then 1.0 - pt.x
      else if 1.0 - pt.x <= pt.y then 1.0 - pt.x
      else if 1.0 - pt.x > pt.y then pt.y
      else 0.0
    case Invalid => 0.0
  }

  /**
   * The drag offset at which a stove is fully in focus: the kitchen starts
   * on the front right stove, and dragging right, then down, brings the
   * other stoves in.
   */
  function Corner(id: Stove): Point
    requires id != Invalid
  {
    match id
    case FrontRight => Point(0.0, 0.0)
    case FrontLeft => Point(1.0, 0.0)
    case RearLeft => Point(1.0, 1.0)
    case RearRight => Point(0.0, 1.0)
  }

  function Abs(v: real): real { if v >= 0.0 then v else -v }

  /** The largest distance along one axis. */
  function Chebyshev(a: Point, b: Point): real {
    Max(Abs(a.x - b.x), Abs(a.y - b.y))
  }

  /** On the unit square every gain has a closed form. */
  lemma CrossfadeClosedForms(pt: Point)
    requires InUnitSquare(pt)
    ensures CrossfadeVolume(FrontRight, pt) == 1.0 - Max(pt.x, pt.y)
    ensures CrossfadeVolume(FrontLeft, pt) == Min(pt.x, 1.0 - pt.y)
    ensures CrossfadeVolume(RearLeft, pt) == Min(pt.x, pt.y)
    ensures CrossfadeVolume(RearRight, pt) == Min(1.0 - pt.x, pt.y)
    ensures CrossfadeVolume(Invalid, pt) == 0.0
  {
  }

  /**
   * Each valid stove's gain is one minus the distance, along the farther
   * axis, from the drag offset to the stove's corner.
   */
  lemma CrossfadeIsCornerProximity(id: Stove, pt: Point)
    requires id != Invalid && InUnitSquare(pt)
    ensures CrossfadeVolume(id, pt) == 1.0 - Chebyshev(pt, Corner(id))
  {
    CrossfadeClosedForms(pt);
  }

  /**
   * On the unit square every gain lies in [0, 1]; at the start (no drag)
   * only the front right stove is heard, fully.
   */
  lemma CrossfadeRange(id: Stove, pt: Point)
    requires InUnitSquare(pt)
    ensures 0.0 <= CrossfadeVolume(id, pt) <= 1.0
    ensures CrossfadeVolume(id, Zero) == if id == FrontRight then 1.0 else 0.0
  {
    CrossfadeClosedForms(pt);
  }

  /** `stoveInformation`: the information box of a stove. */
  datatype StoveInfo = StoveInfo(id: Stove, origin: Point, originInit: Point)
  {
    /** `drag`: the box sits at its undragged origin plus the drag. */
    function Dragged(delta: Point): StoveInfo {
      this.(origin := originInit.Plus(delta))
    }
  }

  /** Dragging the box places it; only the last drag counts. */
  lemma StoveInfoDragLastWins(info: StoveInfo, d1: Point, d2: Point)
    ensures info.Dragged(d1).origin == info.originInit.Plus(d1)
    ensures info.Dragged(d1).Dragged(d2) == info.Dragged(d2)
    ensures info.Dragged(d1).Dragged(d1) == info.Dragged(d1)
  {
  }

  /** Where the constructor puts a stove's information box, in pixels. */
  function InfoOrigin(id: Stove, vp: Viewport): Point {
    match id
    case FrontRight => Point(2.0, 2.0)
    case FrontLeft => Point(-vp.width as real + 2.0, 2.0)
    case RearLeft => Point(-vp.width as real + 2.0, -vp.height as real + 2.0)
    case RearRight => Point(2.0, -vp.height as real + 2.0)
    case Invalid => Zero
  }

  class Stovetop {
    const id: Stove
    const pot: Pot
    var origin: Point
    var originInit: Point
    var info: StoveInfo
    var totalDrag: Point         // normalised, see `Drag`

    predicate Valid() {
      pot.Valid()
    }

    /**
     * A valid stove gets a pot of radius a third of the window height at
     * `origin` and its information box; an invalid one keeps the default
     * pot (radius 1, 120 bpm, at the origin) and a default box.
     */
    constructor (id: Stove, origin: Point, bpm: int, vp: Viewport, steps: int, loopPct: real, now: int)
      requires ValidViewport(vp) && bpm > 0 && steps > 0 && loopPct > 0.0
      requires id != Invalid ==> vp.height >= 3
      ensures Valid() && fresh(pot)
      ensures this.id == id && this.origin == origin && originInit == origin && totalDrag == Zero
      ensures id != Invalid ==>
        && pot.radius == vp.height / 3 && pot.origin == origin && pot.originInit == origin
        && pot.bpm == bpm && pot.color == StoveColor
        && info == StoveInfo(id, InfoOrigin(id, vp), InfoOrigin(id, vp))
      ensures id == Invalid ==>
        && pot.radius == 1 && pot.origin == Zero && pot.bpm == 120 && pot.color == 0
        && info == StoveInfo(Invalid, Zero, Zero)
      ensures pot.steps == steps && pot.loopPct == loopPct && pot.currentBeat == 0
      ensures pot.Queues() == Channels([], [], []) && pot.dragged == []
    {
      this.id := id;
      this.origin, this.originInit := origin, origin;
      totalDrag := Zero;
      var radius := vp.height / 3;
      if id == Invalid {
        pot := new Pot(0, 1, Zero, 120, steps, loopPct, now);
        info := StoveInfo(Invalid, Zero, Zero);
      } else {
        pot := new Pot(StoveColor, radius, origin, bpm, steps, loopPct, now);
        var at := InfoOrigin(id, vp);
        info := StoveInfo(id, at, at);
      }
    }

    /** `update`: the pot's `update`. */
    method Update(beat: int) returns (stopped: seq<CookableNode>)
      requires Valid()
      modifies pot
      ensures pot.UpdatedBy(beat)
      ensures old(pot.QueuesWellFormed()) ==> pot.QueuesWellFormed()
    {
      stopped := pot.Update(beat);
    }

    method MouseTouchDown(x: real, y: real, fullRange: bool, vp: Viewport) returns (claimed: bool)
      requires ValidViewport(vp)
      modifies pot
      ensures pot.TouchedDownAt(Normalize(x, y, fullRange, vp), vp)
      ensures claimed == old(pot.Claims(Normalize(x, y, fullRange, vp), vp))
    {
      claimed := pot.MouseTouchDown(x, y, fullRange, vp);
    }

    method MouseTouchMoved(x: real, y: real, fullRange: bool, vp: Viewport, offset: Point, d: real)
      returns (found: bool)
      requires Valid() && ValidViewport(vp) && 0.0 <= d
      requires d * d == SqDist(pot.origin, ToWorld(Normalize(x, y, fullRange, vp), vp))
      modifies pot
      ensures pot.origin == old(pot.origin)
      ensures ValidMoveInput(pot.MoveFor(x, y, fullRange, vp, offset, d))
      ensures pot.TouchMovedAt(pot.MoveFor(x, y, fullRange, vp, offset, d))
      ensures old(pot.QueuesWellFormed()) ==> pot.QueuesWellFormed()
      ensures !found
    {
      found := pot.MouseTouchMoved(x, y, fullRange, vp, offset, d);
    }

    method MouseTouchUp(x: real, y: real, fullRange: bool, vp: Viewport)
      requires ValidViewport(vp)
      modifies pot
      ensures pot.ReleasedAt(Normalize(x, y, fullRange, vp), vp)
      ensures old(pot.QueuesWellFormed()) ==> pot.QueuesWellFormed()
    {
      pot.MouseTouchUp(x, y, fullRange, vp);
    }

    /**
     * `drag`: the stove, its pot and its box sit at their undragged places
     * plus `delta`; the normalised total drag divides both axes by the
     * window width.
     */
    method Drag(delta: Point, vp: Viewport)
      requires ValidViewport(vp)
      modifies this, pot
      ensures totalDrag == Point(delta.x / vp.width as real, delta.y / vp.width as real)
      ensures origin == originInit.Plus(delta) && originInit == old(originInit)
      ensures info == old(info).Dragged(delta)
      ensures pot.DraggedBy(delta)
      ensures old(pot.QueuesWellFormed()) ==> pot.QueuesWellFormed()
    {
      totalDrag := Point(delta.x / vp.width as real, delta.y / vp.width as real);
      origin := originInit.Plus(delta);
      pot.Drag(delta);
      info := info.Dragged(delta);
    }

    /**
     * `moveOffset`: the pot, dragged or not, is put at its undragged origin
     * plus `offset`, and the box is shifted by `offset`.
     */
    method MoveOffset(offset: Point)
      modifies this, pot
      ensures pot.origin == old(pot.originInit).Plus(offset) && pot.originInit == pot.origin
      ensures info == old(info).(origin := old(info).origin.Plus(offset))
      ensures origin == old(origin) && originInit == old(originInit) && totalDrag == old(totalDrag)
      ensures pot.Queues() == old(pot.Queues()) && pot.dragged == old(pot.dragged)
      ensures pot.volume == old(pot.volume) && pot.currentBeat == old(pot.currentBeat)
      ensures pot.showingLoopFeedback == old(pot.showingLoopFeedback)
    {
      var at := pot.originInit;
      pot.origin := at.Plus(offset);
      pot.originInit := at.Plus(offset);
      info := info.(origin := info.origin.Plus(offset));
    }

    /** `isPointInPot`: the touch, normalised first, lies on the pot. */
    predicate IsPointInPot(x: real, y: real, fullRange: bool, vp: Viewport)
      requires ValidViewport(vp)
      reads pot
    {
      pot.IsPointInside(Normalize(x, y, fullRange, vp), vp)
    }

    method AddCookElement(n: CookableNode)
      modifies pot
      ensures pot.Received(n)
      ensures old(pot.QueuesWellFormed()) ==>
        (pot.QueuesWellFormed() <==> !n.playing || |old(pot.Queue(n.soundType))| == 0)
    {
      pot.AddCookElement(n);
    }

    function GetCrossfadeVolume(pt: Point): real {
      CrossfadeVolume(id, pt)
    }
  }
}
