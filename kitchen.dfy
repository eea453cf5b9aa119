/**
 * The kitchen (`metaphorKitchen`): four stove tops, the beat clock that
 * drives them, the background points a finger drags to slide the view from
 * stove to stove (crossfading their pots), and the drop of the menu's
 * dragged loops onto the pots.
 *
 * The menu (`ofxTactoSHPM`) is not part of this model: whether it claimed a
 * touch is an input, and the list of loops it is dragging is passed in and
 * handed back.  The square roots the program takes (the distance from each
 * pot's centre to the touch) are inputs `dists`, one per stove.
 */
module Kitchens {
  import opened Geometry
  import opened CInts
  import opened CookableNodes
  import opened Pots
  import opened Stovetops
  import opened KitchenParts

  /** The stove at each index of `m_stovetops`. */
  function StoveAt(i: int): Stove {
    if i == 0 then FrontRight
    else if i == 1 then FrontLeft
    else if i == 2 then RearLeft
    else if i == 3 then RearRight
    else Invalid
  }

  /** Where `setup` puts each stove's pot, in pixels, with C++'s integer division. */
  function PotOrigin(id: Stove, vp: Viewport): Point {
    var w, h := vp.width, vp.height;
    match id
    case FrontRight => Point(TruncDiv(w, 2) as real, TruncDiv(h, 3) as real)
    case FrontLeft => Point(TruncDiv(-w, 2) as real, TruncDiv(h, 3) as real)
    case RearLeft => Point(TruncDiv(-w, 2) as real, TruncDiv(-h * 2, 3) as real)
    case RearRight => Point(TruncDiv(w, 2) as real, TruncDiv(-h * 2, 3) as real)
    case Invalid => Zero
  }

  /**
   * The four pots form a rectangle: the left ones mirror the right ones
   * about x = 0, and the rear ones sit one window (up to rounding) above
   * the front ones, and the left ones one window to the left.
   */
  lemma PotOriginLayout(vp: Viewport)
    requires ValidViewport(vp)
    ensures PotOrigin(FrontLeft, vp).x == -PotOrigin(FrontRight, vp).x
    ensures PotOrigin(RearLeft, vp) == Point(PotOrigin(FrontLeft, vp).x, PotOrigin(RearRight, vp).y)
    ensures PotOrigin(RearRight, vp).x == PotOrigin(FrontRight, vp).x
    ensures PotOrigin(FrontLeft, vp).y == PotOrigin(FrontRight, vp).y
    ensures vp.width - 1 <= (TruncDiv(vp.width, 2) - TruncDiv(-vp.width, 2)) <= vp.width
    ensures vp.height - 1 <= (TruncDiv(vp.height, 3) - TruncDiv(-vp.height * 2, 3)) <= vp.height
  {
    var w, h := vp.width, vp.height;
    var h2 := h * 2;
    assert TruncDiv(-w, 2) == -(w / 2);
    assert TruncDiv(-h * 2, 3) == -(h2 / 3);
    var a, b := h / 3, h2 / 3;
    assert h == 3 * a + h % 3;
    assert h2 == 3 * b + h2 % 3;
  }

  /**
   * The effect on a stove of the kitchen applying its drag: the stove, its
   * pot, its nodes and its box are dragged by `delta`, and the pot's focus
   * volume becomes `v`.
   */
  twostate predicate Focused(s: Stovetop, delta: Point, v: real, vp: Viewport)
    requires ValidViewport(vp)
    reads s, s.pot
  {
    && s.totalDrag == Point(delta.x / vp.width as real, delta.y / vp.width as real)
    && s.origin == s.originInit.Plus(delta) && s.originInit == old(s.originInit)
    && s.info == old(s.info).Dragged(delta)
    && s.pot.origin == s.pot.originInit.Plus(delta) && s.pot.originInit == old(s.pot.originInit)
    && s.pot.Queues() == DraggedChannels(old(s.pot.Queues()), delta)
    && s.pot.volume == v
    && s.pot.currentBeat == old(s.pot.currentBeat) && s.pot.dragged == old(s.pot.dragged)
    && s.pot.showingLoopFeedback == old(s.pot.showingLoopFeedback)
  }

  /** A stove and its pot untouched. */
  twostate predicate StoveKept(s: Stovetop)
    reads s, s.pot
  {
    && s.totalDrag == old(s.totalDrag) && s.origin == old(s.origin) && s.originInit == old(s.originInit)
    && s.info == old(s.info)
    && s.pot.origin == old(s.pot.origin) && s.pot.originInit == old(s.pot.originInit)
    && s.pot.Queues() == old(s.pot.Queues()) && s.pot.volume == old(s.pot.volume)
    && s.pot.currentBeat == old(s.pot.currentBeat) && s.pot.dragged == old(s.pot.dragged)
    && s.pot.showingLoopFeedback == old(s.pot.showingLoopFeedback)
  }

  /**
   * The whole effect of a touch move on one stove: its pot's dragged loops
   * follow the touch (`m`), its loop feedback is refreshed and, when the
   * kitchen applies a drag, the stove is dragged by `delta` and its pot's
   * focus volume becomes `v`.
   */
  twostate predicate MovedStove(s: Stovetop, m: MoveInput, applied: bool, delta: Point, v: real, vp: Viewport)
    requires ValidMoveInput(m) && ValidViewport(vp)
    reads s, s.pot
  {
    var moved := MoveAll(old(s.pot.Queues()), old(s.pot.dragged), m);
    && s.pot.dragged == old(s.pot.dragged) && s.pot.currentBeat == old(s.pot.currentBeat)
    && s.pot.showingLoopFeedback == AnyNearCentre(old(s.pot.Queues()), old(s.pot.origin), s.pot.radius, s.pot.loopPct)
    && s.pot.originInit == old(s.pot.originInit) && s.originInit == old(s.originInit)
    && (applied ==>
          && s.pot.Queues() == DraggedChannels(moved, delta)
          && s.pot.origin == s.pot.originInit.Plus(delta) && s.pot.volume == v
          && s.origin == s.originInit.Plus(delta) && s.info == old(s.info).Dragged(delta)
          && s.totalDrag == Point(delta.x / vp.width as real, delta.y / vp.width as real))
    && (!applied ==>
          && s.pot.Queues() == moved
          && s.pot.origin == old(s.pot.origin) && s.pot.volume == old(s.pot.volume)
          && s.origin == old(s.origin) && s.info == old(s.info) && s.totalDrag == old(s.totalDrag))
  }

  /**
   * The queues of a pot after the loops of `items` under the touch were
   * dropped onto it, when the touch is on the pot.
   */
  twostate predicate HoldsDrops(pot: Pot, p: Point, vp: Viewport, m: DropInput, items: seq<PaletteItem>)
    requires ValidDropInput(m)
    reads pot
  {
    && pot.Queues() == (if pot.IsPointInside(p, vp) then AddAll(old(pot.Queues()), Drops(items, m)) else old(pot.Queues()))
    && pot.dragged == old(pot.dragged) && pot.PlaceAndSettingsKept()
  }

  /** The queues `base` of a pot with the drops of `items` added when the touch is on the pot. */
  function Cooked(base: Channels, onPot: bool, items: seq<PaletteItem>, m: DropInput): Channels
    requires ValidDropInput(m)
  {
    if onPot then AddAll(base, Drops(items, m)) else base
  }

  lemma AddAllSnoc(c: Channels, ns: seq<CookableNode>, n: CookableNode)
    ensures AddAll(c, ns + [n]) == AddOne(AddAll(c, ns), n)
  {
    assert (ns + [n])[..|ns|] == ns;
  }

  class Kitchen {
    const bpm: int
    const steps: int             // `OFX_POT_NUMSEQUENCERSTEPS`
    const createdMs: int
    const stoves: seq<Stovetop>  // `m_stovetops`, indexed as `StoveAt`
    var dragOffset: Point        // normalised, in [0,1] on both axes
    var bgPoints: seq<BGPoint>   // `m_draggedBackgroundPoints`

    ghost function StoveSet(): set<Stovetop> {
      set i | 0 <= i < |stoves| :: stoves[i]
    }

    ghost function PotSet(): set<Pot> {
      set i | 0 <= i < |stoves| :: stoves[i].pot
    }

    predicate Valid()
      reads this
    {
      && |stoves| == 4
      && (forall i :: 0 <= i < 4 ==> stoves[i].id == StoveAt(i) && stoves[i].Valid())
      && (forall i, j :: 0 <= i < j < 4 ==> stoves[i] != stoves[j] && stoves[i].pot != stoves[j].pot)
      && 0 < bpm <= 60000 && steps > 0
      && InUnitSquare(dragOffset)
    }

    /**
     * The stove-top part of `setup`: the four stoves at their places, no
     * drag and no background point.  The pots need a radius (a third of
     * the window height) of at least 1 and a beat of at least 1 ms.
     */
    constructor (bpm: int, steps: int, loopPct: real, vp: Viewport, now: int)
      requires ValidViewport(vp) && vp.height >= 3
      requires 0 < bpm <= 60000 && steps > 0 && loopPct > 0.0
      ensures Valid()
      ensures this.bpm == bpm && this.steps == steps && createdMs == now
      ensures dragOffset == Zero && bgPoints == []
      ensures forall i :: 0 <= i < 4 ==>
        && stoves[i].origin == PotOrigin(StoveAt(i), vp) && stoves[i].pot.origin == PotOrigin(StoveAt(i), vp)
        && stoves[i].pot.radius == vp.height / 3 && stoves[i].pot.bpm == bpm
        && stoves[i].pot.Queues() == Channels([], [], []) && stoves[i].pot.dragged == []
    {
      var fr := new Stovetop(FrontRight, PotOrigin(FrontRight, vp), bpm, vp, steps, loopPct, now);
      var fl := new Stovetop(FrontLeft, PotOrigin(FrontLeft, vp), bpm, vp, steps, loopPct, now);
      var rl := new Stovetop(RearLeft, PotOrigin(RearLeft, vp), bpm, vp, steps, loopPct, now);
      var rr := new Stovetop(RearRight, PotOrigin(RearRight, vp), bpm, vp, steps, loopPct, now);
      stoves := [fr, fl, rl, rr];
      this.bpm, this.steps := bpm, steps;
      createdMs := now;
      dragOffset := Zero;
      bgPoints := [];
    }

    // -------------------------------------------------------------------
    // update

    /** `update`: every stove gets the same sequencer step, the beat clock's. */
    method Update(now: int) returns (beat: int)
      requires Valid()
      modifies PotSet()
      ensures beat == BeatIndex(now, createdMs, bpm, steps)
      ensures forall i :: 0 <= i < 4 ==> stoves[i].pot.UpdatedBy(beat)
      ensures forall i :: 0 <= i < 4 ==> old(stoves[i].pot.QueuesWellFormed()) ==> stoves[i].pot.QueuesWellFormed()
    {
      var period := 1000 * 60 / bpm;
      var elapsed := (now - createdMs) as real / period as real;
      beat := TruncMod(elapsed.Floor, steps);
      UpdatePots(beat);
    }

    /** The stove loop of `update`. */
    method UpdatePots(beat: int)
      requires Valid()
      modifies PotSet()
      ensures forall i :: 0 <= i < 4 ==> stoves[i].pot.UpdatedBy(beat)
      ensures forall i :: 0 <= i < 4 ==> old(stoves[i].pot.QueuesWellFormed()) ==> stoves[i].pot.QueuesWellFormed()
    {
      var i := 0;
      while i < 4
        invariant 0 <= i <= 4
        invariant forall j :: 0 <= j < i ==> stoves[j].pot.UpdatedBy(beat)
        invariant forall j :: i <= j < 4 ==> unchanged(stoves[j].pot)
      {
        var _ := stoves[i].Update(beat);
        i := i + 1;
      }
      forall i | 0 <= i < 4 && old(stoves[i].pot.QueuesWellFormed())
        ensures stoves[i].pot.QueuesWellFormed()
      {
        var pot := stoves[i].pot;
        var nb := NewBeat(old(pot.currentBeat), beat, pot.steps);
        UpdateKeepsWellFormed(old(pot.drums), Drums, nb, pot.volume);
        UpdateKeepsWellFormed(old(pot.bass), Bass, nb, pot.volume);
        UpdateKeepsWellFormed(old(pot.lead), Lead, nb, pot.volume);
      }
    }

    // -------------------------------------------------------------------
    // Touch down

    /** Some of the first `k` stoves' pots would claim a touch at `p`. */
    function ClaimsUpTo(k: nat, p: Point, vp: Viewport): (r: bool)
      requires k <= |stoves|
      reads PotSet()
      ensures r <==> exists j :: 0 <= j < k && stoves[j].pot.Claims(p, vp)
    {
      if k == 0 then false else ClaimsUpTo(k - 1, p, vp) || stoves[k - 1].pot.Claims(p, vp)
    }

    /**
     * `mouseTouchDown`: every stove sees the touch (the program ors the
     * answers without short-circuit), and only a touch that neither the
     * menu nor a pot claims starts a background drag point.
     */
    method MouseTouchDown(x: real, y: real, fullRange: bool, vp: Viewport, menuClaimed: bool)
      returns (claimed: bool)
      requires Valid() && ValidViewport(vp)
      modifies this, PotSet()
      ensures Valid() && dragOffset == old(dragOffset)
      ensures claimed == (menuClaimed || old(ClaimsUpTo(4, Normalize(x, y, fullRange, vp), vp)))
      ensures forall i :: 0 <= i < 4 ==> stoves[i].pot.TouchedDownAt(Normalize(x, y, fullRange, vp), vp)
      ensures bgPoints == old(bgPoints) + (if claimed then [] else [NewBGPoint(Normalize(x, y, fullRange, vp))])
    {
      var p := Normalize(x, y, fullRange, vp);
      var potClaimed := TouchDownPots(x, y, fullRange, vp);
      claimed := menuClaimed || potClaimed;
      if !claimed {
        bgPoints := bgPoints + [NewBGPoint(p)];
      }
    }

    /** The stove loop of `mouseTouchDown`: every pot sees the touch. */
    method TouchDownPots(x: real, y: real, fullRange: bool, vp: Viewport) returns (claimed: bool)
      requires Valid() && ValidViewport(vp)
      modifies PotSet()
      ensures claimed == old(ClaimsUpTo(4, Normalize(x, y, fullRange, vp), vp))
      ensures forall i :: 0 <= i < 4 ==> stoves[i].pot.TouchedDownAt(Normalize(x, y, fullRange, vp), vp)
    {
      var p := Normalize(x, y, fullRange, vp);
      claimed := false;
      var i := 0;
      while i < 4
        invariant 0 <= i <= 4
        invariant claimed == old(ClaimsUpTo(i, p, vp))
        invariant forall j :: 0 <= j < i ==> stoves[j].pot.TouchedDownAt(p, vp)
        invariant forall j :: i <= j < 4 ==> unchanged(stoves[j].pot)
      {
        var c := stoves[i].MouseTouchDown(x, y, fullRange, vp);
        claimed := claimed || c;
        i := i + 1;
      }
    }

    // -------------------------------------------------------------------
    // Touch moved

    /** The program's distances from each pot's centre to the touch at `p`, in pixels. */
    predicate DistancesFit(p: Point, vp: Viewport, dists: seq<real>)
      reads PotSet()
    {
      |dists| == |stoves| &&
      forall i :: 0 <= i < |stoves| ==>
        0.0 <= dists[i] && dists[i] * dists[i] == SqDist(stoves[i].pot.origin, ToWorld(p, vp))
    }

    /** The move stove `i`'s pot applies to its dragged loops. */
    function MoveAt(i: int, x: real, y: real, fullRange: bool, vp: Viewport, dists: seq<real>): MoveInput
      requires 0 <= i < |stoves| && i < |dists| && ValidViewport(vp)
      reads this, stoves[i].pot
    {
      stoves[i].pot.MoveFor(x, y, fullRange, vp, dragOffset, dists[i])
    }

    /** The stove loop of `mouseTouchMoved`; no pot ever reports a find. */
    method MovePots(x: real, y: real, fullRange: bool, vp: Viewport, dists: seq<real>) returns (found: bool)
      requires Valid() && ValidViewport(vp) && DistancesFit(Normalize(x, y, fullRange, vp), vp, dists)
      modifies PotSet()
      ensures !found
      ensures forall i :: 0 <= i < 4 ==> stoves[i].pot.origin == old(stoves[i].pot.origin)
      ensures forall i :: 0 <= i < 4 ==>
        ValidMoveInput(MoveAt(i, x, y, fullRange, vp, dists))
        && stoves[i].pot.TouchMovedAt(MoveAt(i, x, y, fullRange, vp, dists))
    {
      found := false;
      var i := 0;
      while i < 4
        invariant 0 <= i <= 4 && !found
        invariant forall j :: 0 <= j < i ==> stoves[j].pot.origin == old(stoves[j].pot.origin)
        invariant forall j :: 0 <= j < i ==>
          ValidMoveInput(MoveAt(j, x, y, fullRange, vp, dists))
          && stoves[j].pot.TouchMovedAt(MoveAt(j, x, y, fullRange, vp, dists))
        invariant forall j :: i <= j < 4 ==> unchanged(stoves[j].pot)
      {
        var f := stoves[i].MouseTouchMoved(x, y, fullRange, vp, dragOffset, dists[i]);
        found := found || f;
        i := i + 1;
      }
    }

    /** The background loop of `mouseTouchMoved`: the points under the touch follow it. */
    static method MoveBGPoints(bgs: seq<BGPoint>, p: Point) returns (r: seq<BGPoint>)
      ensures r == MovedBGPoints(bgs, p)
    {
      r := bgs;
      var i := 0;
      while i < |r|
        invariant 0 <= i <= |r| == |bgs|
        invariant forall j :: 0 <= j < i ==> r[j] == MovedBGPoints(bgs, p)[j]
        invariant forall j :: i <= j < |r| ==> r[j] == bgs[j]
      {
        if r[i].Contains(p) {
          r := r[i := r[i].SetPosition(p)];
        }
        i := i + 1;
      }
    }

    /**
     * The drag loop of `mouseTouchMoved`: unless the offset is zero, every
     * stove is dragged by the offset in pixels and its pot's focus volume
     * becomes the stove's crossfade gain.
     */
    method ApplyDrag(vp: Viewport)
      requires Valid() && ValidViewport(vp)
      modifies StoveSet(), PotSet()
      ensures dragOffset != Zero ==> forall i :: 0 <= i < 4 ==>
        Focused(stoves[i], ToWorld(dragOffset, vp), CrossfadeVolume(StoveAt(i), dragOffset), vp)
      ensures dragOffset == Zero ==> forall i :: 0 <= i < 4 ==> StoveKept(stoves[i])
    {
      var i := 0;
      while i < 4
        invariant 0 <= i <= 4
        invariant dragOffset != Zero ==> forall j :: 0 <= j < i ==>
          Focused(stoves[j], ToWorld(dragOffset, vp), CrossfadeVolume(StoveAt(j), dragOffset), vp)
        invariant dragOffset == Zero ==> forall j :: 0 <= j < i ==> StoveKept(stoves[j])
        invariant forall j :: i <= j < 4 ==> unchanged(stoves[j], stoves[j].pot)
      {
        if dragOffset.x != 0.0 || dragOffset.y != 0.0 {
          var s := stoves[i];
          s.Drag(ToWorld(dragOffset, vp), vp);
          s.pot.SetFocusVolume(s.GetCrossfadeVolume(dragOffset));
        }
        i := i + 1;
      }
    }

    /** The background points after a move, given whether the touch was claimed. */
    function BackgroundAfterMove(bgs: seq<BGPoint>, p: Point, claimed: bool): seq<BGPoint> {
      if claimed then bgs else MovedBGPoints(bgs, p)
    }

    /**
     * `mouseTouchMoved`: the pots move their dragged loops (with the drag
     * offset before this move); an unclaimed touch moves the background
     * points under it; with exactly one background point the offset takes
     * its step, clamped to the unit square, and a non-zero offset drags
     * every stove and sets every pot's crossfade volume.
     */
    method MouseTouchMoved(x: real, y: real, fullRange: bool, vp: Viewport, menuClaimed: bool, dists: seq<real>)
      requires Valid() && ValidViewport(vp) && DistancesFit(Normalize(x, y, fullRange, vp), vp, dists)
      modifies this, StoveSet(), PotSet()
      ensures Valid()
      ensures bgPoints == BackgroundAfterMove(old(bgPoints), Normalize(x, y, fullRange, vp), menuClaimed)
      ensures dragOffset ==
        if |bgPoints| == 1 then NextDragOffset(old(dragOffset), bgPoints[0].GetDrag(true)) else old(dragOffset)
      ensures forall i :: 0 <= i < 4 ==>
        ValidMoveInput(old(MoveAt(i, x, y, fullRange, vp, dists)))
        && MovedStove(stoves[i], old(MoveAt(i, x, y, fullRange, vp, dists)),
                      |bgPoints| == 1 && dragOffset != Zero, ToWorld(dragOffset, vp),
                      CrossfadeVolume(StoveAt(i), dragOffset), vp)
      ensures forall i :: 0 <= i < 4 ==> old(stoves[i].pot.QueuesWellFormed()) ==> stoves[i].pot.QueuesWellFormed()
    {
      var p := Normalize(x, y, fullRange, vp);
      var found := MovePots(x, y, fullRange, vp, dists);
      label Moved:
      var claimed := menuClaimed || found;
      if !claimed {
        bgPoints := MoveBGPoints(bgPoints, p);
      }
      if |bgPoints| == 1 {
        dragOffset := NextDragOffset(dragOffset, bgPoints[0].GetDrag(true));
        ApplyDrag(vp);
      }
      forall i | 0 <= i < 4
        ensures ValidMoveInput(old(MoveAt(i, x, y, fullRange, vp, dists)))
        ensures MovedStove(stoves[i], old(MoveAt(i, x, y, fullRange, vp, dists)),
                           |bgPoints| == 1 && dragOffset != Zero, ToWorld(dragOffset, vp),
                           CrossfadeVolume(StoveAt(i), dragOffset), vp)
      {
        assert old(MoveAt(i, x, y, fullRange, vp, dists)) == old@Moved(MoveAt(i, x, y, fullRange, vp, dists));
      }
      forall i | 0 <= i < 4 && old(stoves[i].pot.QueuesWellFormed())
        ensures stoves[i].pot.QueuesWellFormed()
      {
        var m := old(MoveAt(i, x, y, fullRange, vp, dists));
        var moved := MoveAll(old(stoves[i].pot.Queues()), old(stoves[i].pot.dragged), m);
        MoveAllKeepsWellFormed(old(stoves[i].pot.Queues()), old(stoves[i].pot.dragged), m);
        DragAndReleaseKeepWellFormed(moved, ToWorld(dragOffset, vp), true, p, vp);
      }
    }

    // -------------------------------------------------------------------
    // Touch up

    /** The stove loop of `mouseTouchUp`. */
    method ReleasePots(x: real, y: real, fullRange: bool, vp: Viewport)
      requires Valid() && ValidViewport(vp)
      modifies PotSet()
      ensures forall i :: 0 <= i < 4 ==> stoves[i].pot.ReleasedAt(Normalize(x, y, fullRange, vp), vp)
      ensures forall i :: 0 <= i < 4 ==> stoves[i].pot.origin == old(stoves[i].pot.origin)
    {
      var p := Normalize(x, y, fullRange, vp);
      var i := 0;
      while i < 4
        invariant 0 <= i <= 4
        invariant forall j :: 0 <= j < i ==> stoves[j].pot.ReleasedAt(p, vp) && stoves[j].pot.origin == old(stoves[j].pot.origin)
        invariant forall j :: i <= j < 4 ==> unchanged(stoves[j].pot)
      {
        stoves[i].MouseTouchUp(x, y, fullRange, vp);
        i := i + 1;
      }
    }

    /** What a drop onto stove `i`'s pot needs. */
    function DropAt(i: int, p: Point, vp: Viewport, now: int, dists: seq<real>): DropInput
      requires 0 <= i < |stoves| && i < |dists|
      reads this, stoves[i].pot
    {
      DropInput(stoves[i].pot.origin, stoves[i].pot.radius, p, vp, dragOffset, dists[i], now)
    }

    /** The drops onto every pot are well defined: radius and distance fit. */
    predicate DropsFit(p: Point, vp: Viewport, now: int, dists: seq<real>)
      reads this, PotSet()
    {
      |dists| == |stoves| && forall j :: 0 <= j < |stoves| ==> ValidDropInput(DropAt(j, p, vp, now, dists))
    }

    /** The program's distances make every pot's drop well defined. */
    lemma DistancesFitDrops(p: Point, vp: Viewport, now: int, dists: seq<real>)
      requires Valid() && ValidViewport(vp) && DistancesFit(p, vp, dists)
      ensures DropsFit(p, vp, now, dists)
    {
      forall j | 0 <= j < 4
        ensures ValidDropInput(DropAt(j, p, vp, now, dists))
      {
        assert stoves[j].Valid();
      }
    }

    /** Every pot under the touch receives the loop `item` becomes there. */
    method DropItem(item: PaletteItem, x: real, y: real, fullRange: bool, vp: Viewport, now: int, dists: seq<real>)
      requires Valid() && ValidViewport(vp) && DropsFit(Normalize(x, y, fullRange, vp), vp, now, dists)
      modifies PotSet()
      ensures DropsFit(Normalize(x, y, fullRange, vp), vp, now, dists)
      ensures forall i :: 0 <= i < 4 ==>
        && DropAt(i, Normalize(x, y, fullRange, vp), vp, now, dists) == old(DropAt(i, Normalize(x, y, fullRange, vp), vp, now, dists))
        && stoves[i].pot.Queues() == (if stoves[i].pot.IsPointInside(Normalize(x, y, fullRange, vp), vp) then
             AddOne(old(stoves[i].pot.Queues()), DroppedNode(item, DropAt(i, Normalize(x, y, fullRange, vp), vp, now, dists)))
           else old(stoves[i].pot.Queues()))
        && stoves[i].pot.dragged == old(stoves[i].pot.dragged) && stoves[i].pot.PlaceAndSettingsKept()
    {
      var p := Normalize(x, y, fullRange, vp);
      var i := 0;
      while i < 4
        invariant 0 <= i <= 4
        invariant forall j :: 0 <= j < i ==>
          && DropAt(j, p, vp, now, dists) == old(DropAt(j, p, vp, now, dists))
          && stoves[j].pot.Queues() == (if stoves[j].pot.IsPointInside(p, vp) then
               AddOne(old(stoves[j].pot.Queues()), DroppedNode(item, DropAt(j, p, vp, now, dists)))
             else old(stoves[j].pot.Queues()))
          && stoves[j].pot.dragged == old(stoves[j].pot.dragged) && stoves[j].pot.PlaceAndSettingsKept()
        invariant forall j :: i <= j < 4 ==> unchanged(stoves[j].pot)
        invariant DropsFit(p, vp, now, dists)
      {
        var s := stoves[i];
        if s.IsPointInPot(x, y, fullRange, vp) {
          var m := DropInput(s.pot.origin, s.pot.radius, p, vp, dragOffset, dists[i], now);
          assert m == DropAt(i, p, vp, now, dists);
          s.AddCookElement(DroppedNode(item, m));
        }
        i := i + 1;
      }
    }

    /**
     * One turn of the palette loop of `mouseTouchUp`: an item under the
     * touch is dropped onto every pot under the touch.  `bases` are the
     * queues before the loop and `done` the items already handled.
     */
    method DropStep(item: PaletteItem, x: real, y: real, fullRange: bool, vp: Viewport, now: int,
                    dists: seq<real>, ghost ms: seq<DropInput>, ghost bases: seq<Channels>,
                    ghost done: seq<PaletteItem>)
      requires Valid() && ValidViewport(vp) && DropsFit(Normalize(x, y, fullRange, vp), vp, now, dists)
      requires |ms| == 4 && |bases| == 4
      requires forall j :: 0 <= j < 4 ==> ms[j] == DropAt(j, Normalize(x, y, fullRange, vp), vp, now, dists)
      requires forall j :: 0 <= j < 4 ==>
        stoves[j].pot.Queues() == Cooked(bases[j], stoves[j].pot.IsPointInside(Normalize(x, y, fullRange, vp), vp), done, ms[j])
      modifies PotSet()
      ensures DropsFit(Normalize(x, y, fullRange, vp), vp, now, dists)
      ensures forall j :: 0 <= j < 4 ==> ms[j] == DropAt(j, Normalize(x, y, fullRange, vp), vp, now, dists)
      ensures forall j :: 0 <= j < 4 ==>
        stoves[j].pot.Queues() == Cooked(bases[j], stoves[j].pot.IsPointInside(Normalize(x, y, fullRange, vp), vp), done + [item], ms[j])
      ensures forall j :: 0 <= j < 4 ==> stoves[j].pot.dragged == old(stoves[j].pot.dragged) && stoves[j].pot.PlaceAndSettingsKept()
    {
      var p := Normalize(x, y, fullRange, vp);
      if item.Contains(p, vp) {
        DropItem(item, x, y, fullRange, vp, now, dists);
        forall j | 0 <= j < 4
          ensures Drops(done + [item], ms[j]) == Drops(done, ms[j]) + [DroppedNode(item, ms[j])]
          ensures AddAll(bases[j], Drops(done + [item], ms[j]))
                  == AddOne(AddAll(bases[j], Drops(done, ms[j])), DroppedNode(item, ms[j]))
        {
          assert (done + [item])[..|done|] == done;
          AddAllSnoc(bases[j], Drops(done, ms[j]), DroppedNode(item, ms[j]));
        }
      } else {
        forall j | 0 <= j < 4
          ensures Drops(done + [item], ms[j]) == Drops(done, ms[j])
        {
          assert (done + [item])[..|done|] == done;
          assert Drops(done, ms[j]) + [] == Drops(done, ms[j]);
        }
      }
    }

    /**
     * The palette loop of `mouseTouchUp`: each dragged item under the touch
     * is dropped onto every pot under the touch and leaves the list.
     */
    method DropPalette(x: real, y: real, fullRange: bool, vp: Viewport, now: int, dists: seq<real>,
                       palette: seq<PaletteItem>) returns (remaining: seq<PaletteItem>)
      requires Valid() && ValidViewport(vp) && DropsFit(Normalize(x, y, fullRange, vp), vp, now, dists)
      modifies PotSet()
      ensures remaining == Remaining(palette, Normalize(x, y, fullRange, vp), vp)
      ensures forall i :: 0 <= i < 4 ==>
        && ValidDropInput(old(DropAt(i, Normalize(x, y, fullRange, vp), vp, now, dists)))
        && HoldsDrops(stoves[i].pot, Normalize(x, y, fullRange, vp), vp,
                      old(DropAt(i, Normalize(x, y, fullRange, vp), vp, now, dists)), palette)
    {
      var p := Normalize(x, y, fullRange, vp);
      ghost var ms := [DropAt(0, p, vp, now, dists), DropAt(1, p, vp, now, dists),
                       DropAt(2, p, vp, now, dists), DropAt(3, p, vp, now, dists)];
      ghost var bases := [stoves[0].pot.Queues(), stoves[1].pot.Queues(),
                          stoves[2].pot.Queues(), stoves[3].pot.Queues()];
      remaining := palette;
      var i := 0;
      ghost var k := 0;
      while i < |remaining|
        invariant 0 <= i <= |remaining| && 0 <= k <= |palette|
        invariant remaining[..i] == Remaining(palette[..k], p, vp)
        invariant remaining[i..] == palette[k..]
        invariant DropsFit(p, vp, now, dists)
        invariant forall j :: 0 <= j < 4 ==> ms[j] == DropAt(j, p, vp, now, dists)
        invariant forall j :: 0 <= j < 4 ==>
          stoves[j].pot.Queues() == Cooked(bases[j], stoves[j].pot.IsPointInside(p, vp), palette[..k], ms[j])
        invariant forall j :: 0 <= j < 4 ==>
          stoves[j].pot.dragged == old(stoves[j].pot.dragged) && stoves[j].pot.PlaceAndSettingsKept()
      {
        assert palette[..k + 1] == palette[..k] + [palette[k]];
        assert palette[k] == remaining[i];
        assert remaining[i + 1..] == remaining[i..][1..];
        var item := remaining[i];
        DropStep(item, x, y, fullRange, vp, now, dists, ms, bases, palette[..k]);
        if item.Contains(p, vp) {
          var rest := remaining[i + 1..];
          remaining := remaining[..i] + rest;
          assert remaining[i..] == rest;
        } else {
          assert remaining[..i + 1] == remaining[..i] + [remaining[i]];
          i := i + 1;
        }
        k := k + 1;
      }
      assert palette[..k] == palette;
      assert remaining[..i] == remaining;
    }

    /** The background loop of `mouseTouchUp`: the points under the touch are removed. */
    static method RemoveBGPoints(bgs: seq<BGPoint>, p: Point) returns (r: seq<BGPoint>)
      ensures r == KeptBGPoints(bgs, p)
    {
      r := bgs;
      var i := 0;
      ghost var k := 0;
      while i < |r|
        invariant 0 <= i <= |r| && 0 <= k <= |bgs|
        invariant r[..i] == KeptBGPoints(bgs[..k], p)
        invariant r[i..] == bgs[k..]
      {
        assert bgs[..k + 1][..k] == bgs[..k];
        assert bgs[k] == r[i];
        assert r[i + 1..] == r[i..][1..];
        if r[i].Contains(p) {
          var rest := r[i + 1..];
          r := r[..i] + rest;
          assert r[i..] == rest;
        } else {
          assert r[..i + 1] == r[..i] + [r[i]];
          i := i + 1;
        }
        k := k + 1;
      }
      assert bgs[..k] == bgs;
      assert r[..i] == r;
    }

    /**
     * `mouseTouchUp`: the pots release the touch (forgetting the loops they
     * were dragging there and, off the pot, throwing out the loops under
     * it); then every dragged menu item under the touch is dropped onto
     * every pot under the touch and leaves the menu's list, which is
     * returned; the background points under the touch are removed.
     */
    method MouseTouchUp(x: real, y: real, fullRange: bool, vp: Viewport, now: int, dists: seq<real>,
                        palette: seq<PaletteItem>) returns (remaining: seq<PaletteItem>)
      requires Valid() && ValidViewport(vp) && DistancesFit(Normalize(x, y, fullRange, vp), vp, dists)
      modifies this, PotSet()
      ensures Valid() && dragOffset == old(dragOffset)
      ensures remaining == Remaining(palette, Normalize(x, y, fullRange, vp), vp)
      ensures bgPoints == KeptBGPoints(old(bgPoints), Normalize(x, y, fullRange, vp))
      ensures forall i :: 0 <= i < 4 ==>
        var pot := stoves[i].pot;
        var p := Normalize(x, y, fullRange, vp);
        && ValidDropInput(old(DropAt(i, p, vp, now, dists)))
        && pot.dragged == KeptHandles(old(pot.dragged), old(pot.Queues()), p, vp)
        && pot.Queues() == (if old(pot.IsPointInside(p, vp)) then
             AddAll(old(pot.Queues()), Drops(palette, old(DropAt(i, p, vp, now, dists))))
           else AfterRelease(old(pot.Queues()), false, p, vp))
        && pot.PlaceAndSettingsKept()
      ensures forall i :: 0 <= i < 4 ==> old(stoves[i].pot.QueuesWellFormed()) ==> stoves[i].pot.QueuesWellFormed()
    {
      var p := Normalize(x, y, fullRange, vp);
      ReleasePots(x, y, fullRange, vp);
      label Released:
      assert DistancesFit(p, vp, dists);
      DistancesFitDrops(p, vp, now, dists);
      remaining := DropPalette(x, y, fullRange, vp, now, dists, palette);
      bgPoints := RemoveBGPoints(bgPoints, p);
      forall i | 0 <= i < 4
        ensures old(DropAt(i, p, vp, now, dists)) == old@Released(DropAt(i, p, vp, now, dists))
      {
      }
      forall i | 0 <= i < 4 && old(stoves[i].pot.QueuesWellFormed())
        ensures stoves[i].pot.QueuesWellFormed()
      {
        var c := old(stoves[i].pot.Queues());
        DragAndReleaseKeepWellFormed(c, Zero, false, p, vp);
        DropsKeepWellFormed(c, palette, old(DropAt(i, p, vp, now, dists)));
      }
    }
  }
}
