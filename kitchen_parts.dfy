/**
 * The value-level parts of the kitchen (`metaphorKitchen`): the beat clock,
 * the background points a finger drags, the drag offset, and the loops a
 * palette item turns into when it is dropped onto a pot.
 */
module KitchenParts {
  import opened Geometry
  import opened CInts
  import opened CookableNodes
  import opened Pots

  // ---------------------------------------------------------------------
  // The beat clock

  /** `(int)(1000 * 60 / m_nBPM)`: the length of one beat in milliseconds. */
  function BeatPeriod(bpm: int): (ms: int)
    requires 0 < bpm <= 60000
    ensures 1 <= ms && ms * bpm <= 60000 < (ms + 1) * bpm
  {
    var q := 1000 * 60 / bpm;
    assert 60000 == q * bpm + 60000 % bpm;
    q
  }

  /**
   * The step of the sequencer `update` hands to every stove: the whole
   * number of beats since the kitchen was created, reduced (with C++'s
   * truncating `%`) to the number of steps.
   */
  function BeatIndex(now: int, start: int, bpm: int, steps: int): int
    requires 0 < bpm <= 60000 && steps > 0
  {
    var elapsed := (now - start) as real / BeatPeriod(bpm) as real;
    TruncMod(elapsed.Floor, steps)
  }

  /** The floor of a quotient of a non-negative integer by a positive one is their integer quotient. */
  lemma FloorOfQuotient(e: int, b: int)
    requires e >= 0 && b > 0
    ensures (e as real / b as real).Floor == e / b
  {
    var q := e / b;
    var br, qr := b as real, q as real;
    var x := e as real / br;
    var xb := x * br;
    assert xb == e as real;
    var qb := qr * br;
    var q1b := (qr + 1.0) * br;
    assert q1b == qb + br;
    assert qb <= xb < q1b by {
      assert e == q * b + e % b && 0 <= e % b < b;
      assert (q * b) as real == qb;
    }
    MulCancel(qr, x, br);
    MulCancel(x, qr + 1.0, br);
    FloorBetween(x, q);
  }

  /** A real between two consecutive integers has the lower one as its floor. */
  lemma FloorBetween(x: real, q: int)
    requires q as real <= x < q as real + 1.0
    ensures x.Floor == q
  {
  }

  /**
   * Once the clock has passed the creation time, the step is the number of
   * whole beats elapsed modulo the step count, so it lies in [0, steps).
   * Before it, C++'s remainder would give a step in (-steps, 0].
   */
  lemma BeatIndexSpec(now: int, start: int, bpm: int, steps: int)
    requires 0 < bpm <= 60000 && steps > 0
    ensures now >= start ==>
      BeatIndex(now, start, bpm, steps) == ((now - start) / BeatPeriod(bpm)) % steps
    ensures now >= start ==> 0 <= BeatIndex(now, start, bpm, steps) < steps
    ensures -steps < BeatIndex(now, start, bpm, steps) < steps
  {
    var period := BeatPeriod(bpm);
    var f := ((now - start) as real / period as real).Floor;
    TruncDivMod(f, steps);
    if now >= start {
      FloorOfQuotient(now - start, period);
    }
  }

  /** At 120 bpm a beat lasts 500 ms: 1250 ms in, a 16-step sequencer is on step 2. */
  lemma BeatIndexExample()
    ensures BeatIndex(1250, 0, 120, 16) == 2
    ensures BeatIndex(8250, 0, 120, 16) == 0
  {
    assert BeatPeriod(120) == 500;
    BeatIndexSpec(1250, 0, 120, 16);
    BeatIndexSpec(8250, 0, 120, 16);
  }

  // ---------------------------------------------------------------------
  // Background drag points

  /** `draggedBGPoint`'s radius, compared against normalised coordinates. */
  const BGRadius: real := 20.0

  /**
   * A `draggedBGPoint`: its position, where its drag started and where it
   * was on the previous move, all normalised.
   */
  datatype BGPoint = BGPoint(pos: Point, start: Point, lastFrame: Point)
  {
    /** `setPosition`: the old position becomes the previous frame. */
    function SetPosition(pt: Point): BGPoint {
      BGPoint(pt, start, pos)
    }

    /** `getDrag`: since the previous move, or since the start. */
    function GetDrag(incremental: bool): Point {
      if incremental then pos.Minus(lastFrame) else pos.Minus(start)
    }

    /** `isPointInside`: within `BGRadius` of the point. */
    predicate Contains(pt: Point) {
      InDisk(pt, pos, BGRadius)
    }
  }

  /** The point a touch down on the background creates. */
  function NewBGPoint(p: Point): BGPoint {
    BGPoint(p, p, p)
  }

  /**
   * A new point has not moved; moving a point to `pt` makes its incremental
   * drag the step just made, and its total drag the previous total plus
   * that step.
   */
  lemma BGPointDrag(b: BGPoint, p: Point, pt: Point)
    ensures NewBGPoint(p).GetDrag(true) == Zero && NewBGPoint(p).GetDrag(false) == Zero
    ensures b.SetPosition(pt).GetDrag(true) == pt.Minus(b.pos)
    ensures b.SetPosition(pt).GetDrag(false) == b.GetDrag(false).Plus(b.SetPosition(pt).GetDrag(true))
    ensures b.SetPosition(pt).start == b.start
  {
  }

  /**
   * Since the radius is compared against normalised coordinates, a point
   * on the screen contains every touch on the screen.
   */
  lemma {:induction false} BGPointCoversScreen(b: BGPoint, pt: Point)
    requires InUnitSquare(b.pos) && InUnitSquare(pt)
    ensures b.Contains(pt)
  {
    var dx, dy := pt.x - b.pos.x, pt.y - b.pos.y;
    UnitSquare(dx);
    UnitSquare(dy);
    assert SqDist(pt, b.pos) == dx * dx + dy * dy;
  }

  lemma UnitSquare(v: real)
    requires -1.0 <= v <= 1.0
    ensures v * v <= 1.0
  {
    var a := if v >= 0.0 then v else -v;
    assert a * a == v * v;
    SquareMonotone(a, 1.0);
  }

  /** The background points after a move to `p`: those containing `p` follow it. */
  function MovedBGPoints(bgs: seq<BGPoint>, p: Point): (r: seq<BGPoint>)
    ensures |r| == |bgs|
  {
    seq(|bgs|, i requires 0 <= i < |bgs| => if bgs[i].Contains(p) then bgs[i].SetPosition(p) else bgs[i])
  }

  /**
   * After a move, a point that contained the touch sits on it with the step
   * as its incremental drag; the others have not moved.  On the screen,
   * every point follows.
   */
  lemma MovedBGPointsSpec(bgs: seq<BGPoint>, p: Point)
    ensures forall i :: 0 <= i < |bgs| && bgs[i].Contains(p) ==>
      MovedBGPoints(bgs, p)[i].pos == p && MovedBGPoints(bgs, p)[i].GetDrag(true) == p.Minus(bgs[i].pos)
    ensures forall i :: 0 <= i < |bgs| && !bgs[i].Contains(p) ==> MovedBGPoints(bgs, p)[i] == bgs[i]
    ensures InUnitSquare(p) && (forall i :: 0 <= i < |bgs| ==> InUnitSquare(bgs[i].pos)) ==>
      forall i :: 0 <= i < |bgs| ==> MovedBGPoints(bgs, p)[i].pos == p
  {
    if InUnitSquare(p) && (forall i :: 0 <= i < |bgs| ==> InUnitSquare(bgs[i].pos)) {
      forall i | 0 <= i < |bgs|
        ensures MovedBGPoints(bgs, p)[i].pos == p
      {
        BGPointCoversScreen(bgs[i], p);
      }
    }
  }

  /** The background points a release at `p` leaves: those not containing it, in order. */
  function KeptBGPoints(bgs: seq<BGPoint>, p: Point): seq<BGPoint> {
    if |bgs| == 0 then []
    else
      var last := bgs[|bgs| - 1];
      KeptBGPoints(bgs[..|bgs| - 1], p) + (if last.Contains(p) then [] else [last])
  }

  /** A background point survives a release exactly when it does not contain the point. */
  lemma {:induction false} KeptBGPointsMembers(bgs: seq<BGPoint>, p: Point)
    ensures forall b :: b in KeptBGPoints(bgs, p) <==> b in bgs && !b.Contains(p)
    ensures |KeptBGPoints(bgs, p)| <= |bgs|
  {
    if |bgs| > 0 {
      var init := bgs[..|bgs| - 1];
      assert bgs == init + [bgs[|bgs| - 1]];
      KeptBGPointsMembers(init, p);
    }
  }

  /** The release filter distributes over concatenation. */
  lemma {:induction false} KeptBGPointsAppend(a: seq<BGPoint>, b: seq<BGPoint>, p: Point)
    ensures KeptBGPoints(a + b, p) == KeptBGPoints(a, p) + KeptBGPoints(b, p)
    decreases |b|
  {
    if |b| > 0 {
      var b0, last := b[..|b| - 1], b[|b| - 1];
      assert (a + b)[..|a + b| - 1] == a + b0;
      assert (a + b)[|a + b| - 1] == last;
      KeptBGPointsAppend(a, b0, p);
    } else {
      assert a + b == a;
    }
  }

  // ---------------------------------------------------------------------
  // The drag offset

  /**
   * The kitchen's drag offset after a one-finger move: the previous offset
   * plus the finger's step, clamped to [0,1] on each axis.
   */
  function NextDragOffset(offset: Point, step: Point): (r: Point)
    ensures InUnitSquare(r)
  {
    Point(Clamp01(offset.x + step.x), Clamp01(offset.y + step.y))
  }

  /** Inside the square the step is taken whole; beyond an edge the offset stops on it. */
  lemma NextDragOffsetSpec(offset: Point, step: Point)
    ensures InUnitSquare(offset.Plus(step)) ==> NextDragOffset(offset, step) == offset.Plus(step)
    ensures offset.x + step.x < 0.0 ==> NextDragOffset(offset, step).x == 0.0
    ensures offset.x + step.x > 1.0 ==> NextDragOffset(offset, step).x == 1.0
    ensures offset.y + step.y < 0.0 ==> NextDragOffset(offset, step).y == 0.0
    ensures offset.y + step.y > 1.0 ==> NextDragOffset(offset, step).y == 1.0
  {
  }

  // ---------------------------------------------------------------------
  // Dropping palette items onto pots

  /**
   * A loop of the menu (`ofxTactoBeatNode`) being dragged: its colour,
   * radius, lifetime, sound file, type, length in beats and origin (pixels).
   */
  datatype PaletteItem = PaletteItem(color: int, radius: int, lifetimeMs: int, path: string,
                                     loopType: LoopType, loopLength: int, origin: Point)
  {
    /** The normalised touch, in pixels, lies on the item. */
    predicate Contains(p: Point, vp: Viewport) {
      InDisk(ToWorld(p, vp), origin, radius as real)
    }
  }

  /** What a drop onto one pot needs: its centre and radius, and the touch. */
  datatype DropInput = DropInput(centre: Point, radius: int, p: Point, vp: Viewport, offset: Point, d: real, now: int)

  predicate ValidDropInput(m: DropInput) {
    ValidViewport(m.vp) && m.radius > 0 && 0.0 <= m.d
    && m.d * m.d == SqDist(m.centre, ToWorld(m.p, m.vp))
  }

  /**
   * The cookable node a palette item becomes on a pot: a looping node whose
   * beat length is first the item's lifetime and then its loop length,
   * placed at the item, with the undragged origin taking the kitchen's
   * offset back out, and its volume and low-pass mapped from the touch.
   */
  function DroppedNode(item: PaletteItem, m: DropInput): CookableNode
    requires ValidDropInput(m)
  {
    var n := NewCookableNode(item.color, item.radius, item.lifetimeMs, item.path, true,
                             item.loopType, item.lifetimeMs, m.now);
    n.(origin := item.origin,
       originInit := item.origin.Minus(ToWorld(m.offset, m.vp)),
       loopLength := item.loopLength,
       relativeVolume := DistanceVolume(m.d, m.radius))
     .SetLowpass(RelHeight(m.centre.y, m.radius, m.p.y * m.vp.height as real))
  }

  /**
   * A dropped loop has the item's type and length, volume 1.5 (1 - d/r),
   * low-pass the height above the bottom of the pot over its diameter, no
   * stutter and no playback yet; dropped inside the pot, its volume is in
   * [0, 1.5] and its low-pass in [0, 1].
   */
  lemma DroppedNodeSpec(item: PaletteItem, m: DropInput)
    requires ValidDropInput(m)
    ensures var n := DroppedNode(item, m);
      && n.soundType == item.loopType && n.loopLength == item.loopLength && n.loopable
      && n.fileName == item.path && n.lifetimeMs == item.lifetimeMs && n.createdMs == m.now
      && n.origin == item.origin && n.originInit.Plus(ToWorld(m.offset, m.vp)) == item.origin
      && n.relativeVolume == 1.5 * (1.0 - m.d / m.radius as real)
      && n.lowpass == (m.centre.y + m.radius as real - m.p.y * m.vp.height as real) / (2.0 * m.radius as real)
      && n.loopBeats == 0 && n.currLoopBeat == 0 && n.loopStartBeat == 0 && !n.playing
    ensures InDisk(ToWorld(m.p, m.vp), m.centre, m.radius as real) ==>
      0.0 <= DroppedNode(item, m).relativeVolume <= 1.5 && 0.0 <= DroppedNode(item, m).lowpass <= 1.0
  {
    var world := ToWorld(m.p, m.vp);
    if InDisk(world, m.centre, m.radius as real) {
      assert SqDist(world, m.centre) == SqDist(m.centre, world);
      InDiskByDistance(world, m.centre, m.radius as real, m.d);
      InDiskBoundsY(world, m.centre, m.radius as real);
      MappingRange(m.radius, m.d, m.centre.y, world.y);
      assert DroppedNode(item, m).lowpass == RelHeight(m.centre.y, m.radius, world.y);
    }
  }

  /** The loops one pot receives from a release: one per item containing the touch, in order. */
  function Drops(items: seq<PaletteItem>, m: DropInput): seq<CookableNode>
    requires ValidDropInput(m)
  {
    if |items| == 0 then []
    else
      var last := items[|items| - 1];
      Drops(items[..|items| - 1], m) + (if last.Contains(m.p, m.vp) then [DroppedNode(last, m)] else [])
  }

  /** The items still being dragged after a release at `p`: those not containing it. */
  function Remaining(items: seq<PaletteItem>, p: Point, vp: Viewport): seq<PaletteItem> {
    if |items| == 0 then []
    else
      var last := items[|items| - 1];
      Remaining(items[..|items| - 1], p, vp) + (if last.Contains(p, vp) then [] else [last])
  }

  /**
   * Every item is either dropped or kept: an item containing the touch
   * leaves the dragged list and gives each pot one loop; the others stay.
   */
  lemma {:induction false} DropsAndRemaining(items: seq<PaletteItem>, m: DropInput)
    requires ValidDropInput(m)
    ensures forall it :: it in Remaining(items, m.p, m.vp) <==> it in items && !it.Contains(m.p, m.vp)
    ensures |Drops(items, m)| + |Remaining(items, m.p, m.vp)| == |items|
  {
    if |items| > 0 {
      var init := items[..|items| - 1];
      assert items == init + [items[|items| - 1]];
      DropsAndRemaining(init, m);
    }
  }

  function AddAll(c: Channels, ns: seq<CookableNode>): Channels {
    if |ns| == 0 then c else AddOne(AddAll(c, ns[..|ns| - 1]), ns[|ns| - 1])
  }

  /** The nodes of `ns` of type `t`, in order. */
  function OfType(ns: seq<CookableNode>, t: LoopType): seq<CookableNode> {
    if |ns| == 0 then []
    else
      var last := ns[|ns| - 1];
      OfType(ns[..|ns| - 1], t) + (if last.soundType == t then [last] else [])
  }

  /** Adding nodes one by one appends to each queue exactly the nodes of its type, in order. */
  lemma {:induction false} AddAllByType(c: Channels, ns: seq<CookableNode>, t: LoopType)
    ensures AddAll(c, ns).Get(t) == c.Get(t) + OfType(ns, t)
  {
    if |ns| > 0 {
      var init, last := ns[..|ns| - 1], ns[|ns| - 1];
      AddAllByType(c, init, t);
      var mid := AddAll(c, init);
      GetWith(mid, last.soundType, mid.Get(last.soundType) + [last], t);
    }
  }

  /** Two values of the three queues are equal when every queue is. */
  lemma ChannelsByQueue(a: Channels, b: Channels)
    requires forall t :: a.Get(t) == b.Get(t)
    ensures a == b
  {
    assert a.Get(Drums) == b.Get(Drums);
    assert a.Get(Bass) == b.Get(Bass);
    assert a.Get(Lead) == b.Get(Lead);
  }

  /** The queues of `c` with every node dragged. */
  function DraggedChannels(c: Channels, delta: Point): Channels {
    Channels(Dragged(c.drums, delta), Dragged(c.bass, delta), Dragged(c.lead, delta))
  }

  /** The queues a pot keeps on a release at `p`, given whether `p` is on the pot. */
  function AfterRelease(c: Channels, onPot: bool, p: Point, vp: Viewport): Channels {
    if onPot then c else Channels(Evicted(c.drums, p, vp), Evicted(c.bass, p, vp), Evicted(c.lead, p, vp))
  }

  /** No dropped loop is playing yet. */
  lemma {:induction false} DropsSilent(items: seq<PaletteItem>, m: DropInput)
    requires ValidDropInput(m)
    ensures forall i :: 0 <= i < |Drops(items, m)| ==> !Drops(items, m)[i].playing
  {
    if |items| > 0 {
      var last := items[|items| - 1];
      DropsSilent(items[..|items| - 1], m);
      DroppedNodeSpec(last, m);
    }
  }

  /** Adding silent nodes keeps the queues well formed. */
  lemma {:induction false} AddAllSilentWellFormed(c: Channels, ns: seq<CookableNode>)
    requires WellFormed(c)
    requires forall i :: 0 <= i < |ns| ==> !ns[i].playing
    ensures WellFormed(AddAll(c, ns))
  {
    if |ns| > 0 {
      AddAllSilentWellFormed(c, ns[..|ns| - 1]);
      AddOneWellFormed(AddAll(c, ns[..|ns| - 1]), ns[|ns| - 1]);
    }
  }

  /** A drop onto a pot keeps its queues well formed. */
  lemma DropsKeepWellFormed(c: Channels, items: seq<PaletteItem>, m: DropInput)
    requires ValidDropInput(m) && WellFormed(c)
    ensures WellFormed(AddAll(c, Drops(items, m)))
  {
    DropsSilent(items, m);
    AddAllSilentWellFormed(c, Drops(items, m));
  }

  /** Dragging and releasing keep the queues well formed. */
  lemma DragAndReleaseKeepWellFormed(c: Channels, delta: Point, onPot: bool, p: Point, vp: Viewport)
    requires WellFormed(c)
    ensures WellFormed(DraggedChannels(c, delta))
    ensures WellFormed(AfterRelease(c, onPot, p, vp))
  {
    DraggedKeepsWellFormed(c.drums, Drums, delta);
    DraggedKeepsWellFormed(c.bass, Bass, delta);
    DraggedKeepsWellFormed(c.lead, Lead, delta);
    EvictedChannelsWellFormed(c, onPot, p, vp);
  }
}
