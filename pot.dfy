/**
 * A pot (`ofxPot`): three queues of cookable nodes, one per loop type, that
 * hand playback over on every new beat, plus the touch handling that grabs,
 * moves and throws out loops.
 *
 * The queues are `seq` fields that the methods reassign.  The program keeps
 * raw pointers into the queues for the loops being dragged; a pointer into
 * a vector is modelled as a `Handle` (queue and index), which, like the
 * pointer, designates whatever node sits at that place after an erase.
 * Handles past the end of their queue, where the program would follow a
 * dangling pointer, are skipped by moves and forgotten on release.
 */
module Pots {
  import opened Geometry
  import opened CookableNodes

  datatype Option<T> = None | Some(value: T)

  /** A reference to the `index`-th node of the queue for `channel`. */
  datatype Handle = Handle(channel: LoopType, index: nat)

  /** The three queues, `m_activeCookNodesLoop1` to `3`, as one value. */
  datatype Channels = Channels(drums: seq<CookableNode>, bass: seq<CookableNode>, lead: seq<CookableNode>)
  {
    function Get(t: LoopType): seq<CookableNode> {
      match t
      case Drums => drums
      case Bass => bass
      case Lead => lead
    }

    function With(t: LoopType, ch: seq<CookableNode>): Channels {
      match t
      case Drums => this.(drums := ch)
      case Bass => this.(bass := ch)
      case Lead => this.(lead := ch)
    }
  }

  /** `addCookElement` on the queues: a node joins the tail of the queue of its type. */
  function AddOne(c: Channels, n: CookableNode): Channels {
    c.With(n.soundType, c.Get(n.soundType) + [n])
  }

  lemma GetWith(c: Channels, t: LoopType, ch: seq<CookableNode>, u: LoopType)
    ensures c.With(t, ch).Get(u) == if u == t then ch else c.Get(u)
  {
  }

  /** The order in which `mouseTouchDown` searches the queues. */
  function Rank(t: LoopType): nat {
    match t
    case Drums => 0
    case Bass => 1
    case Lead => 2
  }

  predicate ValidHandle(c: Channels, h: Handle) {
    h.index < |c.Get(h.channel)|
  }

  // ---------------------------------------------------------------------
  // The beat hand-off

  /**
   * A beat is new when the stored beat is not the step count and the given
   * beat differs from it.
   */
  predicate NewBeat(stored: int, beat: int, steps: int) {
    stored != steps && beat != stored
  }

  /**
   * One queue on a new beat: a lone loop is started if it was not playing
   * and its stutter counter advances; a longer queue drops its head and
   * starts the next loop, whose counter does not advance on this beat.
   */
  function BeatStep(ch: seq<CookableNode>): seq<CookableNode> {
    if |ch| == 1 then
      [(if ch[0].playing then ch[0] else ch[0].Play()).IncrementCurrLoopBeat()]
    else if |ch| > 1 then
      [ch[1].Play()] + ch[2..]
    else
      ch
  }

  /** The head a new beat removes from a queue, once stopped. */
  function Retired(ch: seq<CookableNode>): seq<CookableNode> {
    if |ch| > 1 then [ch[0].Stop()] else []
  }

  /** Every node's `update`: its player gets its relative volume times the pot's. */
  function WithPotVolume(ch: seq<CookableNode>, v: real): (r: seq<CookableNode>)
    ensures |r| == |ch|
  {
    seq(|ch|, i requires 0 <= i < |ch| => ch[i].Update(v))
  }

  /**
   * The hand-off of one queue: an empty queue stays empty; a lone loop stays
   * alone, sounds if it has a file, and only its stutter state moves; a
   * longer queue becomes its tail, in order, with the new head started but
   * otherwise untouched, while the removed head is stopped.
   */
  lemma BeatStepHandOff(ch: seq<CookableNode>)
    ensures |ch| == 0 ==> BeatStep(ch) == [] && Retired(ch) == []
    ensures |ch| == 1 ==>
      var r := BeatStep(ch);
      && |r| == 1
      && r[0].playing == (ch[0].playing || ch[0].fileName != "")
      && r[0] == ch[0].IncrementCurrLoopBeat().(playing := r[0].playing)
      && Retired(ch) == []
    ensures |ch| > 1 ==>
      var r := BeatStep(ch);
      && |r| == |ch| - 1
      && r[1..] == ch[2..]
      && r[0].playing == (ch[1].playing || ch[1].fileName != "")
      && r[0] == ch[1].(playing := r[0].playing)
      && Retired(ch) == [ch[0].(playing := false)]
  {
    if |ch| == 1 {
      var n := ch[0];
      var started := if n.playing then n else n.Play();
      assert started == n.(playing := n.playing || n.fileName != "");
    }
  }

  /** The pot volume reaches every node and changes nothing else in it. */
  lemma WithPotVolumeSpec(ch: seq<CookableNode>, v: real)
    ensures forall i :: 0 <= i < |ch| ==>
      WithPotVolume(ch, v)[i] == ch[i].(sinkVolume := ch[i].relativeVolume * v)
  {
  }

  // ---------------------------------------------------------------------
  // Hit-testing

  /** The index of the first node of `ch` containing `p`, or -1. */
  function FirstHit(ch: seq<CookableNode>, p: Point, vp: Viewport): (i: int)
    ensures -1 <= i < |ch|
    ensures i >= 0 ==> ch[i].Contains(p, vp)
    ensures i >= 0 ==> forall j :: 0 <= j < i ==> !ch[j].Contains(p, vp)
    ensures i == -1 ==> forall j :: 0 <= j < |ch| ==> !ch[j].Contains(p, vp)
  {
    if |ch| == 0 then -1
    else if ch[0].Contains(p, vp) then 0
    else
      var k := FirstHit(ch[1..], p, vp);
      if k < 0 then -1 else k + 1
  }

  /**
   * The node `mouseTouchDown` grabs: the first hit in the drum queue, else in
   * the bass queue, else in the lead queue.
   */
  function HitHandle(c: Channels, p: Point, vp: Viewport): (r: Option<Handle>)
    ensures r.Some? ==> ValidHandle(c, r.value) && c.Get(r.value.channel)[r.value.index].Contains(p, vp)
    ensures r.Some? ==> forall t, j ::
      (0 <= j < |c.Get(t)| && (Rank(t) < Rank(r.value.channel) || (t == r.value.channel && j < r.value.index)))
        ==> !c.Get(t)[j].Contains(p, vp)
    ensures r.None? ==> forall t, j :: 0 <= j < |c.Get(t)| ==> !c.Get(t)[j].Contains(p, vp)
  {
    var i1 := FirstHit(c.drums, p, vp);
    if i1 >= 0 then Some(Handle(Drums, i1))
    else
      var i2 := FirstHit(c.bass, p, vp);
      if i2 >= 0 then Some(Handle(Bass, i2))
      else
        var i3 := FirstHit(c.lead, p, vp);
        if i3 >= 0 then Some(Handle(Lead, i3)) else None
  }

  // ---------------------------------------------------------------------
  // Moving a dragged loop

  /** The loop-feedback test without a square root: `dist / r < pct`. */
  predicate IsNearCentre(centre: Point, q: Point, r: int, pct: real) {
    SqDist(centre, q) < (pct * r as real) * (pct * r as real)
  }

  /** A node of some queue lies near the pot's centre. */
  predicate AnyNearCentre(c: Channels, centre: Point, r: int, pct: real) {
    exists t, j :: 0 <= j < |c.Get(t)| && IsNearCentre(centre, c.Get(t)[j].origin, r, pct)
  }

  /** The relative volume of a loop at distance `d` from the centre. */
  function DistanceVolume(d: real, r: int): real
    requires r != 0
  {
    (1.0 - d / r as real) * 1.5
  }

  /** The standardised height of a world `y` above the bottom of the pot. */
  function RelHeight(originY: real, r: int, y: real): real
    requires r != 0
  {
    (originY + r as real - y) / (2 * r) as real
  }

  /**
   * The stutter length picked by the quadrant of `(vx, vy)` (y grows
   * downwards): lower right 2, upper right 1, lower left 4, upper left 8,
   * and 0 on an axis.
   */
  function Quadrant(vx: real, vy: real): nat {
    if vx > 0.0 && vy > 0.0 then 2
    else if vx > 0.0 && vy < 0.0 then 1
    else if vx < 0.0 && vy > 0.0 then 4
    else if vx < 0.0 && vy < 0.0 then 8
    else 0
  }

  /**
   * What a move needs besides the node: the pot's centre (pixels), radius
   * and loop threshold, the normalised touch, the window, the kitchen's drag
   * offset (normalised) and the distance `d` from the centre to the touch in
   * pixels.
   */
  datatype MoveInput = MoveInput(centre: Point, radius: int, pct: real,
                                 p: Point, vp: Viewport, offset: Point, d: real)

  predicate ValidMoveInput(m: MoveInput) {
    ValidViewport(m.vp) && m.radius > 0 && 0.0 <= m.d
    && m.d * m.d == SqDist(m.centre, ToWorld(m.p, m.vp))
  }

  /** The stutter length a move selects. */
  function StutterBeats(m: MoveInput): nat
    requires ValidMoveInput(m)
  {
    if m.d / m.radius as real < m.pct then
      Quadrant(m.p.x - m.centre.x / m.vp.width as real, m.p.y - m.centre.y / m.vp.height as real)
    else 0
  }

  /** One dragged node moved to the touch, with its sound re-mapped. */
  function MovedNode(n: CookableNode, m: MoveInput): CookableNode
    requires ValidMoveInput(m)
  {
    var world := ToWorld(m.p, m.vp);
    n.(originInit := ToWorld(m.p.Minus(m.offset), m.vp),
       origin := world,
       relativeVolume := DistanceVolume(m.d, m.radius))
     .SetLowpass(RelHeight(m.centre.y, m.radius, world.y))
     .SetLoopBeats(StutterBeats(m))
  }

  function MoveOne(c: Channels, h: Handle, m: MoveInput): Channels
    requires ValidMoveInput(m)
  {
    var ch := c.Get(h.channel);
    if h.index < |ch| && ch[h.index].Contains(m.p, m.vp) then
      c.With(h.channel, ch[h.index := MovedNode(ch[h.index], m)])
    else c
  }

  /** The dragged-loop pass of `mouseTouchMoved`, handle after handle. */
  function MoveAll(c: Channels, hs: seq<Handle>, m: MoveInput): Channels
    requires ValidMoveInput(m)
  {
    if |hs| == 0 then c else MoveOne(MoveAll(c, hs[..|hs| - 1], m), hs[|hs| - 1], m)
  }

  /**
   * A move sets the relative volume to 1.5 (1 - d/r), the low-pass to the
   * height above the bottom of the pot over its diameter, and the stutter
   * length by quadrant near the centre, 0 elsewhere; the node ends up on the
   * touch and still contains it.
   */
  lemma MovedNodeMapping(n: CookableNode, m: MoveInput)
    requires ValidMoveInput(m)
    ensures var r := MovedNode(n, m);
      && r.relativeVolume == 1.5 * (1.0 - m.d / m.radius as real)
      && r.lowpass == (m.centre.y + m.radius as real - m.p.y * m.vp.height as real) / (2.0 * m.radius as real)
      && r.sinkCutoff == LowpassScale * r.lowpass
      && r.loopBeats == (if m.d / m.radius as real < m.pct then
           Quadrant(m.p.x - m.centre.x / m.vp.width as real, m.p.y - m.centre.y / m.vp.height as real) else 0)
      && r.origin == ToWorld(m.p, m.vp)
      && (n.Contains(m.p, m.vp) ==> r.Contains(m.p, m.vp))
  {
  }

  /** Moving a moved node again to the same touch changes nothing. */
  lemma MovedNodeIdempotent(n: CookableNode, m: MoveInput)
    requires ValidMoveInput(m)
    ensures MovedNode(MovedNode(n, m), m) == MovedNode(n, m)
  {
  }

  /**
   * The dragged-loop pass moves exactly the nodes some handle designates and
   * that contain the touch; all other nodes and every queue length stay.
   */
  lemma {:induction false} MoveAllSpec(c: Channels, hs: seq<Handle>, m: MoveInput)
    requires ValidMoveInput(m)
    ensures forall t :: |MoveAll(c, hs, m).Get(t)| == |c.Get(t)|
    ensures forall t, j :: 0 <= j < |c.Get(t)| ==>
      MoveAll(c, hs, m).Get(t)[j] ==
        if Handle(t, j) in hs && c.Get(t)[j].Contains(m.p, m.vp) then MovedNode(c.Get(t)[j], m)
        else c.Get(t)[j]
  {
    if |hs| > 0 {
      var init, h := hs[..|hs| - 1], hs[|hs| - 1];
      assert hs == init + [h];
      MoveAllSpec(c, init, m);
      var prev := MoveAll(c, init, m);
      forall t
        ensures |MoveAll(c, hs, m).Get(t)| == |c.Get(t)|
      {
        var ch := prev.Get(h.channel);
        if h.index < |ch| && ch[h.index].Contains(m.p, m.vp) {
          GetWith(prev, h.channel, ch[h.index := MovedNode(ch[h.index], m)], t);
        }
      }
      forall t, j | 0 <= j < |c.Get(t)|
        ensures MoveAll(c, hs, m).Get(t)[j] ==
          if Handle(t, j) in hs && c.Get(t)[j].Contains(m.p, m.vp) then MovedNode(c.Get(t)[j], m)
          else c.Get(t)[j]
      {
        var orig := c.Get(t)[j];
        var ch := prev.Get(h.channel);
        if h.index < |ch| && ch[h.index].Contains(m.p, m.vp) {
          GetWith(prev, h.channel, ch[h.index := MovedNode(ch[h.index], m)], t);
          if h == Handle(t, j) {
            MovedNodeMapping(orig, m);
            MovedNodeIdempotent(orig, m);
          }
        }
      }
    }
  }

  // ---------------------------------------------------------------------
  // Release

  /** The nodes of `ch` that do not contain `p`, in their order. */
  function Evicted(ch: seq<CookableNode>, p: Point, vp: Viewport): seq<CookableNode> {
    if |ch| == 0 then []
    else
      var last := ch[|ch| - 1];
      Evicted(ch[..|ch| - 1], p, vp) + (if last.Contains(p, vp) then [] else [last])
  }

  /** Eviction is a filter: it distributes over concatenation. */
  lemma {:induction false} EvictedAppend(a: seq<CookableNode>, b: seq<CookableNode>, p: Point, vp: Viewport)
    ensures Evicted(a + b, p, vp) == Evicted(a, p, vp) + Evicted(b, p, vp)
    decreases |b|
  {
    if |b| > 0 {
      var b0, last := b[..|b| - 1], b[|b| - 1];
      assert (a + b)[..|a + b| - 1] == a + b0;
      assert (a + b)[|a + b| - 1] == last;
      EvictedAppend(a, b0, p, vp);
    } else {
      assert a + b == a;
    }
  }

  /** A node survives eviction exactly when it does not contain the point. */
  lemma {:induction false} EvictedMembers(ch: seq<CookableNode>, p: Point, vp: Viewport)
    ensures forall n :: n in Evicted(ch, p, vp) <==> n in ch && !n.Contains(p, vp)
    ensures |Evicted(ch, p, vp)| <= |ch|
  {
    if |ch| > 0 {
      var init := ch[..|ch| - 1];
      assert ch == init + [ch[|ch| - 1]];
      EvictedMembers(init, p, vp);
    }
  }

  /** The dragged handles kept on release. */
  predicate KeepsHandle(c: Channels, h: Handle, p: Point, vp: Viewport) {
    ValidHandle(c, h) && !c.Get(h.channel)[h.index].Contains(p, vp)
  }

  function KeptHandles(hs: seq<Handle>, c: Channels, p: Point, vp: Viewport): seq<Handle> {
    if |hs| == 0 then []
    else
      var last := hs[|hs| - 1];
      KeptHandles(hs[..|hs| - 1], c, p, vp) + (if KeepsHandle(c, last, p, vp) then [last] else [])
  }

  /** Release forgets exactly the handles whose node contains the point. */
  lemma {:induction false} KeptHandlesMembers(hs: seq<Handle>, c: Channels, p: Point, vp: Viewport)
    ensures forall h :: h in KeptHandles(hs, c, p, vp) <==> h in hs && KeepsHandle(c, h, p, vp)
  {
    if |hs| > 0 {
      var init := hs[..|hs| - 1];
      assert hs == init + [hs[|hs| - 1]];
      KeptHandlesMembers(init, c, p, vp);
    }
  }

  // ---------------------------------------------------------------------
  // Drag

  /** Every node's `drag`. */
  function Dragged(ch: seq<CookableNode>, delta: Point): (r: seq<CookableNode>)
    ensures |r| == |ch|
  {
    seq(|ch|, i requires 0 <= i < |ch| => ch[i].Drag(delta))
  }

  /**
   * A drag places each node at its undragged origin plus the drag: dragging
   * twice by the same amount is dragging once, and only the last drag
   * counts.
   */
  lemma DraggedLastWins(ch: seq<CookableNode>, d1: Point, d2: Point)
    ensures forall i :: 0 <= i < |ch| ==> Dragged(ch, d1)[i].origin == ch[i].originInit.Plus(d1)
    ensures Dragged(Dragged(ch, d1), d2) == Dragged(ch, d2)
    ensures Dragged(Dragged(ch, d1), d1) == Dragged(ch, d1)
  {
  }

  // ---------------------------------------------------------------------
  // The volume and low-pass ranges

  /**
   * Neither the volume nor the low-pass is clamped; they stay in [0, 1.5]
   * and [0, 1] only because the touch is inside the pot.
   */
  lemma {:induction false} MappingRange(r: int, d: real, originY: real, y: real)
    requires r > 0 && 0.0 <= d
    ensures d <= r as real ==> 0.0 <= DistanceVolume(d, r) <= 1.5
    ensures d > r as real ==> DistanceVolume(d, r) < 0.0
    ensures originY - r as real <= y <= originY + r as real ==> 0.0 <= RelHeight(originY, r, y) <= 1.0
  {
    var rr := r as real;
    QuotientBounds(d, rr);
    var twoR := (2 * r) as real;
    var h := originY + rr - y;
    if originY - rr <= y <= originY + rr {
      assert 0.0 <= h <= twoR;
      QuotientBounds(h, twoR);
    }
  }

  /** A move inside the pot keeps the volume in [0, 1.5] and the low-pass in [0, 1]. */
  lemma MoveInsidePotRange(n: CookableNode, m: MoveInput)
    requires ValidMoveInput(m)
    requires InDisk(ToWorld(m.p, m.vp), m.centre, m.radius as real)
    ensures 0.0 <= MovedNode(n, m).relativeVolume <= 1.5
    ensures 0.0 <= MovedNode(n, m).lowpass <= 1.0
  {
    var world := ToWorld(m.p, m.vp);
    assert SqDist(world, m.centre) == SqDist(m.centre, world);
    InDiskByDistance(world, m.centre, m.radius as real, m.d);
    InDiskBoundsY(world, m.centre, m.radius as real);
    MappingRange(m.radius, m.d, m.centre.y, world.y);
  }

  /** The loop-feedback test is `dist / r < pct` for the program's distance. */
  lemma NearCentreByDistance(centre: Point, q: Point, r: int, pct: real, dist: real)
    requires r > 0 && pct > 0.0 && 0.0 <= dist && dist * dist == SqDist(centre, q)
    ensures IsNearCentre(centre, q, r, pct) <==> dist / r as real < pct
  {
    var rr := r as real;
    var bound := pct * rr;
    SquareMonotone(bound, dist);
    var q0 := dist / rr;
    assert q0 * rr == dist;
    MulMono(q0, pct, rr);
  }

  /** The stutter lengths by quadrant, in both directions. */
  lemma QuadrantTable(vx: real, vy: real)
    ensures Quadrant(vx, vy) == 2 <==> vx > 0.0 && vy > 0.0
    ensures Quadrant(vx, vy) == 1 <==> vx > 0.0 && vy < 0.0
    ensures Quadrant(vx, vy) == 4 <==> vx < 0.0 && vy > 0.0
    ensures Quadrant(vx, vy) == 8 <==> vx < 0.0 && vy < 0.0
    ensures Quadrant(vx, vy) == 0 <==> vx == 0.0 || vy == 0.0
  {
  }

  // ---------------------------------------------------------------------
  // The channel invariant

  /**
   * A queue is well formed when every node in it is of the queue's type and
   * only its head may be playing: a new beat starts the head and stops a
   * head it removes, and nothing else starts a node.
   */
  predicate WellFormedQueue(ch: seq<CookableNode>, t: LoopType) {
    forall i :: 0 <= i < |ch| ==> ch[i].soundType == t && (i > 0 ==> !ch[i].playing)
  }

  predicate WellFormed(c: Channels) {
    WellFormedQueue(c.drums, Drums) && WellFormedQueue(c.bass, Bass) && WellFormedQueue(c.lead, Lead)
  }

  lemma WellFormedGet(c: Channels, t: LoopType)
    ensures WellFormed(c) ==> WellFormedQueue(c.Get(t), t)
  {
  }

  /** A new beat, and the pot volume after it, keep a queue well formed. */
  lemma UpdateKeepsWellFormed(ch: seq<CookableNode>, t: LoopType, nb: bool, v: real)
    requires WellFormedQueue(ch, t)
    ensures WellFormedQueue(WithPotVolume(if nb then BeatStep(ch) else ch, v), t)
  {
    var s := if nb then BeatStep(ch) else ch;
    if nb && |ch| > 1 {
      forall i | 0 <= i < |s|
        ensures s[i].soundType == t && (i > 0 ==> !s[i].playing)
      {
        if i > 0 {
          assert s[i] == ch[i + 1];
        }
      }
    }
  }

  /**
   * Adding a node keeps the queues well formed exactly when the node is
   * silent or lands in an empty queue.
   */
  lemma AddOneWellFormed(c: Channels, n: CookableNode)
    requires WellFormed(c)
    ensures WellFormed(AddOne(c, n)) <==> !n.playing || |c.Get(n.soundType)| == 0
  {
    var t := n.soundType;
    var q := c.Get(t) + [n];
    WellFormedGet(c, t);
    forall u
      ensures AddOne(c, n).Get(u) == if u == t then q else c.Get(u)
    {
      GetWith(c, t, q, u);
    }
    if WellFormed(AddOne(c, n)) && |c.Get(t)| > 0 {
      WellFormedGet(AddOne(c, n), t);
      assert q[|q| - 1] == n;
    }
  }

  /** Moving dragged nodes keeps the queues well formed. */
  lemma MoveAllKeepsWellFormed(c: Channels, hs: seq<Handle>, m: MoveInput)
    requires ValidMoveInput(m) && WellFormed(c)
    ensures WellFormed(MoveAll(c, hs, m))
  {
    MoveAllSpec(c, hs, m);
    var r := MoveAll(c, hs, m);
    forall t
      ensures WellFormedQueue(r.Get(t), t)
    {
      WellFormedGet(c, t);
      forall j | 0 <= j < |r.Get(t)|
        ensures r.Get(t)[j].soundType == t && (j > 0 ==> !r.Get(t)[j].playing)
      {
        var n := c.Get(t)[j];
        MovedNodeMapping(n, m);
        assert MovedNode(n, m).soundType == n.soundType && MovedNode(n, m).playing == n.playing;
      }
    }
    assert WellFormedQueue(r.Get(Drums), Drums) && WellFormedQueue(r.Get(Bass), Bass);
    assert WellFormedQueue(r.Get(Lead), Lead);
  }

  /** Eviction keeps a queue well formed: a node never moves away from the head. */
  lemma {:induction false} EvictedKeepsWellFormed(ch: seq<CookableNode>, t: LoopType, p: Point, vp: Viewport)
    requires WellFormedQueue(ch, t)
    ensures WellFormedQueue(Evicted(ch, p, vp), t)
  {
    if |ch| > 0 {
      var init, last := ch[..|ch| - 1], ch[|ch| - 1];
      EvictedKeepsWellFormed(init, t, p, vp);
      EvictedMembers(init, p, vp);
      if |init| == 0 {
        assert Evicted(init, p, vp) == [];
      }
    }
  }

  /** Release, with or without eviction, keeps the queues well formed. */
  lemma EvictedChannelsWellFormed(c: Channels, potHit: bool, p: Point, vp: Viewport)
    ensures WellFormed(c) ==>
      WellFormed(if potHit then c else Channels(Evicted(c.drums, p, vp), Evicted(c.bass, p, vp), Evicted(c.lead, p, vp)))
  {
    if WellFormed(c) {
      EvictedKeepsWellFormed(c.drums, Drums, p, vp);
      EvictedKeepsWellFormed(c.bass, Bass, p, vp);
      EvictedKeepsWellFormed(c.lead, Lead, p, vp);
    }
  }

  /** A drag keeps the queues well formed. */
  lemma DraggedKeepsWellFormed(ch: seq<CookableNode>, t: LoopType, delta: Point)
    requires WellFormedQueue(ch, t)
    ensures WellFormedQueue(Dragged(ch, delta), t)
  {
  }

  // ---------------------------------------------------------------------
  // The pot

  class Pot {
    const color: int
    const radius: int            // pixels
    const bpm: int
    const periodMs: int          // `m_nPeriodSingleBeatMs`
    const steps: int             // `OFX_POT_NUMSEQUENCERSTEPS`
    const loopPct: real          // `RADIUS_LOOP_PCT`
    const timeOfCreationMs: int

    var origin: Point            // pixels, including the kitchen's drag
    var originInit: Point        // pixels, without the kitchen's drag
    var drums: seq<CookableNode>
    var bass: seq<CookableNode>
    var lead: seq<CookableNode>
    var currentBeat: int
    var volume: real             // the focus volume set by the kitchen
    var dragged: seq<Handle>     // `m_draggedBeats`
    var showingLoopFeedback: bool

    predicate Valid() {
      radius > 0 && steps > 0 && loopPct > 0.0 && bpm > 0
    }

    function Queues(): Channels
      reads this
    {
      Channels(drums, bass, lead)
    }

    /** The channel invariant, see `WellFormed`; every operation keeps it. */
    predicate QueuesWellFormed()
      reads this
    {
      WellFormed(Queues())
    }

    function Queue(t: LoopType): seq<CookableNode>
      reads this
    {
      Queues().Get(t)
    }

    /** `isPointInside`: the normalised point, in pixels, lies on the pot's disk. */
    predicate IsPointInside(p: Point, vp: Viewport)
      reads this
    {
      InDisk(ToWorld(p, vp), origin, radius as real)
    }

    /** Whether `mouseTouchDown` at `p` claims the touch. */
    predicate Claims(p: Point, vp: Viewport)
      reads this
    {
      HitHandle(Queues(), p, vp).Some? || IsPointInside(p, vp)
    }

    /** Only the queues and the dragged handles may have changed. */
    twostate predicate PlaceAndSettingsKept()
      reads this
    {
      origin == old(origin) && originInit == old(originInit) && volume == old(volume)
      && currentBeat == old(currentBeat) && showingLoopFeedback == old(showingLoopFeedback)
    }

    /**
     * The effect of `update(beat)`: on a new beat each queue hands over on
     * its own, then every node takes the pot's volume.
     */
    twostate predicate UpdatedBy(beat: int)
      reads this
    {
      var nb := NewBeat(old(currentBeat), beat, steps);
      && currentBeat == (if nb then beat else old(currentBeat))
      && drums == WithPotVolume(if nb then BeatStep(old(drums)) else old(drums), volume)
      && bass == WithPotVolume(if nb then BeatStep(old(bass)) else old(bass), volume)
      && lead == WithPotVolume(if nb then BeatStep(old(lead)) else old(lead), volume)
      && origin == old(origin) && originInit == old(originInit) && volume == old(volume)
      && dragged == old(dragged) && showingLoopFeedback == old(showingLoopFeedback)
    }

    /** The effect of `mouseTouchDown` at `p`: the first node hit is grabbed. */
    twostate predicate TouchedDownAt(p: Point, vp: Viewport)
      reads this
    {
      var hit := HitHandle(old(Queues()), p, vp);
      && dragged == old(dragged) + (if hit.Some? then [hit.value] else [])
      && Queues() == old(Queues()) && PlaceAndSettingsKept()
    }

    /**
     * The effect of `mouseTouchMoved`: the loop feedback says whether a node
     * sits near the centre, and the dragged nodes under the touch move.
     */
    twostate predicate TouchMovedAt(m: MoveInput)
      requires ValidMoveInput(m)
      reads this
    {
      && showingLoopFeedback == AnyNearCentre(old(Queues()), origin, radius, loopPct)
      && Queues() == MoveAll(old(Queues()), dragged, m)
      && dragged == old(dragged) && origin == old(origin) && originInit == old(originInit)
      && volume == old(volume) && currentBeat == old(currentBeat)
    }

    /**
     * The effect of `mouseTouchUp` at `p`: the handles under the touch are
     * forgotten and, off the pot, the nodes under the touch leave their
     * queues.
     */
    twostate predicate ReleasedAt(p: Point, vp: Viewport)
      reads this
    {
      && dragged == KeptHandles(old(dragged), old(Queues()), p, vp)
      && (IsPointInside(p, vp) ==> Queues() == old(Queues()))
      && (!IsPointInside(p, vp) ==>
            Queues() == Channels(Evicted(old(drums), p, vp), Evicted(old(bass), p, vp), Evicted(old(lead), p, vp)))
      && PlaceAndSettingsKept()
    }

    /** The effect of `drag(delta)`. */
    twostate predicate DraggedBy(delta: Point)
      reads this
    {
      && origin == originInit.Plus(delta) && originInit == old(originInit)
      && Queues() == Channels(Dragged(old(drums), delta), Dragged(old(bass), delta), Dragged(old(lead), delta))
      && volume == old(volume) && currentBeat == old(currentBeat) && dragged == old(dragged)
      && showingLoopFeedback == old(showingLoopFeedback)
    }

    /** The effect of `addCookElement(n)`. */
    twostate predicate Received(n: CookableNode)
      reads this
    {
      && Queues() == AddOne(old(Queues()), n)
      && Queue(n.soundType) == old(Queue(n.soundType)) + [n]
      && (forall t :: t != n.soundType ==> Queue(t) == old(Queue(t)))
      && dragged == old(dragged) && PlaceAndSettingsKept()
    }

    constructor (color: int, radius: int, origin: Point, bpm: int, steps: int, loopPct: real, now: int)
      requires radius > 0 && steps > 0 && loopPct > 0.0 && bpm > 0
      ensures Valid()
      ensures this.color == color && this.radius == radius && this.bpm == bpm
      ensures this.steps == steps && this.loopPct == loopPct
      ensures this.origin == origin && this.originInit == origin
      ensures periodMs == 60000 / bpm && timeOfCreationMs == now
      ensures volume == 1.0 && currentBeat == 0 && !showingLoopFeedback
      ensures drums == [] && bass == [] && lead == [] && dragged == []
    {
      this.color, this.radius, this.bpm := color, radius, bpm;
      this.steps, this.loopPct := steps, loopPct;
      this.origin, this.originInit := origin, origin;
      periodMs := 1000 * 60 / bpm;
      timeOfCreationMs := now;
      volume := 1.0;
      currentBeat := 0;
      showingLoopFeedback := false;
      drums, bass, lead, dragged := [], [], [], [];
    }

    /**
     * `update`: see `UpdatedBy`.  Returns the heads that were stopped and
     * removed.
     */
    method Update(beat: int) returns (stopped: seq<CookableNode>)
      requires Valid()
      modifies this
      ensures UpdatedBy(beat)
      ensures stopped == if NewBeat(old(currentBeat), beat, steps) then
        Retired(old(drums)) + Retired(old(bass)) + Retired(old(lead)) else []
      ensures old(QueuesWellFormed()) ==> QueuesWellFormed()
    {
      ghost var wf := QueuesWellFormed();
      ghost var c := Queues();
      var newBeat := false;
      if currentBeat != steps && beat != currentBeat {
        currentBeat := beat;
        newBeat := true;
      }
      stopped := [];
      if newBeat {
        stopped := Retired(drums) + Retired(bass) + Retired(lead);
        drums := BeatStep(drums);
        bass := BeatStep(bass);
        lead := BeatStep(lead);
      }
      drums := ApplyVolume(drums, volume);
      bass := ApplyVolume(bass, volume);
      lead := ApplyVolume(lead, volume);
      if wf {
        UpdateKeepsWellFormed(c.drums, Drums, newBeat, volume);
        UpdateKeepsWellFormed(c.bass, Bass, newBeat, volume);
        UpdateKeepsWellFormed(c.lead, Lead, newBeat, volume);
      }
    }

    /** The volume loop of `update` over one queue. */
    static method ApplyVolume(ch: seq<CookableNode>, v: real) returns (r: seq<CookableNode>)
      ensures |r| == |ch|
      ensures forall i :: 0 <= i < |ch| ==> r[i] == ch[i].(sinkVolume := ch[i].relativeVolume * v)
      ensures r == WithPotVolume(ch, v)
    {
      r := ch;
      var i := 0;
      while i < |r|
        invariant 0 <= i <= |r| == |ch|
        invariant forall j :: 0 <= j < i ==> r[j] == ch[j].Update(v)
        invariant forall j :: i <= j < |r| ==> r[j] == ch[j]
      {
        r := r[i := r[i].Update(v)];
        i := i + 1;
      }
    }

    /** `addCookElement`: the node joins the tail of the queue of its type. */
    method AddCookElement(n: CookableNode)
      modifies this
      ensures Received(n)
      ensures old(QueuesWellFormed()) ==> (QueuesWellFormed() <==> !n.playing || |old(Queue(n.soundType))| == 0)
    {
      ghost var wf := QueuesWellFormed();
      ghost var c := Queues();
      if wf {
        AddOneWellFormed(c, n);
      }
      match n.soundType
      case Drums => drums := drums + [n];
      case Bass => bass := bass + [n];
      case Lead => lead := lead + [n];
    }

    /** The search loop of `mouseTouchDown` over one queue. */
    static method FindFirstHit(ch: seq<CookableNode>, p: Point, vp: Viewport) returns (i: int)
      ensures -1 <= i < |ch|
      ensures i >= 0 ==> ch[i].Contains(p, vp) && forall j :: 0 <= j < i ==> !ch[j].Contains(p, vp)
      ensures i == -1 ==> forall j :: 0 <= j < |ch| ==> !ch[j].Contains(p, vp)
      ensures i == FirstHit(ch, p, vp)
    {
      var k := 0;
      while k < |ch|
        invariant 0 <= k <= |ch|
        invariant forall j :: 0 <= j < k ==> !ch[j].Contains(p, vp)
      {
        if ch[k].Contains(p, vp) {
          FirstHitIsFirst(ch, p, vp, k);
          return k;
        }
        k := k + 1;
      }
      return -1;
    }

    /**
     * `mouseTouchDown`: grabs the first node under the touch (drums, then
     * bass, then lead) and claims the touch when it grabbed one or when the
     * touch is on the pot, boundary included.
     */
    method MouseTouchDown(x: real, y: real, fullRange: bool, vp: Viewport) returns (claimed: bool)
      requires ValidViewport(vp)
      modifies this
      ensures TouchedDownAt(Normalize(x, y, fullRange, vp), vp)
      ensures claimed == old(Claims(Normalize(x, y, fullRange, vp), vp))
    {
      var p := Normalize(x, y, fullRange, vp);
      var inside := IsPointInside(p, vp);
      var found := false;
      var i := FindFirstHit(drums, p, vp);
      if i >= 0 {
        dragged := dragged + [Handle(Drums, i)];
        found := true;
      }
      if !found {
        i := FindFirstHit(bass, p, vp);
        if i >= 0 {
          dragged := dragged + [Handle(Bass, i)];
          found := true;
        }
      }
      if !found {
        i := FindFirstHit(lead, p, vp);
        if i >= 0 {
          dragged := dragged + [Handle(Lead, i)];
          found := true;
        }
      }
      claimed := found || inside;
    }

    /** The loop-feedback search of `mouseTouchMoved` over one queue. */
    static method HasNodeNearCentre(ch: seq<CookableNode>, centre: Point, r: int, pct: real) returns (b: bool)
      ensures b <==> exists j :: 0 <= j < |ch| && IsNearCentre(centre, ch[j].origin, r, pct)
    {
      b := false;
      var k := 0;
      while k < |ch|
        invariant 0 <= k <= |ch|
        invariant forall j :: 0 <= j < k ==> !IsNearCentre(centre, ch[j].origin, r, pct)
      {
        if IsNearCentre(centre, ch[k].origin, r, pct) {
          b := true;
          break;
        }
        k := k + 1;
      }
    }

    /** The move `mouseTouchMoved` applies for a touch at `(x, y)`. */
    function MoveFor(x: real, y: real, fullRange: bool, vp: Viewport, offset: Point, d: real): MoveInput
      requires ValidViewport(vp)
      reads this
    {
      MoveInput(origin, radius, loopPct, Normalize(x, y, fullRange, vp), vp, offset, d)
    }

    /**
     * `mouseTouchMoved`: see `TouchMovedAt`; it always answers that it found
     * nothing to move.  `offset` is the kitchen's drag offset and `d` the
     * distance from the pot's centre to the touch, in pixels.
     */
    method MouseTouchMoved(x: real, y: real, fullRange: bool, vp: Viewport, offset: Point, d: real)
      returns (found: bool)
      requires Valid() && ValidViewport(vp) && 0.0 <= d
      requires d * d == SqDist(origin, ToWorld(Normalize(x, y, fullRange, vp), vp))
      modifies this
      ensures origin == old(origin)
      ensures ValidMoveInput(MoveFor(x, y, fullRange, vp, offset, d))
      ensures TouchMovedAt(MoveFor(x, y, fullRange, vp, offset, d))
      ensures old(QueuesWellFormed()) ==> QueuesWellFormed()
      ensures !found
    {
      ghost var wf := QueuesWellFormed();
      ghost var c := Queues();
      var p := Normalize(x, y, fullRange, vp);
      ShowLoopFeedback();
      var m := MoveInput(origin, radius, loopPct, p, vp, offset, d);
      MoveDragged(m);
      found := false;
      if wf {
        MoveAllKeepsWellFormed(c, dragged, m);
      }
    }

    /** The loop-feedback part of `mouseTouchMoved`, queue after queue. */
    method ShowLoopFeedback()
      modifies this
      ensures showingLoopFeedback == AnyNearCentre(Queues(), origin, radius, loopPct)
      ensures Queues() == old(Queues()) && dragged == old(dragged)
      ensures origin == old(origin) && originInit == old(originInit)
      ensures volume == old(volume) && currentBeat == old(currentBeat)
    {
      var show := HasNodeNearCentre(drums, origin, radius, loopPct);
      if !show {
        show := HasNodeNearCentre(bass, origin, radius, loopPct);
      }
      if !show {
        show := HasNodeNearCentre(lead, origin, radius, loopPct);
      }
      showingLoopFeedback := show;
      AnyNearCentreByQueue(Queues(), origin, radius, loopPct);
    }

    /** The dragged-loop part of `mouseTouchMoved`, handle after handle. */
    method MoveDragged(m: MoveInput)
      requires ValidMoveInput(m)
      modifies this
      ensures Queues() == MoveAll(old(Queues()), dragged, m)
      ensures dragged == old(dragged) && showingLoopFeedback == old(showingLoopFeedback)
      ensures origin == old(origin) && originInit == old(originInit)
      ensures volume == old(volume) && currentBeat == old(currentBeat)
    {
      ghost var start := Queues();
      var k := 0;
      while k < |dragged|
        invariant 0 <= k <= |dragged|
        invariant Queues() == MoveAll(start, dragged[..k], m)
        invariant dragged == old(dragged) && showingLoopFeedback == old(showingLoopFeedback)
        invariant origin == old(origin) && originInit == old(originInit)
        invariant volume == old(volume) && currentBeat == old(currentBeat)
      {
        var h := dragged[k];
        assert dragged[..k + 1] == dragged[..k] + [h];
        var ch := Queue(h.channel);
        if h.index < |ch| && ch[h.index].Contains(m.p, m.vp) {
          SetQueue(h.channel, ch[h.index := MovedNode(ch[h.index], m)]);
        }
        k := k + 1;
      }
      assert dragged[..|dragged|] == dragged;
    }

    /** Replaces the queue of type `t`. */
    method SetQueue(t: LoopType, ch: seq<CookableNode>)
      modifies this
      ensures Queues() == old(Queues()).With(t, ch)
      ensures dragged == old(dragged) && PlaceAndSettingsKept()
    {
      match t
      case Drums => drums := ch;
      case Bass => bass := ch;
      case Lead => lead := ch;
    }

    /** The handle loop of `mouseTouchUp`: forgets the handles under the touch. */
    static method ReleaseHandles(hs: seq<Handle>, c: Channels, p: Point, vp: Viewport) returns (r: seq<Handle>)
      ensures forall h :: h in r <==> h in hs && KeepsHandle(c, h, p, vp)
      ensures r == KeptHandles(hs, c, p, vp)
    {
      r := hs;
      var i := 0;
      ghost var k := 0;
      while i < |r|
        invariant 0 <= i <= |r| && 0 <= k <= |hs|
        invariant r[..i] == KeptHandles(hs[..k], c, p, vp)
        invariant r[i..] == hs[k..]
      {
        assert hs[..k + 1][..k] == hs[..k];
        assert hs[k] == r[i];
        assert r[i + 1..] == r[i..][1..];
        if KeepsHandle(c, r[i], p, vp) {
          assert r[..i + 1] == r[..i] + [r[i]];
          i := i + 1;
        } else {
          var rest := r[i + 1..];
          r := r[..i] + rest;
          assert r[i..] == rest;
        }
        k := k + 1;
      }
      assert hs[..k] == hs;
      assert r[..i] == r;
      KeptHandlesMembers(hs, c, p, vp);
    }

    /** The eviction loop of `mouseTouchUp` over one queue. */
    static method EvictFrom(ch: seq<CookableNode>, p: Point, vp: Viewport, potHit: bool)
      returns (r: seq<CookableNode>)
      ensures potHit ==> r == ch
      ensures !potHit ==> r == Evicted(ch, p, vp)
    {
      r := ch;
      var i := 0;
      ghost var k := 0;
      while i < |r|
        invariant 0 <= i <= |r| && 0 <= k <= |ch|
        invariant potHit ==> r == ch && i == k
        invariant !potHit ==> r[..i] == Evicted(ch[..k], p, vp)
        invariant r[i..] == ch[k..]
      {
        assert ch[..k + 1][..k] == ch[..k];
        assert ch[k] == r[i];
        assert r[i + 1..] == r[i..][1..];
        if r[i].Contains(p, vp) {
          if !potHit {
            var rest := r[i + 1..];
            r := r[..i] + rest;
            assert r[i..] == rest;
          } else {
            i := i + 1;
          }
        } else {
          assert r[..i + 1] == r[..i] + [r[i]];
          i := i + 1;
        }
        k := k + 1;
      }
      assert ch[..k] == ch;
      assert r[..i] == r;
    }

    /**
     * `mouseTouchUp`: see `ReleasedAt`.  Evicted nodes are not stopped.
     */
    method MouseTouchUp(x: real, y: real, fullRange: bool, vp: Viewport)
      requires ValidViewport(vp)
      modifies this
      ensures ReleasedAt(Normalize(x, y, fullRange, vp), vp)
      ensures old(QueuesWellFormed()) ==> QueuesWellFormed()
    {
      ghost var c := Queues();
      var p := Normalize(x, y, fullRange, vp);
      dragged := ReleaseHandles(dragged, Queues(), p, vp);
      var potHit := IsPointInside(p, vp);
      drums := EvictFrom(drums, p, vp, potHit);
      bass := EvictFrom(bass, p, vp, potHit);
      lead := EvictFrom(lead, p, vp, potHit);
      EvictedChannelsWellFormed(c, potHit, p, vp);
    }

    /** The node loops of `drag`. */
    static method DragNodes(ch: seq<CookableNode>, delta: Point) returns (r: seq<CookableNode>)
      ensures |r| == |ch|
      ensures forall i :: 0 <= i < |ch| ==> r[i] == ch[i].(origin := ch[i].originInit.Plus(delta))
      ensures r == Dragged(ch, delta)
    {
      r := ch;
      var i := 0;
      while i < |r|
        invariant 0 <= i <= |r| == |ch|
        invariant forall j :: 0 <= j < i ==> r[j] == ch[j].Drag(delta)
        invariant forall j :: i <= j < |r| ==> r[j] == ch[j]
      {
        r := r[i := r[i].Drag(delta)];
        i := i + 1;
      }
    }

    /** `drag`: the pot and all its nodes sit at their undragged place plus `delta`. */
    method Drag(delta: Point)
      modifies this
      ensures DraggedBy(delta)
      ensures old(QueuesWellFormed()) ==> QueuesWellFormed()
    {
      origin := originInit.Plus(delta);
      drums := DragNodes(drums, delta);
      bass := DragNodes(bass, delta);
      lead := DragNodes(lead, delta);
    }

    /** `setFocusVolume`. */
    method SetFocusVolume(v: real)
      modifies this
      ensures volume == v
      ensures Queues() == old(Queues()) && origin == old(origin) && originInit == old(originInit)
      ensures currentBeat == old(currentBeat) && dragged == old(dragged)
      ensures showingLoopFeedback == old(showingLoopFeedback)
    {
      volume := v;
    }
  }

  /** A hit found by a left-to-right scan is the first hit. */
  lemma FirstHitIsFirst(ch: seq<CookableNode>, p: Point, vp: Viewport, k: nat)
    requires k < |ch| && ch[k].Contains(p, vp)
    requires forall j :: 0 <= j < k ==> !ch[j].Contains(p, vp)
    ensures FirstHit(ch, p, vp) == k
  {
    var i := FirstHit(ch, p, vp);
    assert i >= 0;
  }

  /** Searching the queues one after the other finds a near node in any of them. */
  lemma AnyNearCentreByQueue(c: Channels, centre: Point, r: int, pct: real)
    ensures AnyNearCentre(c, centre, r, pct) <==>
      (exists j :: 0 <= j < |c.drums| && IsNearCentre(centre, c.drums[j].origin, r, pct))
      || (exists j :: 0 <= j < |c.bass| && IsNearCentre(centre, c.bass[j].origin, r, pct))
      || (exists j :: 0 <= j < |c.lead| && IsNearCentre(centre, c.lead[j].origin, r, pct))
  {
    if AnyNearCentre(c, centre, r, pct) {
      var t, j :| 0 <= j < |c.Get(t)| && IsNearCentre(centre, c.Get(t)[j].origin, r, pct);
      match t
      case Drums =>
      case Bass =>
      case Lead =>
    }
    if exists j :: 0 <= j < |c.drums| && IsNearCentre(centre, c.drums[j].origin, r, pct) {
      var j :| 0 <= j < |c.drums| && IsNearCentre(centre, c.drums[j].origin, r, pct);
      assert c.Get(Drums) == c.drums;
    }
    if exists j :: 0 <= j < |c.bass| && IsNearCentre(centre, c.bass[j].origin, r, pct) {
      var j :| 0 <= j < |c.bass| && IsNearCentre(centre, c.bass[j].origin, r, pct);
      assert c.Get(Bass) == c.bass;
    }
    if exists j :: 0 <= j < |c.lead| && IsNearCentre(centre, c.lead[j].origin, r, pct) {
      var j :| 0 <= j < |c.lead| && IsNearCentre(centre, c.lead[j].origin, r, pct);
      assert c.Get(Lead) == c.lead;
    }
  }
}
