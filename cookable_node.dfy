/**
 * A loop being cooked in a pot (`ofxCookableNode`): its lifetime, its
 * geometry, its low-pass setting, and the stutter state that repeats a few
 * beats of it.
 *
 * The program keeps cookable nodes by value (`vector<ofxCookableNode>`
 * inside a pot, copied by `addCookElement`), so a node is a datatype here
 * and each of its mutators is a function that returns the updated node; the
 * pot writes the result back into its queue.  The sound player the node
 * inherits from is reduced to the four things the core reads or writes:
 * whether it plays, its playback position, its volume and its cutoff.
 */
module CookableNodes {
  import opened Geometry

  /** `TACTO_LOOPTYPE`: the category of a loop, which selects its channel. */
  datatype LoopType = Drums | Bass | Lead

  /** A lifetime of -1 ms means that the node never expires. */
  const InfiniteLifetime: int := -1

  /** The linear map from the standardised cutoff to the sound player's one. */
  const LowpassScale: real := 0.33

  function LowpassCutoff(pct: real): real { LowpassScale * pct }

  datatype CookableNode = CookableNode(
    color: int,
    radius: int,                 // pixels
    lifetimeMs: int,
    createdMs: int,
    fileName: string,
    loopable: bool,
    soundType: LoopType,
    loopLength: int,             // length in beats of the asset
    origin: Point,               // pixels, including the kitchen's drag
    originInit: Point,           // pixels, without the kitchen's drag
    relativeVolume: real,
    lowpass: real,               // standardised cutoff
    loopBeats: nat,              // stutter length, 0 = no stutter
    currLoopBeat: nat,
    loopStartBeat: nat,
    loopStartPosition: real,
    // the sound player
    playing: bool,
    position: real,
    sinkVolume: real,
    sinkCutoff: real)
  {
    /** `getAge`: -1 for an infinite lifetime, else the time since creation. */
    function Age(now: int): int {
      if lifetimeMs == InfiniteLifetime then -1 else now - createdMs
    }

    /** `isDead`: never for an infinite lifetime, else strictly past it. */
    predicate IsDead(now: int) {
      if lifetimeMs == InfiniteLifetime then false else now - createdMs > lifetimeMs
    }

    /** `play`: a node without a file stays silent. */
    function Play(): CookableNode {
      if fileName == "" then this else this.(playing := true)
    }

    function Stop(): CookableNode {
      this.(playing := false)
    }

    /** `update`: the player's volume is the relative volume times the pot's. */
    function Update(potVolume: real): CookableNode {
      this.(sinkVolume := relativeVolume * potVolume)
    }

    /** `drag`: the origin is the undragged origin moved by the whole drag. */
    function Drag(delta: Point): CookableNode {
      this.(origin := originInit.Plus(delta))
    }

    /** `setLowpass`: the standardised value is kept, the player gets it scaled. */
    function SetLowpass(pct: real): CookableNode {
      this.(lowpass := pct, sinkCutoff := LowpassCutoff(pct))
    }

    /**
     * `setLoopBeats`: a new stutter length remembers the current stutter beat
     * and playback position as the point to come back to.
     */
    function SetLoopBeats(loops: nat): CookableNode {
      if loopBeats != loops then
        this.(loopBeats := loops, loopStartBeat := currLoopBeat, loopStartPosition := position)
      else
        this
    }

    /**
     * `incrementCurrLoopBeat`, with the beat advanced as the program evidently
     * intends (see `NextBeat`): at the end of the stutter region the beat goes
     * back to its start and playback jumps back to the remembered position.
     */
    function IncrementCurrLoopBeat(): CookableNode {
      if loopLength <= 0 then this
      else
        var step := StutterStep(NextBeat(currLoopBeat, loopLength), loopStartBeat, loopBeats, loopLength);
        this.(currLoopBeat := step.beat,
              position := if step.rewind then loopStartPosition else position)
    }

    /** `incrementCurrLoopBeat` exactly as written, see `NextBeatAsWritten`. */
    function IncrementCurrLoopBeatAsWritten(): CookableNode {
      if loopLength <= 0 then this
      else
        var step := StutterStep(NextBeatAsWritten(currLoopBeat, loopLength), loopStartBeat, loopBeats, loopLength);
        this.(currLoopBeat := step.beat,
              position := if step.rewind then loopStartPosition else position)
    }

    /** `isPointInside` of the node: the touch, in pixels, lies on its disk. */
    predicate Contains(p: Point, vp: Viewport) {
      InDisk(ToWorld(p, vp), origin, radius as real)
    }
  }

  /**
   * The constructor.  The relative volume and the origins are not set by it
   * (the origin belongs to the menu node it derives from); they start at 0
   * here and every caller sets them right after.
   */
  function NewCookableNode(color: int, radius: int, lifetimeMs: int, fileName: string,
                           loop: bool, soundType: LoopType, beatLength: int, now: int): CookableNode
  {
    CookableNode(color, radius, lifetimeMs, now, fileName, loop, soundType, beatLength,
                 Zero, Zero, 0.0, 0.0, 0, 0, 0, 0.0,
                 false, 0.0, 1.0, 0.0)
  }

  // ---------------------------------------------------------------------
  // The stutter counter

  /**
   * `m_nCurrLoopBeat = (m_nCurrLoopBeat++ % m_nLoopLength)` as it evaluates
   * in C++17: the assignment is sequenced after the increment and stores the
   * old value modulo the length, so the increment is lost.
   */
  function NextBeatAsWritten(curr: nat, len: int): nat
    requires len > 0
  {
    curr % len
  }

  /** The evidently intended advance: one beat on, wrapping at the length. */
  function NextBeat(curr: nat, len: int): nat
    requires len > 0
  {
    (curr + 1) % len
  }

  datatype StutterResult = StutterResult(beat: nat, rewind: bool)

  /**
   * The rest of `incrementCurrLoopBeat`: with a stutter length set, reaching
   * `(start + loopBeats) % len` sends the beat back to `start` and asks for a
   * rewind of the playback position.
   */
  function StutterStep(advanced: nat, start: nat, loopBeats: nat, len: int): StutterResult
    requires len > 0
  {
    if loopBeats > 0 && advanced == (start + loopBeats) % len then StutterResult(start, true)
    else StutterResult(advanced, false)
  }

  /**
   * The number of beats after which the intended stutter comes back to its
   * start: `loopBeats` reduced into `1..len`, since the rewind beat is
   * taken modulo the loop length.
   */
  function StutterPeriod(loopBeats: nat, len: int): nat
    requires len > 0
  {
    if loopBeats == 0 then 0 else (loopBeats - 1) % len + 1
  }

  /** `k` calls of `incrementCurrLoopBeat`. */
  function Increments(n: CookableNode, k: nat): CookableNode {
    if k == 0 then n else Increments(n, k - 1).IncrementCurrLoopBeat()
  }

  /** `k` calls of `incrementCurrLoopBeat` as written. */
  function IncrementsAsWritten(n: CookableNode, k: nat): CookableNode {
    if k == 0 then n else IncrementsAsWritten(n, k - 1).IncrementCurrLoopBeatAsWritten()
  }

  // ---------------------------------------------------------------------
  // Lifetime

  /**
   * From its creation on, a node's age is -1 exactly when its lifetime is
   * infinite, and otherwise a non-negative count that advances with the
   * clock, starting at 0 at creation.
   */
  lemma AgeSpec(n: CookableNode, now: int, later: int)
    ensures now >= n.createdMs ==> (n.Age(now) == -1 <==> n.lifetimeMs == InfiniteLifetime)
    ensures now >= n.createdMs && n.lifetimeMs != InfiniteLifetime ==> n.Age(now) >= 0
    ensures n.lifetimeMs != InfiniteLifetime ==> n.Age(n.createdMs) == 0 && n.Age(later) - n.Age(now) == later - now
    ensures n.lifetimeMs == InfiniteLifetime ==> n.Age(later) == n.Age(now)
  {
  }

  /** A node dies once its age strictly exceeds a finite lifetime, never otherwise. */
  lemma DeadIffOlderThanLifetime(n: CookableNode, now: int)
    ensures n.lifetimeMs == InfiniteLifetime ==> !n.IsDead(now)
    ensures n.lifetimeMs != InfiniteLifetime ==> (n.IsDead(now) <==> n.Age(now) > n.lifetimeMs)
  {
  }

  /** Once dead, a node stays dead as time goes on. */
  lemma DeathIsPermanent(n: CookableNode, now: int, later: int)
    requires now <= later && n.IsDead(now)
    ensures n.IsDead(later)
  {
  }

  // ---------------------------------------------------------------------
  // Low-pass and stutter length

  /**
   * `setLowpass` keeps the standardised value and hands the player a
   * monotonic image of it that maps 0 to 0.
   */
  lemma SetLowpassMapping(n: CookableNode, pct: real, other: real)
    ensures n.SetLowpass(pct).lowpass == pct
    ensures n.SetLowpass(pct).sinkCutoff == LowpassScale * pct
    ensures pct <= other ==> n.SetLowpass(pct).sinkCutoff <= n.SetLowpass(other).sinkCutoff
    ensures n.SetLowpass(0.0).sinkCutoff == 0.0
  {
  }

  /**
   * `setLoopBeats` with the stored value changes nothing; a new value is
   * stored together with the current beat and position as restart point.
   */
  lemma SetLoopBeatsSpec(n: CookableNode, loops: nat)
    ensures n.loopBeats == loops ==> n.SetLoopBeats(loops) == n
    ensures n.SetLoopBeats(loops).loopBeats == loops
    ensures n.loopBeats != loops ==>
      n.SetLoopBeats(loops) == n.(loopBeats := loops, loopStartBeat := n.currLoopBeat,
                                  loopStartPosition := n.position)
    ensures n.SetLoopBeats(loops).SetLoopBeats(loops) == n.SetLoopBeats(loops)
  {
  }

  /** A freshly constructed node is silent and has no stutter and no cutoff. */
  lemma FreshNodeState(color: int, radius: int, lifetimeMs: int, fileName: string,
                       loop: bool, soundType: LoopType, beatLength: int, now: int)
    ensures var n := NewCookableNode(color, radius, lifetimeMs, fileName, loop, soundType, beatLength, now);
      && n.lowpass == 0.0 && n.loopBeats == 0 && n.currLoopBeat == 0
      && n.loopStartBeat == 0 && n.loopStartPosition == 0.0 && !n.playing
      && n.soundType == soundType && n.loopLength == beatLength
      && n.SetLoopBeats(0) == n
      && (lifetimeMs >= 0 ==> !n.IsDead(now))
  {
  }

  // ---------------------------------------------------------------------
  // The stutter step

  /** Without a loop length, `incrementCurrLoopBeat` does nothing. */
  lemma IncrementWithoutLength(n: CookableNode)
    requires n.loopLength <= 0
    ensures n.IncrementCurrLoopBeat() == n
    ensures n.IncrementCurrLoopBeatAsWritten() == n
  {
  }

  /**
   * Under either reading of the advance, the new beat is below the loop
   * length or is the stutter's start beat; only the beat and the position
   * change, and the position only to the remembered one.
   */
  lemma IncrementBound(n: CookableNode)
    requires n.loopLength > 0
    ensures var r := n.IncrementCurrLoopBeat();
      && (r.currLoopBeat < n.loopLength || r.currLoopBeat == n.loopStartBeat)
      && r == n.(currLoopBeat := r.currLoopBeat, position := r.position)
      && (r.position == n.position || r.position == n.loopStartPosition)
    ensures var r := n.IncrementCurrLoopBeatAsWritten();
      && (r.currLoopBeat < n.loopLength || r.currLoopBeat == n.loopStartBeat)
      && r == n.(currLoopBeat := r.currLoopBeat, position := r.position)
      && (r.position == n.position || r.position == n.loopStartPosition)
  {
  }

  /**
   * With a stutter length, reaching `(start + loopBeats) % loopLength`
   * rewinds the beat and the playback position; without one the position
   * is never touched.
   */
  lemma IncrementRewind(n: CookableNode)
    requires n.loopLength > 0
    ensures var r := n.IncrementCurrLoopBeat();
      var advanced := (n.currLoopBeat + 1) % n.loopLength;
      && (n.loopBeats > 0 && advanced == (n.loopStartBeat + n.loopBeats) % n.loopLength ==>
            r.currLoopBeat == n.loopStartBeat && r.position == n.loopStartPosition)
      && (!(n.loopBeats > 0 && advanced == (n.loopStartBeat + n.loopBeats) % n.loopLength) ==>
            r.currLoopBeat == advanced && r.position == n.position)
      && (n.loopBeats == 0 ==> r.position == n.position)
  {
  }

  /** Distributivity for one step: `a*m` is `(a-1)*m` plus one more `m`. */
  lemma MulPred(a: int, m: int)
    ensures a * m == (a - 1) * m + m
  {
  }

  /** Multiples of a positive `m` are at least `m` apart. */
  lemma {:induction false} MulGap(a: int, b: int, m: int)
    requires a > b && m > 0
    ensures a * m >= b * m + m
    decreases a - b
  {
    MulPred(a, m);
    if a > b + 1 {
      MulGap(a - 1, b, m);
    }
  }

  /** The remainder is unique: `x = q*m + r` with `0 <= r < m` fixes `x % m`. */
  lemma ModUnique(x: int, m: int, q: int, r: int)
    requires m > 0 && 0 <= r < m && x == q * m + r
    ensures x % m == r
  {
    var q0, r0 := x / m, x % m;
    assert x == q0 * m + r0;
    if q0 > q {
      MulGap(q0, q, m);
    } else if q0 < q {
      MulGap(q, q0, m);
    }
  }

  /** Advancing a wrapped counter by one is the same as wrapping the advance. */
  lemma ModSucc(x: nat, m: int)
    requires m > 0
    ensures ((x % m) + 1) % m == (x + 1) % m
  {
    var q, r := x / m, x % m;
    if r + 1 < m {
      ModUnique(r + 1, m, 0, r + 1);
      ModUnique(x + 1, m, q, r + 1);
    } else {
      ModUnique(r + 1, m, 1, 0);
      assert x + 1 == (q + 1) * m;
      ModUnique(x + 1, m, q + 1, 0);
    }
  }

  /** Two counters fewer than `m` beats apart differ modulo `m`. */
  lemma ModDistinct(s: nat, i: nat, j: nat, m: int)
    requires m > 0 && i < j && j - i < m
    ensures (s + i) % m != (s + j) % m
  {
    var qi, qj := (s + i) / m, (s + j) / m;
    assert s + i == qi * m + (s + i) % m;
    assert s + j == qj * m + (s + j) % m;
    if qj > qi {
      MulGap(qj, qi, m);
    } else if qi > qj {
      MulGap(qi, qj, m);
    }
  }

  /** One step of `incrementCurrLoopBeat`, for a known advanced beat. */
  lemma IncrementOneStep(p: CookableNode, advanced: nat)
    requires p.loopLength > 0 && advanced == NextBeat(p.currLoopBeat, p.loopLength)
    ensures p.loopBeats > 0 && advanced == (p.loopStartBeat + p.loopBeats) % p.loopLength ==>
      p.IncrementCurrLoopBeat() == p.(currLoopBeat := p.loopStartBeat, position := p.loopStartPosition)
    ensures !(p.loopBeats > 0 && advanced == (p.loopStartBeat + p.loopBeats) % p.loopLength) ==>
      p.IncrementCurrLoopBeat() == p.(currLoopBeat := advanced)
  {
  }

  /**
   * A stutter period lies in `1..len`, equals the stutter length when that
   * fits in the loop, and reaches the same beat as the stutter length.
   */
  lemma StutterPeriodSpec(s: nat, loopBeats: nat, len: int)
    requires len > 0 && loopBeats > 0
    ensures 1 <= StutterPeriod(loopBeats, len) <= len
    ensures loopBeats <= len ==> StutterPeriod(loopBeats, len) == loopBeats
    ensures (s + StutterPeriod(loopBeats, len)) % len == (s + loopBeats) % len
  {
    var q, r := (loopBeats - 1) / len, (loopBeats - 1) % len;
    var period := r + 1;
    if loopBeats <= len {
      ModUnique(loopBeats - 1, len, 0, loopBeats - 1);
    }
    var q2, t := (s + period) / len, (s + period) % len;
    assert s + period == q2 * len + t;
    assert loopBeats - 1 == q * len + r;
    assert s + loopBeats == (q2 + q) * len + t;
    ModUnique(s + loopBeats, len, q2 + q, t);
  }

  /**
   * The evidently intended stutter: started at its start beat, a node walks
   * its stutter period (the stutter length, reduced into the loop length)
   * beat by beat and then comes back to the start, with playback rewound to
   * the remembered position.
   */
  lemma {:induction false} StutterCycle(n: CookableNode, k: nat)
    requires n.loopLength > 0 && 0 < n.loopBeats
    requires n.currLoopBeat == n.loopStartBeat < n.loopLength
    requires k <= StutterPeriod(n.loopBeats, n.loopLength)
    ensures k < StutterPeriod(n.loopBeats, n.loopLength) ==>
      Increments(n, k) == n.(currLoopBeat := (n.loopStartBeat + k) % n.loopLength)
    ensures k == StutterPeriod(n.loopBeats, n.loopLength) ==>
      Increments(n, k) == n.(currLoopBeat := n.loopStartBeat, position := n.loopStartPosition)
  {
    var s, len, beats := n.loopStartBeat, n.loopLength, n.loopBeats;
    var period := StutterPeriod(beats, len);
    StutterPeriodSpec(s, beats, len);
    if k == 0 {
      ModUnique(s, len, 0, s);
    } else {
      StutterCycle(n, k - 1);
      var prev := Increments(n, k - 1);
      var x := s + (k - 1);
      var before, after, target := x % len, (x + 1) % len, (s + beats) % len;
      assert prev == n.(currLoopBeat := before);
      ModSucc(x, len);
      assert x + 1 == s + k;
      if k < period {
        ModDistinct(s, k, period, len);
        assert after != target;
        IncrementOneStep(prev, after);
      } else {
        assert after == target;
        IncrementOneStep(prev, after);
      }
    }
  }

  /**
   * As written, the counter never moves: a node whose beat is below the loop
   * length and is not the rewind beat keeps its beat and position forever,
   * so the stutter never repeats.
   */
  lemma {:induction false} AsWrittenNeverAdvances(n: CookableNode, k: nat)
    requires n.loopLength > 0 && n.currLoopBeat < n.loopLength
    requires n.loopBeats == 0 || n.currLoopBeat != (n.loopStartBeat + n.loopBeats) % n.loopLength
    ensures IncrementsAsWritten(n, k) == n
  {
    if k > 0 {
      AsWrittenNeverAdvances(n, k - 1);
      ModUnique(n.currLoopBeat, n.loopLength, 0, n.currLoopBeat);
    }
  }

  /**
   * The discrepancy on one input: a four-beat loop grabbed at beat 0 with a
   * two-beat stutter rewinds after two beats as intended, but not as written.
   */
  lemma StutterAsWrittenStalls(n: CookableNode)
    requires n.loopLength == 4 && n.loopBeats == 2
    requires n.currLoopBeat == 0 && n.loopStartBeat == 0
    ensures IncrementsAsWritten(n, 2).currLoopBeat == 0
    ensures IncrementsAsWritten(n, 2).position == n.position
    ensures Increments(n, 1).currLoopBeat == 1
    ensures Increments(n, 2).position == n.loopStartPosition
  {
    AsWrittenNeverAdvances(n, 2);
    StutterPeriodSpec(0, 2, 4);
    StutterCycle(n, 1);
    StutterCycle(n, 2);
  }

  /**
   * As written, a stutter length that is a whole number of loop lengths,
   * entered at its start beat, rewinds the playback position on every beat:
   * the unadvanced beat is already the rewind beat.
   */
  lemma {:induction false} AsWrittenRewindsEveryBeat(n: CookableNode, k: nat)
    requires n.loopLength > 0 && n.loopBeats > 0 && n.loopBeats % n.loopLength == 0
    requires n.currLoopBeat == n.loopStartBeat < n.loopLength
    requires k > 0
    ensures IncrementsAsWritten(n, k) == n.(position := n.loopStartPosition)
  {
    var s, len := n.loopStartBeat, n.loopLength;
    var q := n.loopBeats / len;
    assert n.loopBeats == q * len;
    ModUnique(s + n.loopBeats, len, q, s);
    ModUnique(s, len, 0, s);
    if k > 1 {
      AsWrittenRewindsEveryBeat(n, k - 1);
    }
  }
}
