/**
 * The wheel component: the winner, extra-turn and offset arithmetic of one spin, the wheel's
 * persistent rotation, its tick-sampling intervals and completion timeouts, and the slice
 * layout of its conic gradient. Random draws, clock readings and timer firings are inputs.
 */
module WheelComponent {

  import opened Types
  import opened AudioUtil

  /** Length of one spin, in milliseconds; the CSS transition lasts as long. */
  const SpinMillis: int := 5000
  const FullTurn: real := 360.0
  const MinExtraSpins: int := 5

  /** The three `Math.random()` draws of one spin: winner, extra turns, offset in the slice. */
  datatype Draws = Draws(winner: real, turns: real, jitter: real)

  predicate IsDraw(r: real) {
    0.0 <= r < 1.0
  }

  predicate AreDraws(d: Draws) {
    IsDraw(d.winner) && IsDraw(d.turns) && IsDraw(d.jitter)
  }

  lemma MulNonNeg(a: real, b: real)
    requires 0.0 <= a && 0.0 <= b
    ensures 0.0 <= a * b
  {
  }

  lemma MulLe(a: real, b: real, c: real)
    requires a <= b && 0.0 < c
    ensures a * c <= b * c
  {
    MulNonNeg(b - a, c);
    assert b * c - a * c == (b - a) * c;
  }

  lemma MulLt(a: real, b: real, c: real)
    requires a < b && 0.0 < c
    ensures a * c < b * c
  {
    assert b * c - a * c == (b - a) * c;
  }

  /** The angle of one slice when the wheel holds `n` items. */
  function SliceAngle(n: nat): (a: real)
    requires n > 0
    ensures a > 0.0 && a * n as real == FullTurn
  {
    FullTurn / n as real
  }

  lemma DrawScales(r: real, n: nat)
    requires IsDraw(r) && n > 0
    ensures 0.0 <= r * n as real < n as real
  {
    assert r * n as real <= 1.0 * n as real - (1.0 - r) * n as real;
  }

  /** `Math.floor(r * n)`: an index into the items. */
  function RandomIndex(r: real, n: nat): (k: nat)
    requires IsDraw(r) && n > 0
    ensures k < n
  {
    DrawScales(r, n);
    (r * n as real).Floor
  }

  /** Each index is chosen by a sub-interval of [0, 1) of width 1/n, so all are equally likely. */
  lemma RandomIndexUniform(r: real, n: nat, k: nat)
    requires IsDraw(r) && n > 0 && k < n
    ensures RandomIndex(r, n) == k <==> k as real / n as real <= r < (k + 1) as real / n as real
  {
    var x := r * n as real;
    var lo, hi := k as real / n as real, (k + 1) as real / n as real;
    assert lo * n as real == k as real && hi * n as real == (k + 1) as real;
    if lo <= r { MulLe(lo, r, n as real); } else { MulLt(r, lo, n as real); }
    if r < hi { MulLt(r, hi, n as real); } else { MulLe(hi, r, n as real); }
  }

  /** `5 + Math.floor(r * 3)`: the full turns added to a spin. */
  function ExtraSpins(r: real): (k: int)
    requires IsDraw(r)
    ensures MinExtraSpins <= k <= MinExtraSpins + 2
  {
    DrawScales(r, 3);
    MinExtraSpins + (r * 3.0).Floor
  }

  /** Each of 5, 6 and 7 turns is chosen by a third of [0, 1); 8 never is. */
  lemma ExtraSpinsUniform(r: real, j: nat)
    requires IsDraw(r) && j < 3
    ensures ExtraSpins(r) == MinExtraSpins + j <==> j as real / 3.0 <= r < (j + 1) as real / 3.0
  {
  }

  /** `r * (slice * 0.8) - slice * 0.4`: where in its slice the spin stops. */
  function Jitter(r: real, slice: real): (o: real)
    requires IsDraw(r) && slice > 0.0
    ensures -0.4 * slice <= o < 0.4 * slice
  {
    assert r * (slice * 0.8) < slice * 0.8 by {
      assert slice * 0.8 - r * (slice * 0.8) == (1.0 - r) * (slice * 0.8);
    }
    r * (slice * 0.8) - slice * 0.4
  }

  /** Every offset in [-0.4 * slice, 0.4 * slice) is the offset of some draw. */
  lemma JitterCoversRange(o: real, slice: real)
    requires slice > 0.0 && -0.4 * slice <= o < 0.4 * slice
    ensures exists r :: IsDraw(r) && Jitter(r, slice) == o
  {
    var r := (o + 0.4 * slice) / (0.8 * slice);
    assert r * (0.8 * slice) == o + 0.4 * slice;
    assert r * (slice * 0.8) == o + 0.4 * slice;
    assert IsDraw(r) by {
      if r >= 1.0 {
        MulLe(1.0, r, 0.8 * slice);
      }
    }
    assert Jitter(r, slice) == o;
  }

  /** `prev + extraSpins * 360 + (360 - index * slice) + offset`: the rotation a spin ends at. */
  function TargetAngle(prev: real, extraSpins: int, index: nat, slice: real, offset: real): (t: real)
    ensures t - prev == (extraSpins + 1) as real * FullTurn - (index as real * slice - offset)
  {
    prev + extraSpins as real * FullTurn + (FullTurn - index as real * slice) + offset
  }

  /** The draws of one spin and the rotation it ends at. */
  datatype Plan = Plan(index: nat, extraSpins: int, offset: real, target: real)

  /**
   * The plan of a spin over `n` items starting from rotation `prev`. Its target lies at least
   * five turns and 0.6 of a slice beyond `prev`, and less than eight turns and 0.4 of a slice
   * beyond it.
   */
  function PlanSpin(prev: real, n: nat, d: Draws): (p: Plan)
    requires n > 0 && AreDraws(d)
    ensures p.index < n && MinExtraSpins <= p.extraSpins <= MinExtraSpins + 2
    ensures -0.4 * SliceAngle(n) <= p.offset < 0.4 * SliceAngle(n)
    ensures p.target == TargetAngle(prev, p.extraSpins, p.index, SliceAngle(n), p.offset)
    ensures prev + 1800.0 + 0.6 * SliceAngle(n) <= p.target < prev + 2880.0 + 0.4 * SliceAngle(n)
  {
    var slice := SliceAngle(n);
    var index := RandomIndex(d.winner, n);
    var extra := ExtraSpins(d.turns);
    var offset := Jitter(d.jitter, slice);
    TargetBounds(prev, extra, index, n, slice, offset);
    Plan(index, extra, offset, TargetAngle(prev, extra, index, slice, offset))
  }

  lemma TargetBounds(prev: real, extra: int, index: nat, n: nat, slice: real, offset: real)
    requires MinExtraSpins <= extra <= MinExtraSpins + 2 && index < n
    requires slice > 0.0 && slice * n as real == FullTurn && -0.4 * slice <= offset < 0.4 * slice
    ensures var t := TargetAngle(prev, extra, index, slice, offset);
      prev + 1800.0 + 0.6 * slice <= t < prev + 2880.0 + 0.4 * slice
  {
    var turn := FullTurn - index as real * slice;
    assert slice <= turn <= FullTurn by {
      MulLe(index as real, (n - 1) as real, slice);
      assert (n - 1) as real * slice == FullTurn - slice;
      MulNonNeg(index as real, slice);
    }
    assert 1800.0 <= extra as real * FullTurn <= 2520.0;
  }

  // ---- Where the pointer ends up ----

  /** `a` reduced into [0, 360). */
  function Normalize(a: real): (r: real)
    ensures 0.0 <= r < FullTurn
  {
    a - FullTurn * (a / FullTurn).Floor as real
  }

  lemma NormalizeShift(a: real, k: int)
    ensures Normalize(a + k as real * FullTurn) == Normalize(a)
  {
    assert (a + k as real * FullTurn) / FullTurn == a / FullTurn + k as real;
    assert (a / FullTurn + k as real).Floor == (a / FullTurn).Floor + k;
  }

  lemma NormalizeOf(a: real, b: real, k: int)
    requires 0.0 <= b < FullTurn && a == b + FullTurn * k as real
    ensures Normalize(a) == b
  {
    assert a / FullTurn == b / FullTurn + k as real;
    assert (a / FullTurn).Floor == k;
  }

  /**
   * Wheel angle `alpha` lies in the slice of item `k`: the gradient paints item `k` from
   * `k * slice` to `(k + 1) * slice`, clockwise from the top.
   */
  predicate InSlice(alpha: real, k: nat, slice: real) {
    k as real * slice <= alpha < (k + 1) as real * slice
  }

  /**
   * The wheel angle under the fixed top pointer once the wheel is turned clockwise by
   * `rotation`: the pointer then sees the wheel at angle `-rotation`.
   */
  function PointerAngle(rotation: real): (a: real)
    ensures 0.0 <= a < FullTurn
  {
    Normalize(-rotation)
  }

  /**
   * What a spin does to the pointer's position on the wheel: the wheel angle under the
   * pointer moves by `index * slice - offset` (modulo a full turn) from where the previous
   * spin left it, in the direction the slices are laid out, whatever the extra turns.
   * The offset is centred on the winner's leading edge, and the previous rotation is not
   * reduced to a whole number of turns, so the position depends on earlier spins too.
   */
  lemma PointerAfterSpin(prev: real, extraSpins: int, index: nat, slice: real, offset: real)
    ensures Normalize(-TargetAngle(prev, extraSpins, index, slice, offset)) ==
      Normalize(Normalize(-prev) + (index as real * slice - offset))
  {
    var step := index as real * slice - offset;
    var turns := extraSpins + 1;
    var t := prev + turns as real * FullTurn - step;
    assert t == TargetAngle(prev, extraSpins, index, slice, offset) by {
      assert turns as real * FullTurn == extraSpins as real * FullTurn + FullTurn;
    }
    PointerMoves(prev, turns, step);
  }

  lemma PointerMoves(prev: real, turns: int, step: real)
    ensures Normalize(-(prev + turns as real * FullTurn - step)) == Normalize(Normalize(-prev) + step)
  {
    var m := (-prev / FullTurn).Floor;
    var a := Normalize(-prev) + step;
    assert a == -prev - FullTurn * m as real + step;
    assert -(prev + turns as real * FullTurn - step) == a + (m - turns) as real * FullTurn;
    NormalizeShift(a, m - turns);
  }

  /**
   * The item whose slice holds the pointer after a spin from rest: the winner when the offset
   * is not positive, the item before it (the last item, for the winner 0) when it is.
   */
  function Landed(n: nat, index: nat, offset: real): (k: nat)
    requires index < n
    ensures k < n
  {
    if offset <= 0.0 then index else if index > 0 then index - 1 else n - 1
  }

  /** Where the first spin of a session stops. */
  lemma FirstSpinLanding(n: nat, d: Draws)
    requires n > 0 && AreDraws(d)
    ensures var p := PlanSpin(0.0, n, d);
      InSlice(PointerAngle(p.target), Landed(n, p.index, p.offset), SliceAngle(n))
  {
    var p := PlanSpin(0.0, n, d);
    LandingOfPlan(n, SliceAngle(n), p);
  }

  lemma LandingOfPlan(n: nat, slice: real, p: Plan)
    requires p.index < n && slice > 0.0 && slice * n as real == FullTurn
    requires -0.4 * slice <= p.offset < 0.4 * slice
    requires p.target == TargetAngle(0.0, p.extraSpins, p.index, slice, p.offset)
    ensures InSlice(PointerAngle(p.target), Landed(n, p.index, p.offset), slice)
  {
    var index, offset := p.index, p.offset;
    FromRest(p.target, p.extraSpins, index, slice, offset);
    var at := Normalize(index as real * slice - offset);
    if offset <= 0.0 {
      LandInWinner(n, index, slice, offset);
      assert InSlice(at, Landed(n, index, offset), slice);
    } else if index > 0 {
      LandBeforeWinner(n, index, slice, offset);
      assert InSlice(at, Landed(n, index, offset), slice);
    } else {
      LandInLast(n, slice, offset);
      assert 0 as real * slice - offset == index as real * slice - offset;
      assert InSlice(at, Landed(n, index, offset), slice);
    }
  }

  lemma FromRest(target: real, extraSpins: int, index: nat, slice: real, offset: real)
    requires target == TargetAngle(0.0, extraSpins, index, slice, offset)
    ensures PointerAngle(target) == Normalize(index as real * slice - offset)
  {
    PointerAfterSpin(0.0, extraSpins, index, slice, offset);
    NormalizeOf(0.0, 0.0, 0);
    assert Normalize(-0.0) + (index as real * slice - offset) == index as real * slice - offset;
  }

  /** The end of the slice of item `index` does not pass a full turn. */
  lemma SliceEnd(n: nat, index: nat, slice: real)
    requires index < n && slice > 0.0 && slice * n as real == FullTurn
    ensures 0.0 <= index as real * slice && (index + 1) as real * slice <= FullTurn
  {
    MulLe((index + 1) as real, n as real, slice);
    MulNonNeg(index as real, slice);
  }

  lemma LandInWinner(n: nat, index: nat, slice: real, offset: real)
    requires index < n && slice > 0.0 && slice * n as real == FullTurn
    requires -0.4 * slice <= offset <= 0.0
    ensures InSlice(Normalize(index as real * slice - offset), index, slice)
  {
    SliceEnd(n, index, slice);
    var step := index as real * slice - offset;
    assert (index + 1) as real * slice == index as real * slice + slice;
    NormalizeOf(step, step, 0);
  }

  lemma LandBeforeWinner(n: nat, index: nat, slice: real, offset: real)
    requires 0 < index < n && slice > 0.0 && slice * n as real == FullTurn
    requires 0.0 < offset < 0.4 * slice
    ensures InSlice(Normalize(index as real * slice - offset), index - 1, slice)
  {
    SliceEnd(n, index - 1, slice);
    var step := index as real * slice - offset;
    assert index as real * slice == (index - 1) as real * slice + slice;
    NormalizeOf(step, step, 0);
  }

  lemma LandInLast(n: nat, slice: real, offset: real)
    requires 0 < n && slice > 0.0 && slice * n as real == FullTurn
    requires 0.0 < offset < 0.4 * slice
    ensures InSlice(Normalize(0 as real * slice - offset), n - 1, slice)
  {
    assert (n - 1) as real * slice == FullTurn - slice;
    assert (n - 1 + 1) as real * slice == FullTurn;
    NormalizeOf(0 as real * slice - offset, FullTurn - offset, -1);
  }

  /**
   * The first spin of a session over two items, with winner draw 0.5 (item 1) and offset draw
   * 0.9, stops with item 0 under the pointer while item 1 is reported as the winner.
   */
  lemma PointerMissesWinner()
    ensures var p := PlanSpin(0.0, 2, Draws(0.5, 0.0, 0.9));
      p.index == 1 && p.target == 2037.6 && InSlice(PointerAngle(p.target), 0, SliceAngle(2)) && !InSlice(PointerAngle(p.target), 1, SliceAngle(2))
  {
    var p := PlanSpin(0.0, 2, Draws(0.5, 0.0, 0.9));
    assert (0.5 * 2.0).Floor == 1;
    assert (0.0 * 3.0).Floor == 0;
    assert p.target == 2037.6;
    NormalizeOf(-2037.6, 122.4, -6);
  }

  // ---- Tick sampling ----

  /** One firing of the 50 ms tick interval: milliseconds since the spin started, the `Math.random()` draw, the audio clock. */
  datatype Sample = Sample(elapsed: int, draw: real, audioTime: real)

  /** `elapsed / duration`: the spin's progress, which reaches 1 exactly when 5000 ms have elapsed. */
  function Progress(elapsed: int): (p: real)
    ensures p >= 1.0 <==> elapsed >= SpinMillis
    ensures 0 <= elapsed ==> 0.0 <= p
  {
    elapsed as real / SpinMillis as real
  }

  lemma CubeBelowOne(p: real)
    ensures p < 1.0 ==> p * p * p < 1.0
    ensures 0.0 <= p ==> 0.0 <= p * p * p
  {
    if p < 0.0 {
      assert p * p >= 0.0;
      assert p * p * p <= 0.0;
    } else if p < 1.0 {
      assert p * p <= p;
      assert p * p * p <= p * p;
    }
  }

  /** `0.4 * (1 - p^3)`: the chance of a tick at progress `p`. */
  function TickChance(p: real): (c: real)
    ensures p < 1.0 ==> 0.0 < c
    ensures 0.0 <= p ==> c <= 0.4
  {
    CubeBelowOne(p);
    0.4 * (1.0 - p * p * p)
  }

  lemma CubeMonotone(p: real, q: real)
    requires p <= q
    ensures p * p * p <= q * q * q
  {
    var w := q + p / 2.0;
    assert q * q * q - p * p * p == (q - p) * (w * w + 0.75 * (p * p));
    if w >= 0.0 { MulNonNeg(w, w); } else { MulNonNeg(-w, -w); }
    if p >= 0.0 { MulNonNeg(p, p); } else { MulNonNeg(-p, -p); }
    MulNonNeg(q - p, w * w + 0.75 * (p * p));
  }

  /** The chance of a tick never grows as the spin goes on. */
  lemma TickChanceFalls(p: real, q: real)
    requires p <= q
    ensures TickChance(q) <= TickChance(p)
  {
    CubeMonotone(p, q);
  }

  datatype SampleOutcome = Clear | Tick | Quiet

  /** A sample at or past the end of the spin clears the interval; any other ticks iff its draw is below the chance. */
  function Outcome(s: Sample): (o: SampleOutcome)
    ensures o == Clear <==> s.elapsed >= SpinMillis
    ensures o == Tick <==> s.elapsed < SpinMillis && s.draw < TickChance(Progress(s.elapsed))
  {
    if Progress(s.elapsed) >= 1.0 then Clear
    else if s.draw < TickChance(Progress(s.elapsed)) then Tick
    else Quiet
  }

  /** Some sample in `ss` clears the interval. */
  predicate ClearedBy(ss: seq<Sample>) {
    exists i :: 0 <= i < |ss| && Outcome(ss[i]) == Clear
  }

  /** The audio times of the ticks emitted over the samples `ss`: firings after the clearing one never happen. */
  function TickTimes(ss: seq<Sample>): (ts: seq<real>)
    ensures |ts| <= |ss|
    ensures forall t :: t in ts ==> exists i :: 0 <= i < |ss| && ss[i].audioTime == t && Outcome(ss[i]) == Tick
  {
    if ss == [] then []
    else
      var before := ss[..|ss| - 1];
      var last := ss[|ss| - 1];
      var ts := TickTimes(before);
      assert forall i :: 0 <= i < |before| ==> before[i] == ss[i];
      if ClearedBy(before) || Outcome(last) != Tick then ts else ts + [last.audioTime]
  }

  /** Once a sample has cleared the interval, later samples add no tick. */
  lemma {:induction false} NoTicksAfterClear(ss: seq<Sample>, k: nat)
    requires k <= |ss| && ClearedBy(ss[..k])
    ensures TickTimes(ss) == TickTimes(ss[..k])
    decreases |ss| - k
  {
    if k < |ss| {
      var before := ss[..|ss| - 1];
      assert before[..k] == ss[..k];
      assert ClearedBy(before) by {
        var i :| 0 <= i < k && Outcome(ss[..k][i]) == Clear;
        assert before[i] == ss[..k][i];
      }
      NoTicksAfterClear(before, k);
    } else {
      assert ss[..k] == ss;
    }
  }

  /** The samples that emit a tick: those whose outcome is a tick and that no earlier sample has cleared. */
  function TickIndices(ss: seq<Sample>): set<nat> {
    set i: nat | i < |ss| && !ClearedBy(ss[..i]) && Outcome(ss[i]) == Tick
  }

  /** Every sample that ticks before the interval is cleared emits its tick. */
  lemma {:induction false} TickIf(ss: seq<Sample>, i: nat)
    requires i < |ss| && !ClearedBy(ss[..i]) && Outcome(ss[i]) == Tick
    ensures ss[i].audioTime in TickTimes(ss)
  {
    var n := |ss| - 1;
    var before := ss[..n];
    if i < n {
      assert before[..i] == ss[..i] && before[i] == ss[i];
      TickIf(before, i);
    } else {
      assert before == ss[..i];
    }
  }

  /** The ticks emitted are exactly one per ticking sample before the clear. */
  lemma {:induction false} TickCount(ss: seq<Sample>)
    ensures |TickTimes(ss)| == |TickIndices(ss)|
  {
    if ss == [] {
      assert TickIndices(ss) == {};
    } else {
      var n := |ss| - 1;
      var before := ss[..n];
      TickCount(before);
      var prior := TickIndices(before);
      assert forall i: nat :: i < n ==> ss[..i] == before[..i] && ss[i] == before[i];
      if !ClearedBy(before) && Outcome(ss[n]) == Tick {
        assert TickIndices(ss) == prior + {n};
        assert n !in prior;
      } else {
        assert TickIndices(ss) == prior;
      }
    }
  }

  /** The tick voices scheduled at the audio times `ts`, in order. */
  function TickVoices(ts: seq<real>): seq<Voice> {
    seq(|ts|, i requires 0 <= i < |ts| => TickVoice(ts[i]))
  }

  // ---- The component's spin state ----

  /** A pending completion timeout: the tick interval it clears, and the items and index captured when the spin began. */
  datatype Timeout = Timeout(interval: nat, items: seq<WheelItem>, index: nat)

  class Wheel {
    const audio: AudioManager
    /** The `rotation` state the wheel is drawn at. */
    var rotation: real
    /** `currentRotationRef`: the rotation the last spin ended at, kept across spins. */
    var currentRotation: real
    /** Tick intervals that have not been cleared. */
    var live: set<nat>
    /** Completion timeouts not yet fired; all have the same delay, so they fire in this order. */
    var pending: seq<Timeout>
    var nextHandle: nat

    ghost predicate Valid()
      reads this
    {
      rotation == currentRotation &&
      (forall h :: h in live ==> h < nextHandle) &&
      (forall t :: t in pending ==> t.interval < nextHandle && t.index < |t.items|)
    }

    constructor (audio: AudioManager)
      ensures Valid() && this.audio == audio
      ensures rotation == currentRotation == 0.0 && live == {} && pending == [] && nextHandle == 0
    {
      this.audio := audio;
      rotation, currentRotation := 0.0, 0.0;
      live, pending, nextHandle := {}, [], 0;
    }

    /**
     * `spin()`: with fewer than two items nothing happens. Otherwise the audio context is
     * woken, the rotation advances to the plan's target, and a tick interval and a completion
     * timeout capturing `items` and the winner's index are started.
     */
    method Spin(items: seq<WheelItem>, d: Draws)
      requires Valid() && AreDraws(d)
      modifies this, audio`ctx
      ensures Valid()
      ensures |items| < 2 ==>
        rotation == old(rotation) && currentRotation == old(currentRotation) && live == old(live) &&
        pending == old(pending) && nextHandle == old(nextHandle) && audio.ctx == old(audio.ctx)
      ensures |items| >= 2 ==>
        var p := PlanSpin(old(currentRotation), |items|, d);
        currentRotation == rotation == p.target &&
        currentRotation >= old(currentRotation) + 1800.0 + 0.6 * SliceAngle(|items|) &&
        live == old(live) + {old(nextHandle)} && nextHandle == old(nextHandle) + 1 &&
        pending == old(pending) + [Timeout(old(nextHandle), items, p.index)] &&
        audio.ctx == if old(audio.ctx) == Some(AudioContext(Suspended)) then Some(AudioContext(Running)) else old(audio.ctx)
    {
      if |items| < 2 {
        return;
      }
      audio.Resume();
      var p := PlanSpin(currentRotation, |items|, d);
      currentRotation := p.target;
      rotation := p.target;
      var handle := nextHandle;
      nextHandle := nextHandle + 1;
      live := live + {handle};
      pending := pending + [Timeout(handle, items, p.index)];
    }

    /** One firing of tick interval `h`: nothing if it was cleared; otherwise clear it at the end of the spin, or tick if the draw says so. */
    method TickStep(h: nat, s: Sample)
      modifies this`live, audio`log
      ensures h !in old(live) || Outcome(s) != Clear ==> live == old(live)
      ensures h in old(live) && Outcome(s) == Clear ==> live == old(live) - {h}
      ensures audio.log == old(audio.log) +
        if h in old(live) && Outcome(s) == Tick && audio.Audible() then [TickVoice(s.audioTime)] else []
    {
      if h !in live {
        return;
      }
      var p := Progress(s.elapsed);
      if p >= 1.0 {
        live := live - {h};
        return;
      }
      if s.draw < TickChance(p) {
        audio.PlayTick(s.audioTime);
      }
    }

    /** Interval `h` firing at each of the samples `ss` in turn. */
    method RunInterval(h: nat, ss: seq<Sample>)
      modifies this`live, audio`log
      ensures h !in old(live) ==> live == old(live) && audio.log == old(audio.log)
      ensures h in old(live) ==>
        live == (if ClearedBy(ss) then old(live) - {h} else old(live)) &&
        audio.log == old(audio.log) + if audio.Audible() then TickVoices(TickTimes(ss)) else []
    {
      for i := 0 to |ss|
        invariant h !in old(live) ==> live == old(live) && audio.log == old(audio.log)
        invariant h in old(live) ==>
          live == (if ClearedBy(ss[..i]) then old(live) - {h} else old(live)) &&
          audio.log == old(audio.log) + if audio.Audible() then TickVoices(TickTimes(ss[..i])) else []
      {
        ghost var before := ss[..i];
        assert ss[..i + 1][..i] == before && ss[..i + 1][i] == ss[i];
        assert ClearedBy(ss[..i + 1]) <==> ClearedBy(before) || Outcome(ss[i]) == Clear by {
          assert forall j :: 0 <= j < i ==> ss[..i + 1][j] == before[j];
        }
        TickStep(h, ss[i]);
      }
      assert ss[..|ss|] == ss;
    }

    /**
     * The oldest completion timeout firing: it clears its tick interval, and only then hands
     * back the winner, the item at the index chosen when the spin began, from the items
     * captured then. With no timeout pending nothing happens.
     */
    method Complete() returns (winner: Option<WheelItem>)
      requires Valid()
      modifies this`live, this`pending
      ensures Valid()
      ensures old(pending) == [] ==> winner == None && live == old(live) && pending == old(pending)
      ensures old(pending) != [] ==>
        var t := old(pending)[0];
        winner == Some(t.items[t.index]) && winner.value in t.items &&
        live == old(live) - {t.interval} && t.interval !in live && pending == old(pending)[1..]
    {
      if pending == [] {
        return None;
      }
      var t := pending[0];
      live := live - {t.interval};
      pending := pending[1..];
      winner := Some(t.items[t.index]);
    }
  }

  // ---- The conic gradient ----

  /** One coloured stretch of the gradient, from angle `from` to angle `to`. */
  datatype Segment = Segment(color: string, from: real, to: real)

  /** The wheel's background: one colour, or a conic gradient of segments. */
  datatype Fill = Solid(color: string) | Conic(segments: seq<Segment>)

  /** `generateGradient`: gray without items, the item's colour for one, else one segment per item. */
  method GenerateGradient(items: seq<WheelItem>) returns (f: Fill)
    ensures |items| == 0 ==> f == Solid("gray")
    ensures |items| == 1 ==> f == Solid(items[0].color)
    ensures |items| >= 2 ==>
      f.Conic? && |f.segments| == |items| &&
      (forall k :: 0 <= k < |items| ==>
        f.segments[k].color == items[k].color &&
        f.segments[k].from == k as real * SliceAngle(|items|) &&
        f.segments[k].to == (k + 1) as real * SliceAngle(|items|)) &&
      (forall k :: 0 <= k < |items| - 1 ==> f.segments[k].to == f.segments[k + 1].from) &&
      f.segments[0].from == 0.0 && f.segments[|items| - 1].to == FullTurn
  {
    if |items| == 0 {
      return Solid("gray");
    }
    if |items| == 1 {
      return Solid(items[0].color);
    }
    var angle := FullTurn / |items| as real;
    var segments: seq<Segment> := [];
    for i := 0 to |items|
      invariant |segments| == i
      invariant forall k :: 0 <= k < i ==>
        segments[k] == Segment(items[k].color, k as real * angle, (k + 1) as real * angle)
    {
      segments := segments + [Segment(items[i].color, i as real * angle, (i + 1) as real * angle)];
    }
    assert |items| as real * angle == FullTurn;
    f := Conic(segments);
  }

  /** The angle a label is drawn at: the middle of its item's slice. */
  function LabelAngle(index: nat, n: nat): (a: real)
    requires index < n
    ensures index as real * SliceAngle(n) < a < (index + 1) as real * SliceAngle(n)
    ensures a - index as real * SliceAngle(n) == (index + 1) as real * SliceAngle(n) - a
  {
    SliceAngle(n) * index as real + SliceAngle(n) / 2.0
  }
}
