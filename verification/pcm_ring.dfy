/**
 The interleaved PCM ring between the AirPlay receiver and the encoders. Samples are reals; the
 conversion to 16 bits is exact on them.
 */
module AudioRing {

  type Sample = real

  // ----- samples ------------------------------------------------------------------------------

  function Clamped(s: Sample): Sample {
    if s < -1.0 then -1.0 else if s > 1.0 then 1.0 else s
  }

  /** Nearest integer, halves away from zero. */
  function Rounded(x: real): int {
    if x >= 0.0 then (x + 0.5).Floor else -(-x + 0.5).Floor
  }

  function ToI16(s: Sample): int {
    Rounded(Clamped(s) * 32767.0)
  }

  /** Every sample fits 16 bits, negation is symmetric, and louder stays louder. */
  lemma ToI16IsSymmetricAndMonotone(s: Sample, t: Sample)
    ensures -32767 <= ToI16(s) <= 32767
    ensures ToI16(-s) == -ToI16(s)
    ensures s <= t ==> ToI16(s) <= ToI16(t)
  {
    assert s <= t ==> Clamped(s) * 32767.0 <= Clamped(t) * 32767.0;
  }

  /** `n` is the 16-bit value nearest to `s` at full scale, a half going away from zero; louder is full. */
  predicate Nearest(n: int, s: Sample) {
    if s >= 1.0 then n == 32767
    else if s <= -1.0 then n == -32767
    else if s >= 0.0 then s * 32767.0 - 0.5 < n as real <= s * 32767.0 + 0.5
    else s * 32767.0 - 0.5 <= n as real < s * 32767.0 + 0.5
  }

  /** The conversion is exact to half a step, for every sample. */
  lemma ToI16IsNearest(s: Sample)
    ensures Nearest(ToI16(s), s)
    ensures forall n :: Nearest(n, s) ==> n == ToI16(s)
  {
    var x := Clamped(s) * 32767.0;
    assert x >= 0.0 ==> (x + 0.5).Floor as real <= x + 0.5 < (x + 0.5).Floor as real + 1.0;
    assert x < 0.0 ==> (-x + 0.5).Floor as real <= -x + 0.5 < (-x + 0.5).Floor as real + 1.0;
  }

  function Encoded(s: seq<Sample>): (r: seq<int>)
    ensures |r| == |s|
    ensures forall i :: 0 <= i < |s| ==> r[i] == ToI16(s[i])
  {
    if s == [] then [] else Encoded(s[..|s| - 1]) + [ToI16(s[|s| - 1])]
  }

  // ----- the ring's value ---------------------------------------------------------------------

  datatype Ring = Ring(channels: nat, capacity: nat, buf: seq<Sample>, dropped: nat, underruns: nat)

  /** Set up by `new`: at least one channel, room for whole frames. */
  predicate Valid(r: Ring) {
    r.channels > 0 && r.capacity % r.channels == 0 && |r.buf| <= r.capacity
  }

  /** The newest `n` samples of `s`. */
  function Newest(s: seq<Sample>, n: nat): seq<Sample> {
    if |s| <= n then s else s[|s| - n..]
  }

  function Pushed(r: Ring, samples: seq<Sample>): Ring
    requires Valid(r)
  {
    var all := r.buf + samples;
    var lost := if |all| > r.capacity then |all| - r.capacity else 0;
    r.(buf := Newest(all, r.capacity), dropped := r.dropped + lost / r.channels)
  }

  function Available(r: Ring): nat
    requires Valid(r)
  {
    |r.buf| / r.channels
  }

  function Min(a: nat, b: nat): nat {
    if a < b then a else b
  }

  lemma WholeFramesFit(samples: nat, channels: nat, frames: nat)
    requires channels > 0 && frames <= samples / channels
    ensures frames * channels <= samples
  {
    assert frames * channels <= (samples / channels) * channels;
  }

  /** How many samples a pop of `frames` takes: whole frames only. */
  function Taken(r: Ring, frames: nat): (n: nat)
    requires Valid(r)
    ensures n <= |r.buf|
  {
    WholeFramesFit(|r.buf|, r.channels, Min(frames, Available(r)));
    Min(frames, Available(r)) * r.channels
  }

  function PoppedF32(r: Ring, frames: nat): Ring
    requires Valid(r)
  {
    r.(buf := r.buf[Taken(r, frames)..])
  }

  function PoppedI16(r: Ring, frames: nat): Ring
    requires Valid(r)
  {
    if Min(frames, Available(r)) == 0 then r.(underruns := r.underruns + 1) else PoppedF32(r, frames)
  }

  function Cleared(r: Ring): Ring {
    r.(buf := [])
  }

  // ----- runs ---------------------------------------------------------------------------------

  datatype Op = Push(samples: seq<Sample>) | PopI16(frames: nat) | PopF32(frames: nat) | Clear

  function Apply(r: Ring, o: Op): (e: Ring)
    requires Valid(r)
    ensures Valid(e) && e.channels == r.channels && e.capacity == r.capacity
  {
    match o
    case Push(samples) => Pushed(r, samples)
    case PopI16(frames) => PoppedI16(r, frames)
    case PopF32(frames) => PoppedF32(r, frames)
    case Clear => Cleared(r)
  }

  /** The samples an operation hands out. */
  function Out(r: Ring, o: Op): seq<Sample>
    requires Valid(r)
  {
    match o
    case PopI16(frames) => r.buf[..Taken(r, frames)]
    case PopF32(frames) => r.buf[..Taken(r, frames)]
    case _ => []
  }

  function RunRing(r: Ring, ops: seq<Op>): (e: Ring)
    requires Valid(r)
    ensures Valid(e) && e.channels == r.channels && e.capacity == r.capacity
    decreases |ops|
  {
    if ops == [] then r else RunRing(Apply(r, ops[0]), ops[1..])
  }

  /** A pop takes as many whole frames as are asked for and there, oldest first. */
  lemma PopTakesMost(r: Ring, o: Op)
    requires Valid(r) && (o.PopI16? || o.PopF32?)
    ensures var n := |Out(r, o)|;
            && n % r.channels == 0 && n <= |r.buf| && n <= o.frames * r.channels
            && (n == o.frames * r.channels || |r.buf| - n < r.channels)
            && Out(r, o) + Apply(r, o).buf == r.buf
  {
    var frames := Min(o.frames, Available(r));
    assert Taken(r, o.frames) == frames * r.channels;
    MultipleDividesBack(frames, r.channels);
    FramesAtMost(frames, o.frames, r.channels);
    assert r.buf[..Taken(r, o.frames)] + r.buf[Taken(r, o.frames)..] == r.buf;
    assert Available(r) * r.channels + |r.buf| % r.channels == |r.buf|;
  }

  lemma FramesAtMost(a: nat, b: nat, channels: nat)
    requires a <= b
    ensures a * channels <= b * channels
  {
  }

  /** How many 16-bit pops of `ops` find no whole frame. */
  function EmptyPops(r: Ring, ops: seq<Op>): nat
    requires Valid(r)
    decreases |ops|
  {
    if ops == [] then 0
    else (if ops[0].PopI16? && Out(r, ops[0]) == [] then 1 else 0) + EmptyPops(Apply(r, ops[0]), ops[1..])
  }

  lemma UnderrunStep(r: Ring, o: Op)
    requires Valid(r)
    ensures Apply(r, o).underruns == r.underruns + if o.PopI16? && Out(r, o) == [] then 1 else 0
  {
    if o.PopI16? {
      var frames := Min(o.frames, Available(r));
      assert frames > 0 ==> frames * r.channels > 0;
    }
  }

  /** The underrun counter counts exactly the 16-bit pops that found no whole frame. */
  lemma {:induction false} UnderrunsAreEmptyPops(r: Ring, ops: seq<Op>)
    requires Valid(r)
    ensures RunRing(r, ops).underruns == r.underruns + EmptyPops(r, ops)
    decreases |ops|
  {
    if ops != [] {
      UnderrunStep(r, ops[0]);
      UnderrunsAreEmptyPops(Apply(r, ops[0]), ops[1..]);
    }
  }

  // ----- the ring refines an unbounded log ------------------------------------------------------

  /** Everything ever pushed, and how much of it was popped, cleared or jumped over by a pop. */
  datatype Log = Log(pushed: seq<Sample>, consumed: nat)

  ghost predicate Sound(l: Log) {
    l.consumed <= |l.pushed|
  }

  /** What a reader still gets: the newest `capacity` of the samples not consumed. */
  function Waiting(l: Log, capacity: nat): seq<Sample>
    requires l.consumed <= |l.pushed|
  {
    Newest(l.pushed[l.consumed..], capacity)
  }

  function LogOut(l: Log, channels: nat, capacity: nat, o: Op): (out: seq<Sample>)
    requires l.consumed <= |l.pushed| && channels > 0
    ensures out <= Waiting(l, capacity)
  {
    if o.Push? || o.Clear? then []
    else
      var w := Waiting(l, capacity);
      WholeFramesFit(|w|, channels, Min(o.frames, |w| / channels));
      w[..Min(o.frames, |w| / channels) * channels]
  }

  function LogStep(l: Log, channels: nat, capacity: nat, o: Op): (e: Log)
    requires l.consumed <= |l.pushed| && channels > 0
    ensures e.consumed <= |e.pushed|
  {
    match o
    case Push(samples) => l.(pushed := l.pushed + samples)
    case Clear => l.(consumed := |l.pushed|)
    case _ => l.(consumed := |l.pushed| - |Waiting(l, capacity)| + |LogOut(l, channels, capacity, o)|)
  }

  lemma NewestTwice(s: seq<Sample>, more: seq<Sample>, capacity: nat)
    ensures Newest(Newest(s, capacity) + more, capacity) == Newest(s + more, capacity)
  {
    if |s| > capacity {
      var cut := |s| - capacity;
      assert s[cut..] + more == (s + more)[cut..];
    }
  }

  lemma PushRefinesLog(r: Ring, l: Log, samples: seq<Sample>)
    requires Valid(r) && Sound(l) && r.buf == Waiting(l, r.capacity)
    ensures Pushed(r, samples).buf == Waiting(LogStep(l, r.channels, r.capacity, Push(samples)), r.capacity)
  {
    NewestTwice(l.pushed[l.consumed..], samples, r.capacity);
    assert (l.pushed + samples)[l.consumed..] == l.pushed[l.consumed..] + samples;
  }

  lemma PopRefinesLog(r: Ring, l: Log, o: Op)
    requires Valid(r) && Sound(l) && r.buf == Waiting(l, r.capacity) && (o.PopI16? || o.PopF32?)
    ensures Out(r, o) == LogOut(l, r.channels, r.capacity, o)
    ensures Apply(r, o).buf == Waiting(LogStep(l, r.channels, r.capacity, o), r.capacity)
  {
    var taken := Taken(r, o.frames);
    var start := |l.pushed| - |r.buf|;
    assert r.buf == l.pushed[start..];
    assert LogStep(l, r.channels, r.capacity, o).consumed == start + taken;
    assert r.buf[taken..] == l.pushed[start + taken..];
    if o.PopI16? && Min(o.frames, Available(r)) == 0 {
      assert taken == 0;
    }
  }

  function Outs(r: Ring, ops: seq<Op>): seq<seq<Sample>>
    requires Valid(r)
    decreases |ops|
  {
    if ops == [] then [] else [Out(r, ops[0])] + Outs(Apply(r, ops[0]), ops[1..])
  }

  function LogOuts(l: Log, channels: nat, capacity: nat, ops: seq<Op>): seq<seq<Sample>>
    requires l.consumed <= |l.pushed| && channels > 0
    decreases |ops|
  {
    if ops == [] then []
    else [LogOut(l, channels, capacity, ops[0])] + LogOuts(LogStep(l, channels, capacity, ops[0]), channels, capacity, ops[1..])
  }

  function RunLog(l: Log, channels: nat, capacity: nat, ops: seq<Op>): (e: Log)
    requires l.consumed <= |l.pushed| && channels > 0
    ensures e.consumed <= |e.pushed|
    decreases |ops|
  {
    if ops == [] then l else RunLog(LogStep(l, channels, capacity, ops[0]), channels, capacity, ops[1..])
  }

  /**
   The ring is the newest `capacity` samples pushed and not consumed since, after any operations,
   and hands out exactly what that log would: in order, nothing twice, nothing invented.
   */
  lemma {:induction false} RingRefinesLog(r: Ring, l: Log, ops: seq<Op>)
    requires Valid(r) && Sound(l) && r.buf == Waiting(l, r.capacity)
    ensures RunRing(r, ops).buf == Waiting(RunLog(l, r.channels, r.capacity, ops), r.capacity)
    ensures Outs(r, ops) == LogOuts(l, r.channels, r.capacity, ops)
    decreases |ops|
  {
    if ops != [] {
      match ops[0] {
        case Push(samples) => PushRefinesLog(r, l, samples);
        case Clear =>
        case _ => PopRefinesLog(r, l, ops[0]);
      }
      RingRefinesLog(Apply(r, ops[0]), LogStep(l, r.channels, r.capacity, ops[0]), ops[1..]);
    }
  }

  // ----- conservation -------------------------------------------------------------------------

  /** Totals of a run, in samples. */
  datatype Totals = Totals(pushed: nat, popped: nat, cleared: nat)

  function Counted(t: Totals, r: Ring, o: Op): Totals
    requires Valid(r)
  {
    match o
    case Push(samples) => t.(pushed := t.pushed + |samples|)
    case Clear => t.(cleared := t.cleared + |r.buf|)
    case _ => t.(popped := t.popped + |Out(r, o)|)
  }

  function RunTotals(t: Totals, r: Ring, ops: seq<Op>): Totals
    requires Valid(r)
    decreases |ops|
  {
    if ops == [] then t else RunTotals(Counted(t, r, ops[0]), Apply(r, ops[0]), ops[1..])
  }

  /** Samples pushed that are neither out, cleared, buffered, nor in the overflow counter. */
  function Missing(t: Totals, r: Ring): int {
    t.pushed - t.popped - t.cleared - r.dropped * r.channels - |r.buf|
  }

  /** The part of a push's overflow that is no whole frame, which the counter leaves out. */
  function Uncounted(r: Ring, o: Op): nat
    requires Valid(r)
  {
    if o.Push? && |r.buf| + |o.samples| > r.capacity then (|r.buf| + |o.samples| - r.capacity) % r.channels else 0
  }

  function AllUncounted(r: Ring, ops: seq<Op>): nat
    requires Valid(r)
    decreases |ops|
  {
    if ops == [] then 0 else Uncounted(r, ops[0]) + AllUncounted(Apply(r, ops[0]), ops[1..])
  }

  lemma StepMissing(t: Totals, r: Ring, o: Op)
    requires Valid(r)
    ensures Missing(Counted(t, r, o), Apply(r, o)) == Missing(t, r) + Uncounted(r, o)
  {
    if o.Push? {
      PushMissing(t, r, o.samples);
    }
  }

  lemma PushMissing(t: Totals, r: Ring, samples: seq<Sample>)
    requires Valid(r)
    ensures Missing(t.(pushed := t.pushed + |samples|), Pushed(r, samples))
            == Missing(t, r) + Uncounted(r, Push(samples))
  {
    if |r.buf| + |samples| > r.capacity {
      var lost := |r.buf| + |samples| - r.capacity;
      assert |Pushed(r, samples).buf| == r.capacity;
      WholeAndPart(r.dropped, lost, r.channels);
    } else {
      PushedFits(r, samples);
    }
  }

  lemma WholeAndPart(dropped: nat, lost: nat, channels: nat)
    requires channels > 0
    ensures (dropped + lost / channels) * channels + lost % channels == dropped * channels + lost
  {
  }

  /**
   Conservation for any operations: pushed = popped + cleared + buffered + the overflow counter, but
   for the part frames that overflows cut.
   */
  lemma {:induction false} SamplesAreConserved(t: Totals, r: Ring, ops: seq<Op>)
    requires Valid(r)
    ensures Missing(RunTotals(t, r, ops), RunRing(r, ops)) == Missing(t, r) + AllUncounted(r, ops)
    decreases |ops|
  {
    if ops != [] {
      StepMissing(t, r, ops[0]);
      SamplesAreConserved(Counted(t, r, ops[0]), Apply(r, ops[0]), ops[1..]);
    }
  }

  // ----- alignment ----------------------------------------------------------------------------

  ghost predicate Aligned(r: Ring) {
    Valid(r) && |r.buf| % r.channels == 0
  }

  ghost predicate WholeFrames(channels: nat, ops: seq<Op>)
    requires channels > 0
  {
    forall i :: 0 <= i < |ops| && ops[i].Push? ==> |ops[i].samples| % channels == 0
  }

  lemma MultipleDividesBack(q: int, m: nat)
    requires m > 0
    ensures q * m % m == 0
  {
    var d := q - q * m / m;
    assert d * m == q * m % m;
    AtLeastOneMultiple(d, m);
  }

  lemma AtLeastOneMultiple(d: int, m: nat)
    ensures d >= 1 ==> d * m >= m
    ensures d <= -1 ==> d * m <= 0 - m
  {
    assert d * m - m == (d - 1) * m && d * m + m == (d + 1) * m;
  }

  lemma MultiplesAddAndSubtract(a: nat, b: nat, m: nat)
    requires m > 0 && a % m == 0 && b % m == 0
    ensures (a + b) % m == 0 && (a - b) % m == 0
  {
    assert a + b == (a / m + b / m) * m && a - b == (a / m - b / m) * m;
    MultipleDividesBack(a / m + b / m, m);
    MultipleDividesBack(a / m - b / m, m);
  }

  lemma PushKeepsAligned(r: Ring, samples: seq<Sample>)
    requires Aligned(r) && |samples| % r.channels == 0
    ensures |Pushed(r, samples).buf| % r.channels == 0 && Uncounted(r, Push(samples)) == 0
  {
    var all := |r.buf| + |samples|;
    MultiplesAddAndSubtract(|r.buf|, |samples|, r.channels);
    MultiplesAddAndSubtract(all, r.capacity, r.channels);
    assert |Pushed(r, samples).buf| == if all > r.capacity then r.capacity else all;
  }

  lemma PopKeepsAligned(r: Ring, frames: nat)
    requires Aligned(r)
    ensures |PoppedF32(r, frames).buf| % r.channels == 0 && Taken(r, frames) % r.channels == 0
  {
    MultipleDividesBack(Min(frames, Available(r)), r.channels);
    MultiplesAddAndSubtract(|r.buf|, Taken(r, frames), r.channels);
    assert |PoppedF32(r, frames).buf| == |r.buf| - Taken(r, frames);
  }

  lemma StepKeepsAligned(r: Ring, o: Op)
    requires Aligned(r) && (o.Push? ==> |o.samples| % r.channels == 0)
    ensures Aligned(Apply(r, o)) && Uncounted(r, o) == 0 && |Out(r, o)| % r.channels == 0
  {
    match o
    case Push(samples) => PushKeepsAligned(r, samples);
    case Clear =>
    case _ => PopKeepsAligned(r, o.frames);
  }

  /** While every push is whole frames the ring stays on a frame boundary and nothing goes uncounted. */
  lemma {:induction false} WholeFramePushesStayAligned(r: Ring, ops: seq<Op>)
    requires Aligned(r) && WholeFrames(r.channels, ops)
    ensures Aligned(RunRing(r, ops)) && AllUncounted(r, ops) == 0
    decreases |ops|
  {
    if ops != [] {
      StepKeepsAligned(r, ops[0]);
      WholeFramePushesStayAligned(Apply(r, ops[0]), ops[1..]);
    }
  }

  lemma NewestOfBoth(buf: seq<Sample>, samples: seq<Sample>, capacity: nat)
    requires |buf| <= capacity < |buf| + |samples|
    ensures var excess := |buf| + |samples| - capacity;
            var fromBuf := Min(excess, |buf|);
            buf[fromBuf..] + samples[excess - fromBuf..] == Newest(buf + samples, capacity)
  {
  }

  lemma PushOverflows(r: Ring, samples: seq<Sample>)
    requires Valid(r) && |r.buf| + |samples| > r.capacity
    ensures var excess := |r.buf| + |samples| - r.capacity;
            var fromBuf := Min(excess, |r.buf|);
            Pushed(r, samples) == r.(buf := r.buf[fromBuf..] + samples[excess - fromBuf..],
                                     dropped := r.dropped + excess / r.channels)
  {
    NewestOfBoth(r.buf, samples, r.capacity);
  }

  lemma PushedFits(r: Ring, samples: seq<Sample>)
    requires Valid(r)
    ensures Valid(Pushed(r, samples))
    ensures |r.buf| + |samples| <= r.capacity ==> Pushed(r, samples) == r.(buf := r.buf + samples)
    ensures samples == [] ==> Pushed(r, samples) == r
  {
    assert samples == [] ==> r.buf + samples == r.buf;
    assert r.dropped + 0 / r.channels == r.dropped;
  }

  // ----- the ring as it is updated in place -----------------------------------------------------

  lemma EncodedOneMore(samples: seq<Sample>, i: nat)
    requires i < |samples|
    ensures Encoded(samples[..i + 1]) == Encoded(samples[..i]) + [ToI16(samples[i])]
  {
    assert samples[..i + 1] == samples[..i] + [samples[i]];
  }

  /** The first `n` samples of a deque that lies in memory in two halves. */
  method ReadHalves(first: seq<Sample>, second: seq<Sample>, n: nat) returns (out: seq<int>)
    requires n <= |first| + |second|
    ensures out == Encoded((first + second)[..n])
  {
    ghost var all := first + second;
    out := [];
    var firstTake := Min(n, |first|);
    for i := 0 to firstTake
      invariant out == Encoded(all[..i])
    {
      EncodedOneMore(all, i);
      out := out + [ToI16(first[i])];
    }
    for i := 0 to n - firstTake
      invariant out == Encoded(all[..firstTake + i])
    {
      EncodedOneMore(all, firstTake + i);
      out := out + [ToI16(second[i])];
    }
  }

  class PcmRing {
    const channels: nat
    const capacity: nat
    var buf: seq<Sample>
    var dropped: nat
    var underruns: nat

    function View(): Ring
      reads this
    {
      Ring(channels, capacity, buf, dropped, underruns)
    }

    constructor (ch: nat, capacityFrames: nat)
      ensures Valid(View()) && View() == Ring(if ch == 0 then 1 else ch, capacityFrames * channels, [], 0, 0)
    {
      var atLeastOne := if ch == 0 then 1 else ch;
      MultipleDividesBack(capacityFrames, atLeastOne);
      channels, capacity := atLeastOne, capacityFrames * atLeastOne;
      buf, dropped, underruns := [], 0, 0;
    }

    method Push(samples: seq<Sample>)
      requires Valid(View())
      modifies this
      ensures Valid(View()) && View() == Pushed(old(View()), samples)
    {
      ghost var before := View();
      PushedFits(before, samples);
      if samples == [] {
        return;
      }
      var total := |buf| + |samples|;
      if total > capacity {
        var excess := total - capacity;
        var fromBuf := Min(excess, |buf|);
        PushOverflows(before, samples);
        buf := buf[fromBuf..];
        var keep := samples[excess - fromBuf..];
        dropped := dropped + excess / channels;
        buf := buf + keep;
      } else {
        buf := buf + samples;
      }
    }

    /** `split`: where the deque wraps; its two halves are read one after the other. */
    method Pop16(frames: nat, split: nat) returns (took: nat, out: seq<int>)
      requires Valid(View())
      modifies this
      ensures Valid(View()) && View() == PoppedI16(old(View()), frames)
      ensures out == Encoded(Out(old(View()), Op.PopI16(frames))) && |out| == took * channels <= old(|buf|)
      ensures forall i :: 0 <= i < |out| ==> Nearest(out[i], old(buf)[i])
    {
      out, took := [], Min(frames, |buf| / channels);
      if took == 0 {
        underruns := underruns + 1;
        return;
      }
      var n := took * channels;
      assert n == Taken(View(), frames);
      var cut := Min(split, |buf|);
      assert buf[..cut] + buf[cut..] == buf;
      out := ReadHalves(buf[..cut], buf[cut..], n);
      forall i | 0 <= i < |out|
        ensures Nearest(out[i], buf[i])
      {
        ToI16IsNearest(buf[i]);
      }
      buf := buf[n..];
    }

    method Pop32(frames: nat) returns (took: nat, out: seq<Sample>)
      requires Valid(View())
      modifies this
      ensures Valid(View()) && View() == PoppedF32(old(View()), frames)
      ensures out == Out(old(View()), Op.PopF32(frames)) && |out| == took * channels
    {
      took := Min(frames, |buf| / channels);
      ghost var taken := Taken(View(), frames);
      out, buf := buf[..took * channels], buf[took * channels..];
    }

    method Reset()
      requires Valid(View())
      modifies this
      ensures Valid(View()) && View() == Cleared(old(View()))
    {
      buf := [];
    }
  }
}
