/** The scaling decision of apns2/dispatch.go: streak counters, the sliding-window sums
    and the caps derived from the configured rates.  Rates are exact reals. */
module Decision {
  import opened Words
  import TickTock

  // ---- Derived limits --------------------------------------------------------------

  const SECOND := 1_000_000_000

  /** Poll periods in a sustain period, rounded up, as an unsigned 32-bit count. */
  function MinSustainPollPeriods(minSustain: int, poll: int): u32 {
    if minSustain == 0 then 0
    else if minSustain < 0 || poll <= 0 then TWO32 - 1
    else (minSustain / poll + if minSustain % poll > 0 then 1 else 0) % TWO32
  }

  /** Counts a rate allows in n poll periods; the conversion to an unsigned word must fit. */
  function RateAsCount(minSustain: int, poll: int, rate: real): nat {
    if minSustain <= 0 || poll <= 0 || rate <= 0.0 then 0
    else
      var product := rate * MinSustainPollPeriods(minSustain, poll) as real * poll as real;
      assert product >= 0.0;
      product.Floor / SECOND
  }

  /** Bandwidth is configured in bits and counted in bytes of 8. */
  function BandwidthAsSize(minSustain: int, poll: int, bandwidth: real): nat {
    RateAsCount(minSustain, poll, bandwidth / 8.0)
  }

  /** The adjusted sustain period is the shortest whole number of polls that covers the
      configured one. */
  lemma PollPeriodsCover(minSustain: int, poll: int)
    requires minSustain > 0 && poll > 0 && minSustain <= (TWO32 - 1) * poll
    ensures var n := MinSustainPollPeriods(minSustain, poll);
            n >= 1 && (n - 1) * poll < minSustain <= n * poll
  {
    var q, r := minSustain / poll, minSustain % poll;
    assert minSustain == q * poll + r;
    Neighbours(q, poll);
    CancelFactor(q, TWO32 - 1, poll);
    if r > 0 {
      CancelFactor(q + 1, TWO32 - 1, poll);
      SmallRest(q + 1);
    } else {
      CancelFactor(1, q, poll);
      SmallRest(q);
    }
  }

  /** No sustain period takes no polls, and an invalid one or an invalid poll period as many as
      can be counted. */
  lemma PollPeriodsElse(minSustain: int, poll: int)
    ensures minSustain == 0 ==> MinSustainPollPeriods(minSustain, poll) == 0
    ensures minSustain < 0 || (minSustain != 0 && poll <= 0) ==>
              MinSustainPollPeriods(minSustain, poll) == 0xFFFF_FFFF
  {}

  lemma Neighbours(q: int, poll: int)
    ensures (q + 1) * poll == q * poll + poll && (q - 1) * poll == q * poll - poll
  {}

  lemma SmallRest(x: int)
    requires 0 <= x < TWO32
    ensures x % TWO32 == x
  {}

  lemma CancelFactor(a: int, b: int, c: int)
    requires c > 0
    ensures a * c < b * c + c ==> a <= b
  {
    assert (b + 1) * c == b * c + c;
  }

  lemma FloorDivision(x: real, cnt: nat)
    requires x >= 0.0
    ensures cnt > x.Floor / SECOND <==> cnt as real * SECOND as real > x
  {
    var f := x.Floor;
    assert f as real <= x < f as real + 1.0;
    assert cnt > f / SECOND <==> cnt * SECOND > f;
    assert cnt as real * SECOND as real == (cnt * SECOND) as real;
  }

  /** The rate veto is exact: a window of n polls holds more than the cap precisely when its
      mean rate per second exceeds the configured rate. */
  lemma RateVetoExact(minSustain: int, poll: int, rate: real, cnt: nat)
    requires minSustain > 0 && poll > 0 && rate > 0.0
    requires MinSustainPollPeriods(minSustain, poll) > 0
    ensures var seconds := MinSustainPollPeriods(minSustain, poll) as real * poll as real / SECOND as real;
            seconds > 0.0 && (cnt > RateAsCount(minSustain, poll, rate) <==> cnt as real / seconds > rate)
  {
    var n := MinSustainPollPeriods(minSustain, poll) as real * poll as real;
    assert n > 0.0;
    assert rate * MinSustainPollPeriods(minSustain, poll) as real * poll as real == rate * n;
    FloorDivision(rate * n, cnt);
    MeanAbove(cnt as real, n, rate);
  }

  lemma MeanAbove(cnt: real, n: real, rate: real)
    requires n > 0.0
    ensures var seconds := n / SECOND as real;
            seconds > 0.0 && (cnt / seconds > rate <==> cnt * SECOND as real > rate * n)
  {
    var seconds := n / SECOND as real;
    var mean := cnt / seconds;
    assert mean * seconds == cnt;
    assert mean * n == cnt * SECOND as real;
    assert (mean - rate) * n == mean * n - rate * n;
    if mean > rate {
      assert (mean - rate) * n > 0.0;
    } else {
      assert (rate - mean) * n >= 0.0;
    }
  }

  // ---- Streaks -----------------------------------------------------------------

  datatype Streaks = Streaks(waits: u32, noWaits: u32)

  function Acc(c: Streaks, val: u32): Streaks {
    if val > 0 then Streaks(Add32(c.waits, 1), 0) else Streaks(0, Add32(c.noWaits, 1))
  }

  class WaitCounter {
    var waits: u32
    var noWaits: u32

    constructor ()
      ensures View() == Streaks(0, 0)
    {
      waits, noWaits := 0, 0;
    }

    function View(): Streaks
      reads this
    {
      Streaks(waits, noWaits)
    }

    method Accumulate(val: u32)
      modifies this
      ensures View() == Acc(old(View()), val)
    {
      if val > 0 {
        waits := Add32(waits, 1);
        noWaits := 0;
      } else {
        waits := 0;
        noWaits := Add32(noWaits, 1);
      }
    }
  }

  function Counted(hist: seq<u32>): Streaks {
    if hist == [] then Streaks(0, 0) else Acc(Counted(hist[..|hist| - 1]), hist[|hist| - 1])
  }

  /** The samples at the end of the history that all show waits, or all show none. */
  function Streak(hist: seq<u32>, waits: bool): nat {
    if hist == [] || (hist[|hist| - 1] > 0) != waits then 0 else 1 + Streak(hist[..|hist| - 1], waits)
  }

  /** The last k samples exist and all show waits, or all show none. */
  predicate Sustained(hist: seq<u32>, waits: bool, k: nat) {
    k <= |hist| && forall i :: |hist| - k <= i < |hist| ==> (hist[i] > 0) == waits
  }

  lemma {:induction false} StreakIsSustained(hist: seq<u32>, waits: bool, k: nat)
    ensures Streak(hist, waits) >= k <==> Sustained(hist, waits, k)
    ensures Streak(hist, waits) <= |hist|
  {
    if hist != [] {
      var front := hist[..|hist| - 1];
      if k > 0 {
        StreakIsSustained(front, waits, k - 1);
        if Sustained(hist, waits, k) {
          assert Sustained(front, waits, k - 1);
        }
      } else {
        StreakIsSustained(front, waits, 0);
      }
    }
  }

  /** The counters are the streaks modulo 2^32. */
  lemma {:induction false} CountersWrap(hist: seq<u32>)
    ensures Counted(hist).waits == Streak(hist, true) % TWO32
    ensures Counted(hist).noWaits == Streak(hist, false) % TWO32
  {
    if hist != [] {
      CountersWrap(hist[..|hist| - 1]);
    }
  }

  /** The counter test agrees with the streak exactly while the streak's 32-bit count has
      not wrapped below the threshold. */
  lemma CounterAgreesIff(hist: seq<u32>, m: u32)
    ensures (Counted(hist).waits >= m <==> Sustained(hist, true, m))
       <==> (Streak(hist, true) < TWO32 || Streak(hist, true) % TWO32 >= m)
    ensures (Counted(hist).noWaits >= m <==> Sustained(hist, false, m))
       <==> (Streak(hist, false) < TWO32 || Streak(hist, false) % TWO32 >= m)
  {
    CountersWrap(hist);
    StreakIsSustained(hist, true, m);
    StreakIsSustained(hist, false, m);
  }

  /** A submit that stays blocked over k consecutive polls leaves the inbound wait counter
      at least k: each fold sees its unmatched tick. */
  lemma SustainedBlockage(tr: seq<TickTock.Step>, more: seq<TickTock.Step>, id: nat)
    requires TickTock.Proper(tr + more) && TickTock.Fits(tr + more)
    requires id in TickTock.Begun(tr) && id !in TickTock.Over(tr + more)
    requires |TickTock.Folds(tr + more)| < TWO32
    ensures |TickTock.Folds(tr)| <= |TickTock.Folds(tr + more)|
    ensures Counted(TickTock.Folds(tr + more)).waits >= |TickTock.Folds(tr + more)| - |TickTock.Folds(tr)|
  {
    TickTock.BlockedWaitIsSeen(tr, more, id);
    var hist := TickTock.Folds(tr + more);
    var k := |hist| - |TickTock.Folds(tr)|;
    assert Sustained(hist, true, k);
    StreakIsSustained(hist, true, k);
    CountersWrap(hist);
  }

  // ---- The sliding window --------------------------------------------------------

  function Zeros(n: nat): seq<u64> {
    seq(n, _ => 0)
  }

  /** The last n values, with zeros before the first. */
  function Window(hist: seq<u64>, n: nat): (w: seq<u64>)
    ensures |w| == n
  {
    (Zeros(n) + hist)[|hist|..]
  }

  function Sum(s: seq<u64>): nat {
    if s == [] then 0 else s[0] + Sum(s[1..])
  }

  lemma {:induction false} SumAppend(s: seq<u64>, v: u64)
    ensures Sum(s + [v]) == Sum(s) + v
  {
    if s == [] {
      assert [] + [v] == [v];
      assert Sum([v]) == v + Sum([v][1..]);
    } else {
      assert (s + [v])[1..] == s[1..] + [v];
      SumAppend(s[1..], v);
    }
  }

  lemma {:induction false} SumZeros(n: nat)
    ensures Sum(Zeros(n)) == 0
  {
    if n > 0 {
      assert Zeros(n)[1..] == Zeros(n - 1);
      SumZeros(n - 1);
    }
  }

  /** A window holds the last n values, the newest at its end, and zeros for what there was not. */
  lemma WindowRead(hist: seq<u64>, n: nat, i: nat)
    requires i < n
    ensures Window(hist, n)[n - 1 - i] == if i < |hist| then hist[|hist| - 1 - i] else 0
  {}

  lemma WindowSlides(hist: seq<u64>, n: nat, v: u64)
    requires n > 0
    ensures Window(hist + [v], n) == Window(hist, n)[1..] + [v]
    ensures Sum(Window(hist + [v], n)) == Sum(Window(hist, n)) - Window(hist, n)[0] + v
  {
    assert Zeros(n) + (hist + [v]) == (Zeros(n) + hist) + [v];
    assert Window(hist + [v], n) == Window(hist, n)[1..] + [v];
    SumAppend(Window(hist, n)[1..], v);
  }

  lemma WrappedSlide(sum: int, sum': int, old0: u64, v: u64)
    requires sum' == sum - old0 + v
    ensures Add64(sum % TWO64, Sub64(v, old0)) == sum' % TWO64
  {}

  function NextPos(pos: nat, n: nat): nat {
    if pos + 1 == n then 0 else pos + 1
  }

  lemma NextPosIsMod(pos: nat, n: nat)
    requires pos < n
    ensures (pos + 1) % n == NextPos(pos, n)
  {}

  /** One turn of a ring read from its cursor on. */
  lemma RingTurns(ring: seq<u64>, pos: nat, w: seq<u64>, v: u64)
    requires pos < |ring| && ring[pos..] + ring[..pos] == w
    ensures w != [] && ring[pos] == w[0]
    ensures var ring', pos' := ring[pos := v], NextPos(pos, |ring|);
            ring'[pos'..] + ring'[..pos'] == w[1..] + [v]
  {
    var ring' := ring[pos := v];
    assert w[1..] == ring[pos + 1..] + ring[..pos];
    assert ring'[pos + 1..] == ring[pos + 1..];
    assert ring'[..pos + 1] == ring[..pos] + [v];
    assert ring'[pos + 1..] + ring'[..pos + 1] == w[1..] + [v];
  }

  /** The ring of samples; the history is the specification's view of it. */
  class MovingAcc {
    const samples: array<u64>
    var sum: u64
    var pos: nat
    ghost var history: seq<u64>

    ghost predicate Valid()
      reads this, samples
    {
      && pos < samples.Length
      && samples[pos..] + samples[..pos] == Window(history, samples.Length)
      && sum == Sum(Window(history, samples.Length)) % TWO64
    }

    constructor (windowSize: nat)
      requires windowSize > 0
      ensures Valid() && history == [] && fresh(samples) && samples.Length == windowSize
    {
      samples := new u64[windowSize](_ => 0);
      sum, pos := 0, 0;
      history := [];
      new;
      assert samples[..] == Zeros(windowSize) == Window([], windowSize);
      SumZeros(windowSize);
    }

    /** Takes the value that leaves the window off the sum, wrapping, and adds the new one. */
    method Accumulate(v: u64) returns (r: u64)
      requires Valid()
      modifies this, samples
      ensures Valid() && history == old(history) + [v]
      ensures r == Sum(Window(history, samples.Length)) % TWO64
    {
      ghost var n := samples.Length;
      WindowSlides(history, n, v);
      RingTurns(samples[..], pos, Window(history, n), v);
      NextPosIsMod(pos, n);
      WrappedSlide(Sum(Window(history, n)), Sum(Window(history + [v], n)), samples[pos], v);
      sum := Add64(sum, Sub64(v, samples[pos]));
      samples[pos] := v;
      assert samples[..] == old(samples[..])[pos := v];
      pos := (pos + 1) % samples.Length;
      history := history + [v];
      r := sum;
    }
  }
}
