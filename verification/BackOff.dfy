/** The dial back-off tracker of apns2/backoff.go.  Durations are signed 64-bit
    nanosecond counts and the clock is an integer. */
module BackOff {
  import opened Words

  datatype Tracker = Tracker(initial: int, max: int, jitter: real, current: int, end: int)

  /** One call of update: the status, the clock and the random jitter drawn. */
  datatype Status = Status(failed: bool, now: int, jtr: int)

  /** An update before the end of the blackout is ignored. */
  predicate Counted(t: Tracker, now: int) {
    now > t.end
  }

  function Current(t: Tracker): int {
    if t.current == 0 then t.initial else t.current
  }

  /** The exclusive bound handed to the random generator. */
  function JitterBound(t: Tracker): int {
    Bound(Current(t), t.jitter)
  }

  function Bound(c: int, jitter: real): int {
    (c as real * jitter).Floor
  }

  /** The random generator panics on a bound that is not positive. */
  predicate Panics(t: Tracker, failed: bool, now: int) {
    failed && Counted(t, now) && t.jitter > 0.0 && JitterBound(t) <= 0
  }

  predicate JitterDrawn(t: Tracker, jtr: int) {
    t.jitter > 0.0 ==> 0 <= jtr < JitterBound(t)
  }

  /** The generator is only asked when a failure counts. */
  predicate Drawable(t: Tracker, failed: bool, now: int, jtr: int) {
    failed && Counted(t, now) && !Panics(t, failed, now) ==> JitterDrawn(t, jtr)
  }

  function Capped(max: int, d: int): int {
    if max > 0 && d > max then max else d
  }

  function Delay(t: Tracker, jtr: int): int {
    Capped(t.max, if t.jitter > 0.0 then Signed64(Current(t) + jtr) else Current(t))
  }

  function Updated(t: Tracker, s: Status): Tracker {
    if !Counted(t, s.now) then t
    else if s.failed then
      t.(end := s.now + Delay(t, s.jtr), current := Capped(t.max, Signed64(2 * Current(t))))
    else t.(current := t.initial)
  }

  /** The tracker as the source keeps it. */
  class BackOffTracker {
    var initial: int
    var max: int
    var jitter: real
    var current: int
    var end: int

    constructor ()
      ensures View() == Tracker(0, 0, 0.0, 0, 0)
    {
      initial, max, jitter, current, end := 0, 0, 0.0, 0, 0;
    }

    function View(): Tracker
      reads this
    {
      Tracker(initial, max, jitter, current, end)
    }

    /** A panic leaves only the first assignment to current behind. */
    method Update(failed: bool, now: int, jtr: int) returns (panicked: bool)
      requires Drawable(View(), failed, now, jtr)
      modifies this
      ensures panicked == Panics(old(View()), failed, now)
      ensures !panicked ==> View() == Updated(old(View()), Status(failed, now, jtr))
      ensures panicked ==> View() == old(View()).(current := Current(old(View())))
    {
      panicked := false;
      if failed {
        if now > end {
          if current == 0 {
            current := initial;
          }
          var d := current;
          if jitter > 0.0 {
            if (d as real * jitter).Floor <= 0 {
              return true;
            }
            d := Signed64(d + jtr);
          }
          if max > 0 && d > max {
            d := max;
          }
          end := now + d;
          current := Signed64(current * 2);
          if max > 0 && current > max {
            current := max;
          }
        }
      } else {
        if now > end {
          current := initial;
        }
      }
    }
  }

  // ---- Runs ------------------------------------------------------------

  /** A configuration whose doubled delays fit the 64-bit duration type. */
  predicate Fits(t: Tracker) {
    0 < t.initial <= t.max < TWO63 / 2
  }

  /** The jitter is one the random generator can draw, and adding it does not wrap. */
  predicate FitsDraw(t: Tracker, jtr: int) {
    JitterDrawn(t, jtr) && (t.jitter > 0.0 ==> Current(t) + jtr < TWO63)
  }

  /** The jitter that a counted failure adds to its delay. */
  function Drew(u: Tracker, s: Status): int {
    if u.jitter > 0.0 then s.jtr else 0
  }

  predicate Reset(t: Tracker) {
    t.current == 0 || t.initial <= t.current <= t.max
  }

  function Run(t: Tracker, ss: seq<Status>): Tracker {
    if ss == [] then t else Updated(Run(t, ss[..|ss| - 1]), ss[|ss| - 1])
  }

  /** No draw panics, and every delay fits. */
  predicate Drawn(t: Tracker, ss: seq<Status>) {
    ss != [] ==>
      var u := Run(t, ss[..|ss| - 1]);
      var s := ss[|ss| - 1];
      Drawn(t, ss[..|ss| - 1]) && !Panics(u, s.failed, s.now) && FitsDraw(u, s.jtr)
  }

  /** The times of the counted failures since the last counted success. */
  function Failures(t: Tracker, ss: seq<Status>): seq<int> {
    if ss == [] then []
    else
      var before := Failures(t, ss[..|ss| - 1]);
      var s := ss[|ss| - 1];
      if !Counted(Run(t, ss[..|ss| - 1]), s.now) then before
      else if s.failed then before + [s.now]
      else []
  }

  /** The initial delay doubled i times. */
  function Doubled(initial: int, i: nat): int {
    if i == 0 then initial else 2 * Doubled(initial, i - 1)
  }

  /** The delay promised after i failures in a row. */
  function Promised(t: Tracker, i: nat): int {
    Min(Doubled(t.initial, i), t.max)
  }

  function TotalPromised(t: Tracker, n: nat): int {
    if n == 0 then 0 else TotalPromised(t, n - 1) + Promised(t, n - 1)
  }

  lemma {:induction false} PromisedGrows(t: Tracker, i: nat, j: nat)
    requires Fits(t) && i <= j
    ensures 0 < Doubled(t.initial, i) <= Doubled(t.initial, j)
    ensures Promised(t, i) <= Promised(t, j)
  {
    if i < j {
      PromisedGrows(t, i, j - 1);
    } else if i > 0 {
      PromisedGrows(t, i - 1, i - 1);
    }
  }

  /** Jitter that stays small enough for the configured maximum never wraps. */
  lemma ConfiguredDrawFits(t: Tracker, jtr: int)
    requires Fits(t) && Reset(t) && t.jitter > 0.0 && JitterDrawn(t, jtr)
    requires t.max as real * (1.0 + t.jitter) <= TWO63 as real
    ensures FitsDraw(t, jtr)
  {
    var b := Current(t) as real;
    assert b * t.jitter <= t.max as real * t.jitter;
    assert t.max as real * (1.0 + t.jitter) == t.max as real + t.max as real * t.jitter;
  }

  lemma NoWrap(x: int)
    requires -TWO63 <= x < TWO63
    ensures Signed64(x) == x
  {}

  /** One update in full, for any tracker, as long as nothing wraps: an update during the blackout
      is ignored, a success returns the delay to the initial one, and a failure starts a blackout
      of the delay and the jitter drawn, and doubles the delay, both up to the maximum if there
      is one. */
  lemma UpdateExact(u: Tracker, s: Status)
    ensures s.now <= u.end ==> Updated(u, s) == u
    ensures s.now > u.end && !s.failed ==> Updated(u, s) == u.(current := u.initial)
    ensures var c := if u.current == 0 then u.initial else u.current;
            var d := if u.jitter > 0.0 then c + s.jtr else c;
            s.now > u.end && s.failed ==>
              -TWO63 <= d < TWO63 && -TWO63 <= 2 * c < TWO63 ==>
                Updated(u, s) == u.(end := s.now + (if u.max > 0 && u.max < d then u.max else d),
                                    current := if u.max > 0 && u.max < 2 * c then u.max else 2 * c)
  {
    if -TWO63 <= 2 * Current(u) < TWO63 {
      NoWrap(2 * Current(u));
    }
    if -TWO63 <= Current(u) + s.jtr < TWO63 {
      NoWrap(Current(u) + s.jtr);
    }
  }

  /** An update panics exactly when a failure counts, there is jitter, and delay times jitter is
      less than one. */
  lemma PanicsExact(u: Tracker, failed: bool, now: int, c: int)
    requires c == if u.current == 0 then u.initial else u.current
    ensures Panics(u, failed, now) <==> failed && now > u.end && u.jitter > 0.0 && c as real * u.jitter < 1.0
  {
    BoundBelowOne(c, u.jitter);
  }

  lemma BoundBelowOne(c: int, jitter: real)
    ensures Bound(c, jitter) <= 0 <==> c as real * jitter < 1.0
  {
    BelowOne(c as real * jitter);
  }

  lemma BelowOne(x: real)
    ensures x.Floor <= 0 <==> x < 1.0
  {}

  /** What one update does when nothing wraps. */
  lemma UpdatedStep(u: Tracker, s: Status)
    requires Fits(u) && Reset(u) && FitsDraw(u, s.jtr)
    ensures var v := Updated(u, s);
            && v == u.(current := v.current, end := v.end) && Fits(v) && Reset(v)
            && (s.now <= u.end ==> v == u)
            && (s.now > u.end && !s.failed ==> v.current == u.initial && v.end == u.end)
            && (s.now > u.end && s.failed ==>
                  && v.current == Min(2 * Current(u), u.max)
                  && v.end == s.now + Min(Current(u) + Drew(u, s), u.max))
  {
    NoWrap(2 * Current(u));
    if u.jitter > 0.0 {
      NoWrap(Current(u) + s.jtr);
    }
  }

  lemma {:induction false} RunKeepsConfig(t: Tracker, ss: seq<Status>)
    requires Fits(t) && Reset(t) && Drawn(t, ss)
    ensures var u := Run(t, ss);
            u == t.(current := u.current, end := u.end) && Fits(u) && Reset(u)
  {
    if ss != [] {
      var ss' := ss[..|ss| - 1];
      RunKeepsConfig(t, ss');
      UpdatedStep(Run(t, ss'), ss[|ss| - 1]);
    }
  }

  /** The state of a streak of counted failures fs, in a tracker configured as t. */
  predicate Spaced(t: Tracker, u: Tracker, fs: seq<int>) {
    && u.initial == t.initial && u.max == t.max
    && (fs != [] ==> u.current >= Promised(t, |fs|) && u.end >= fs[|fs| - 1] + Promised(t, |fs| - 1))
    && forall i :: 0 <= i < |fs| - 1 ==> fs[i + 1] > fs[i] + Promised(t, i)
  }

  lemma SpacedStep(t: Tracker, u: Tracker, v: Tracker, fs: seq<int>, now: int)
    requires 0 < t.initial <= t.max && Reset(u) && Spaced(t, u, fs) && now > u.end
    requires v.initial == u.initial && v.max == u.max
    requires v.current == Min(2 * Current(u), u.max) && now + Current(u) <= v.end
    ensures Spaced(t, v, fs + [now])
  {
    assert Current(u) >= Promised(t, |fs|);
  }

  /** Consecutive counted failures are spaced by the promised delays. */
  lemma {:induction false} FailuresSpaced(t: Tracker, ss: seq<Status>)
    requires Fits(t) && Reset(t) && Drawn(t, ss)
    ensures Spaced(t, Run(t, ss), Failures(t, ss))
  {
    if ss != [] {
      var ss' := ss[..|ss| - 1];
      var s := ss[|ss| - 1];
      FailuresSpaced(t, ss');
      RunKeepsConfig(t, ss');
      var u := Run(t, ss');
      UpdatedStep(u, s);
      if Counted(u, s.now) && s.failed {
        SpacedStep(t, u, Updated(u, s), Failures(t, ss'), s.now);
      }
    }
  }

  /** What the last counted failure of the streak added to its delay. */
  function LastDrew(t: Tracker, ss: seq<Status>): int {
    if ss == [] then 0
    else if !Counted(Run(t, ss[..|ss| - 1]), ss[|ss| - 1].now) then LastDrew(t, ss[..|ss| - 1])
    else Drew(t, ss[|ss| - 1])
  }

  /** The back-off is exactly exponential: after any run the next delay is the one promised for
      the length of the streak of counted failures, and the blackout ends when the one promised
      for its last failure has passed, with the jitter drawn for it, but never more than the
      maximum. */
  lemma {:induction false} StreakExact(t: Tracker, ss: seq<Status>)
    requires Fits(t) && (t.current == 0 || t.current == t.initial) && Drawn(t, ss)
    ensures var u, fs := Run(t, ss), Failures(t, ss);
            && Current(u) == Promised(t, |fs|)
            && (fs != [] ==> u.end == fs[|fs| - 1] + Min(Promised(t, |fs| - 1) + LastDrew(t, ss), t.max))
  {
    if ss != [] {
      var ss' := ss[..|ss| - 1];
      StreakExact(t, ss');
      RunKeepsConfig(t, ss');
      UpdatedStep(Run(t, ss'), ss[|ss| - 1]);
      PromisedDoubles(t, |Failures(t, ss')|);
    }
  }

  lemma PromisedDoubles(t: Tracker, i: nat)
    requires Fits(t)
    ensures Min(2 * Promised(t, i), t.max) == Promised(t, i + 1)
  {
    PromisedGrows(t, i, i);
  }

  /** The jitter drawn is any whole number from 0 up that leaves a whole one below delay times
      jitter. */
  lemma DrawsWholeRange(u: Tracker, jtr: int)
    requires u.jitter > 0.0
    ensures JitterDrawn(u, jtr) <==> 0 <= jtr && (jtr + 1) as real <= Current(u) as real * u.jitter
  {}

  /** Any n counted failures in a row span more than the promised delays between them. */
  lemma {:induction false} BackOffSpacing(t: Tracker, ss: seq<Status>, j: nat, n: nat)
    requires Fits(t) && Reset(t) && Drawn(t, ss)
    requires n >= 2 && j + n <= |Failures(t, ss)|
    ensures Failures(t, ss)[j + n - 1] - Failures(t, ss)[j] > TotalPromised(t, n - 1)
  {
    FailuresSpaced(t, ss);
    PromisedGrows(t, n - 2, j + n - 2);
    var fs := Failures(t, ss);
    assert fs[j + n - 2 + 1] > fs[j + n - 2] + Promised(t, j + n - 2);
    if n > 2 {
      BackOffSpacing(t, ss, j, n - 1);
    } else {
      assert TotalPromised(t, 0) == 0;
    }
  }

  /** During a blackout nothing changes, and the blackout never ends earlier than it did. */
  lemma BlackoutOnlyExtends(t: Tracker, ss: seq<Status>, s: Status)
    requires Fits(t) && Reset(t) && Drawn(t, ss + [s])
    ensures s.now <= Run(t, ss).end ==> Run(t, ss + [s]) == Run(t, ss)
    ensures Run(t, ss + [s]).end >= Run(t, ss).end
    ensures s.failed && s.now > Run(t, ss).end ==> s.now + t.initial <= Run(t, ss + [s]).end <= s.now + t.max
  {
    assert (ss + [s])[..|ss|] == ss;
    RunKeepsConfig(t, ss);
    UpdatedStep(Run(t, ss), s);
  }

  /** A counted failure keeps or lengthens the next delay exactly when doubling does not wrap. */
  lemma DelayGrowsIff(u: Tracker, s: Status)
    requires s.failed && Counted(u, s.now)
    requires 0 < Current(u) < TWO63 && (u.max > 0 ==> Current(u) <= u.max)
    ensures Updated(u, s).current >= Current(u) <==> 2 * Current(u) < TWO63
    ensures 2 * Current(u) >= TWO63 ==> Updated(u, s).current < 0
  {
    assert 2 * Current(u) >= TWO63 ==> Signed64(2 * Current(u)) == 2 * Current(u) - TWO64;
  }

  /** Without a maximum the doubling wraps: the third failure in a row moves the blackout end back. */
  lemma UncappedDelayWraps()
    ensures var t := Tracker(TWO63 / 4, 0, 0.0, 0, 0);
            var u1 := Updated(t, Status(true, 1, 0));
            var u2 := Updated(u1, Status(true, TWO63, 0));
            var u3 := Updated(u2, Status(true, 2 * TWO63, 0));
            Counted(u2, 2 * TWO63) && u3.end < u2.end
  {
    var t := Tracker(TWO63 / 4, 0, 0.0, 0, 0);
    var u1 := Updated(t, Status(true, 1, 0));
    assert u1 == t.(current := TWO63 / 2, end := 1 + TWO63 / 4);
    var u2 := Updated(u1, Status(true, TWO63, 0));
    assert Signed64(TWO63) == -TWO63;
    assert u2 == t.(current := -TWO63, end := TWO63 + TWO63 / 2);
  }

  // ---- When the blackout end can move back, and when an update panics ----------------------

  const HALF := TWO63 / 2

  /** A tracker that has seen nothing yet. */
  predicate New(t: Tracker) {
    t.current == 0 && 0 < t.initial < TWO63 && t.max < TWO63
  }

  /** The update does not panic, and the generator can draw this jitter. */
  predicate Allowed(u: Tracker, s: Status) {
    !Panics(u, s.failed, s.now) && Drawable(u, s.failed, s.now, s.jtr)
  }

  predicate Possible(t: Tracker, ss: seq<Status>) {
    ss != [] ==> Possible(t, ss[..|ss| - 1]) && Allowed(Run(t, ss[..|ss| - 1]), ss[|ss| - 1])
  }

  /** Some update at the end of some run moves the end of the blackout back. */
  ghost predicate CanMoveBack(t: Tracker) {
    exists ss, s :: MovesBack(t, ss, s)
  }

  predicate MovesBack(t: Tracker, ss: seq<Status>, s: Status) {
    Possible(t, ss) && Allowed(Run(t, ss), s) && Updated(Run(t, ss), s).end < Run(t, ss).end
  }

  /** Some run ends in a panic. */
  ghost predicate CanPanic(t: Tracker) {
    exists ss, s :: EndsInPanic(t, ss, s)
  }

  predicate EndsInPanic(t: Tracker, ss: seq<Status>, s: Status) {
    Possible(t, ss) && Panics(Run(t, ss), s.failed, s.now)
  }

  /** Doubling the delay can leave the signed word. */
  predicate CanWrap(t: Tracker) {
    t.max <= 0 || t.max >= HALF || t.initial >= HALF
  }

  function FailsNext(u: Tracker, jtr: int): Status {
    Status(true, u.end + 1, jtr)
  }

  predicate SameConfig(t: Tracker, u: Tracker) {
    u == t.(current := u.current, end := u.end)
  }

  lemma RunAppend(t: Tracker, ss: seq<Status>, s: Status)
    ensures Run(t, ss + [s]) == Updated(Run(t, ss), s)
    ensures Possible(t, ss + [s]) <==> Possible(t, ss) && Allowed(Run(t, ss), s)
  {
    assert (ss + [s])[..|ss|] == ss;
  }

  lemma {:induction false} AlwaysPossible(t: Tracker, ss: seq<Status>)
    requires t.jitter <= 0.0
    ensures Possible(t, ss) && SameConfig(t, Run(t, ss))
  {
    if ss != [] {
      AlwaysPossible(t, ss[..|ss| - 1]);
    }
  }

  /** A failure that counts doubles the delay, to a negative one if the doubled delay wraps. */
  lemma FailureDoubles(t: Tracker, u: Tracker, jtr: int)
    requires New(t) && SameConfig(t, u) && 0 < Current(u) < TWO63
    ensures var v := Updated(u, FailsNext(u, jtr));
            && SameConfig(t, v)
            && (Current(u) >= HALF ==> v.current == 2 * Current(u) - TWO64)
            && (Current(u) < HALF ==> v.current == Capped(t.max, 2 * Current(u)))
  {
    if Current(u) >= HALF {
      assert Signed64(2 * Current(u)) == 2 * Current(u) - TWO64;
    } else {
      NoWrap(2 * Current(u));
    }
  }

  // The longest delay that failures in a row lead to

  function Top(c: int, max: int): int
    requires 0 < c < TWO63
    decreases TWO63 - c
  {
    if c >= HALF || Capped(max, 2 * c) <= c then c else Top(Capped(max, 2 * c), max)
  }

  lemma {:induction false} TopBounds(c: int, max: int)
    requires 0 < c < TWO63
    ensures c <= Top(c, max) < TWO63
    ensures max > 0 ==> Top(c, max) <= Max(c, max)
    ensures max <= 0 || max >= HALF || c >= HALF ==> Top(c, max) >= HALF
    decreases TWO63 - c
  {
    if c < HALF && Capped(max, 2 * c) > c {
      TopBounds(Capped(max, 2 * c), max);
    }
  }

  /** Doubling never passes the longest delay. */
  lemma TopOfNext(c: int, max: int)
    requires 0 < c < HALF && max < TWO63
    ensures 0 < Capped(max, 2 * c) < TWO63 && Top(Capped(max, 2 * c), max) <= Top(c, max)
  {
    if Capped(max, 2 * c) <= c {
      TopBounds(Capped(max, 2 * c), max);
    }
  }

  lemma BoundGrows(c: int, d: int, jitter: real)
    requires c <= d && jitter > 0.0
    ensures Bound(c, jitter) <= Bound(d, jitter)
  {
    assert (d - c) as real * jitter >= 0.0;
    assert d as real * jitter == c as real * jitter + (d - c) as real * jitter;
  }

  lemma NegativeBound(c: int, jitter: real)
    requires c < 0 && jitter > 0.0
    ensures Bound(c, jitter) < 0
  {
    assert c as real * jitter < 0.0;
  }

  // With jitter: what every run keeps

  /** Delays stay within the longest one; a first bound of zero lets no failure count. */
  predicate Kept(t: Tracker, u: Tracker) {
    && SameConfig(t, u) && New(t) && u.current < TWO63
    && (u.current > 0 ==> Top(u.current, t.max) <= Top(t.initial, t.max))
    && (Bound(t.initial, t.jitter) <= 0 ==> u.current == 0 || u.current == t.initial)
  }

  lemma KeptStep(t: Tracker, u: Tracker, s: Status)
    requires New(t) && t.jitter > 0.0 && Kept(t, u) && Allowed(u, s)
    ensures Kept(t, Updated(u, s))
  {
    if s.failed && Counted(u, s.now) {
      PositiveWhenAllowed(u, s);
      var c := Current(u);
      if c >= HALF {
        assert Signed64(2 * c) == 2 * c - TWO64;
      } else {
        NoWrap(2 * c);
        TopOfNext(c, t.max);
      }
    }
  }

  lemma PositiveWhenAllowed(u: Tracker, s: Status)
    requires u.jitter > 0.0 && s.failed && Counted(u, s.now) && Allowed(u, s)
    ensures Current(u) > 0 && Bound(Current(u), u.jitter) >= 1 && 0 <= s.jtr < Bound(Current(u), u.jitter)
  {
    if Current(u) < 0 {
      NegativeBound(Current(u), u.jitter);
    }
  }

  lemma {:induction false} KeptRun(t: Tracker, ss: seq<Status>)
    requires New(t) && t.jitter > 0.0 && Possible(t, ss)
    ensures Kept(t, Run(t, ss))
  {
    if ss != [] {
      KeptRun(t, ss[..|ss| - 1]);
      KeptStep(t, Run(t, ss[..|ss| - 1]), ss[|ss| - 1]);
    }
  }

  /** The longest delay and the largest jitter for it reach past the signed word. */
  predicate JitterWraps(t: Tracker)
    requires New(t)
  {
    && Bound(t.initial, t.jitter) >= 1
    && Top(t.initial, t.max) + Bound(Top(t.initial, t.max), t.jitter) > TWO63
  }

  lemma MovingBackWraps(t: Tracker, u: Tracker, s: Status)
    requires New(t) && t.jitter > 0.0 && Kept(t, u) && Allowed(u, s) && Updated(u, s).end < u.end
    ensures JitterWraps(t)
  {
    PositiveWhenAllowed(u, s);
    var c, top := Current(u), Top(t.initial, t.max);
    TopBounds(c, t.max);
    if c + s.jtr < TWO63 {
      NoWrap(c + s.jtr);
    }
    BoundGrows(c, top, t.jitter);
  }

  // With jitter: failure after failure

  /** A possible run to state u. */
  predicate Reaches(t: Tracker, ss: seq<Status>, u: Tracker) {
    Possible(t, ss) && Run(t, ss) == u && SameConfig(t, u)
  }

  lemma MayFail(u: Tracker, s: Status, b: int)
    requires b == JitterBound(u) && 0 <= s.jtr < b
    ensures Allowed(u, s)
  {}

  /** One more failure, without drawing jitter. */
  lemma FailsOnce(t: Tracker, ss: seq<Status>, u: Tracker) returns (more: seq<Status>, v: Tracker)
    requires New(t) && Reaches(t, ss, u) && 0 < Current(u) < TWO63 && JitterBound(u) >= 1
    ensures Reaches(t, more, v)
    ensures Current(u) >= HALF ==> v.current == 2 * Current(u) - TWO64
    ensures Current(u) < HALF ==> v.current == Capped(t.max, 2 * Current(u))
  {
    FailureDoubles(t, u, 0);
    MayFail(u, FailsNext(u, 0), JitterBound(u));
    RunAppend(t, ss, FailsNext(u, 0));
    more, v := ss + [FailsNext(u, 0)], Updated(u, FailsNext(u, 0));
  }

  lemma LongerBound(t: Tracker, u: Tracker)
    requires t.jitter > 0.0 && SameConfig(t, u) && t.initial <= Current(u) && Bound(t.initial, t.jitter) >= 1
    ensures JitterBound(u) >= 1
  {
    BoundGrows(t.initial, Current(u), t.jitter);
  }

  /** A run of failures, each as soon as it counts and without drawing jitter, to the longest delay. */
  lemma {:induction false} Climbs(t: Tracker, ss: seq<Status>, u: Tracker) returns (more: seq<Status>, v: Tracker)
    requires New(t) && t.jitter > 0.0 && Bound(t.initial, t.jitter) >= 1
    requires Reaches(t, ss, u) && t.initial <= Current(u) < TWO63
    ensures Reaches(t, more, v) && Current(v) == Top(Current(u), t.max) && t.initial <= Current(v) < TWO63
    decreases TWO63 - Current(u)
  {
    more, v := ss, u;
    if Current(u) < HALF && Capped(t.max, 2 * Current(u)) > Current(u) {
      LongerBound(t, u);
      var ss1, u1 := FailsOnce(t, ss, u);
      more, v := Climbs(t, ss1, u1);
    }
  }

  /** The most jitter there can be wraps the delay to the most negative one. */
  lemma MostJitter(u: Tracker, s: Status)
    requires 0 < Current(u) < TWO63 && u.jitter > 0.0 && s == FailsNext(u, TWO63 - Current(u))
    ensures Updated(u, s).end < u.end
  {
    assert Signed64(TWO63) == -TWO63;
  }

  lemma WrappingJitter(t: Tracker) returns (ss: seq<Status>, s: Status)
    requires New(t) && t.jitter > 0.0 && JitterWraps(t)
    ensures MovesBack(t, ss, s)
  {
    var u;
    ss, u := Climbs(t, [], t);
    s := FailsNext(u, TWO63 - Current(u));
    MayFail(u, s, JitterBound(u));
    MostJitter(u, s);
  }

  // Without jitter

  lemma TameStep(t: Tracker, u: Tracker, s: Status)
    requires New(t) && t.jitter <= 0.0 && !CanWrap(t) && SameConfig(t, u) && 0 <= u.current < HALF
    ensures var v := Updated(u, s); SameConfig(t, v) && 0 <= v.current < HALF && v.end >= u.end
  {
    NoWrap(2 * Current(u));
  }

  lemma {:induction false} TameRun(t: Tracker, ss: seq<Status>)
    requires New(t) && t.jitter <= 0.0 && !CanWrap(t)
    ensures SameConfig(t, Run(t, ss)) && 0 <= Run(t, ss).current < HALF
  {
    if ss != [] {
      TameRun(t, ss[..|ss| - 1]);
      TameStep(t, Run(t, ss[..|ss| - 1]), ss[|ss| - 1]);
    }
  }

  /** Failure after failure, each as soon as it counts, doubles the delay until it wraps. */
  lemma {:induction false} FailsUntilWrapped(t: Tracker, ss: seq<Status>) returns (more: seq<Status>)
    requires New(t) && t.jitter <= 0.0 && SameConfig(t, Run(t, ss)) && 0 < Current(Run(t, ss)) < TWO63
    requires t.max <= 0 || t.max >= HALF || Current(Run(t, ss)) >= HALF
    ensures SameConfig(t, Run(t, more)) && Run(t, more).current < -1
    decreases TWO63 - Current(Run(t, ss))
  {
    var u := Run(t, ss);
    FailureDoubles(t, u, 0);
    RunAppend(t, ss, FailsNext(u, 0));
    if Current(u) >= HALF {
      more := ss + [FailsNext(u, 0)];
    } else {
      more := FailsUntilWrapped(t, ss + [FailsNext(u, 0)]);
    }
  }

  /** Some run of updates moves the blackout end back exactly when, without jitter, there is no
      maximum, or the maximum or the initial delay is at least half of what a signed word holds,
      and, with jitter, the first failure can draw some and the longest delay with the largest
      jitter reaches past the signed word. */
  lemma MovesBackIff(t: Tracker)
    requires New(t)
    ensures CanMoveBack(t) <==> if t.jitter <= 0.0 then CanWrap(t) else JitterWraps(t)
  {
    if t.jitter <= 0.0 {
      PlainMovesBackIff(t);
    } else if JitterWraps(t) {
      var ss, s := WrappingJitter(t);
    } else if ss, s :| MovesBack(t, ss, s) {
      KeptRun(t, ss);
      MovingBackWraps(t, Run(t, ss), s);
    }
  }

  lemma PlainMovesBackIff(t: Tracker)
    requires New(t) && t.jitter <= 0.0
    ensures CanMoveBack(t) <==> CanWrap(t)
  {
    if CanWrap(t) {
      var ss := FailsUntilWrapped(t, []);
      AlwaysPossible(t, ss);
      assert MovesBack(t, ss, FailsNext(Run(t, ss), 0));
    } else if ss, s :| MovesBack(t, ss, s) {
      TameRun(t, ss);
      TameStep(t, Run(t, ss), s);
    }
  }

  // ---- Panics ------------------------------------------------------------------------------

  /** The shortest delay a counted failure can find. */
  function Least(t: Tracker): int {
    if t.max > 0 then Min(t.initial, t.max) else t.initial
  }

  predicate Safe(t: Tracker, u: Tracker) {
    SameConfig(t, u) && (u.current == 0 || Least(t) <= u.current < HALF)
  }

  lemma SafeStep(t: Tracker, u: Tracker, s: Status)
    requires New(t) && !CanWrap(t) && Safe(t, u)
    ensures Safe(t, Updated(u, s))
  {
    NoWrap(2 * Current(u));
  }

  lemma {:induction false} SafeRun(t: Tracker, ss: seq<Status>)
    requires New(t) && !CanWrap(t)
    ensures Safe(t, Run(t, ss))
  {
    if ss != [] {
      SafeRun(t, ss[..|ss| - 1]);
      SafeStep(t, Run(t, ss[..|ss| - 1]), ss[|ss| - 1]);
    }
  }

  lemma NoRoomPanics(u: Tracker)
    requires u.jitter > 0.0 && JitterBound(u) <= 0
    ensures Panics(u, true, u.end + 1)
  {}

  /** The delay wraps to a negative one, for which no jitter can be drawn. */
  lemma WrappedPanics(t: Tracker) returns (ss: seq<Status>, s: Status)
    requires New(t) && t.jitter > 0.0 && Bound(t.initial, t.jitter) >= 1 && CanWrap(t)
    ensures EndsInPanic(t, ss, s)
  {
    var ss1, u := Climbs(t, [], t);
    TopBounds(t.initial, t.max);
    LongerBound(t, u);
    var v;
    ss, v := FailsOnce(t, ss1, u);
    NegativeBound(v.current, t.jitter);
    NoRoomPanics(v);
    s := FailsNext(v, 0);
  }

  /** The first failure brings the delay down to the maximum, which is too short for any jitter. */
  lemma CappedPanics(t: Tracker) returns (ss: seq<Status>, s: Status)
    requires New(t) && t.jitter > 0.0 && Bound(t.initial, t.jitter) >= 1 && !CanWrap(t)
    requires Bound(Least(t), t.jitter) <= 0
    ensures EndsInPanic(t, ss, s)
  {
    var v;
    ss, v := FailsOnce(t, [], t);
    assert v.current == t.max == Least(t);
    NoRoomPanics(v);
    s := FailsNext(v, 0);
  }

  lemma SafeNeverPanics(t: Tracker, u: Tracker, s: Status)
    requires New(t) && t.jitter > 0.0 && Safe(t, u) && Bound(Least(t), t.jitter) >= 1
    ensures !Panics(u, s.failed, s.now)
  {
    BoundGrows(Least(t), Current(u), t.jitter);
  }

  lemma FirstPanics(t: Tracker)
    requires New(t) && t.jitter > 0.0 && Bound(t.initial, t.jitter) <= 0
    ensures EndsInPanic(t, [], FailsNext(t, 0)) && Bound(Least(t), t.jitter) <= 0
  {
    NoRoomPanics(t);
    BoundGrows(Least(t), t.initial, t.jitter);
  }

  /** With jitter some run of updates ends in a panic exactly when the delay can wrap, or the
      shortest delay leaves no room for any jitter. */
  lemma PanicsIff(t: Tracker)
    requires New(t) && t.jitter > 0.0
    ensures CanPanic(t) <==> CanWrap(t) || Bound(Least(t), t.jitter) <= 0
  {
    if Bound(t.initial, t.jitter) <= 0 {
      FirstPanics(t);
    } else if CanWrap(t) {
      var ss, s := WrappedPanics(t);
    } else if Bound(Least(t), t.jitter) <= 0 {
      var ss, s := CappedPanics(t);
    } else if ss, s :| EndsInPanic(t, ss, s) {
      SafeRun(t, ss);
      SafeNeverPanics(t, Run(t, ss), s);
    }
  }

  /** The predefined configurations, with 10% jitter and a maximum of ten minutes: the end
      never moves back and no update panics. */
  lemma PredefinedAreSound(t: Tracker, slow: bool)
    requires t == Tracker(if slow then 10_000_000_000 else 4_000_000_000, 600_000_000_000, 0.1, 0, 0)
    ensures !CanMoveBack(t) && !CanPanic(t)
  {
    MovesBackIff(t);
    PanicsIff(t);
    TopBounds(t.initial, t.max);
    BoundGrows(Top(t.initial, t.max), t.max, t.jitter);
  }
}
