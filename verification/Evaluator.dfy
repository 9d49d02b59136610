/** governor.updateCountersAndEvalScaling of apns2/dispatch.go, against a declarative
    reading of the whole sample history. */
module Evaluator {
  import opened Words
  import opened Decision

  /** What one poll draws: ticks folded on the inbound side, the wrapped sum of those folded
      by the streamers, requests counted and bytes sent. */
  datatype Sample = Sample(ins: u32, outs: u32, count: u64, size: u64)

  datatype Limits = Limits(
    minSust: u32,
    shouldCount: bool,
    shouldSize: bool,
    maxCount: u64,
    maxSize: u64)

  function Ins(h: seq<Sample>): seq<u32> {
    seq(|h|, i requires 0 <= i < |h| => h[i].ins)
  }

  function Outs(h: seq<Sample>): seq<u32> {
    seq(|h|, i requires 0 <= i < |h| => h[i].outs)
  }

  function Counts(h: seq<Sample>): seq<u64> {
    seq(|h|, i requires 0 <= i < |h| => h[i].count)
  }

  function Sizes(h: seq<Sample>): seq<u64> {
    seq(|h|, i requires 0 <= i < |h| => h[i].size)
  }

  lemma Extends(h: seq<Sample>, s: Sample)
    ensures Ins(h + [s]) == Ins(h) + [s.ins] && Outs(h + [s]) == Outs(h) + [s.outs]
    ensures Counts(h + [s]) == Counts(h) + [s.count] && Sizes(h + [s]) == Sizes(h) + [s.size]
  {}

  function InWindow(values: seq<u64>, n: nat): u64 {
    Sum(Window(values, n)) % TWO64
  }

  predicate Vetoed(lim: Limits, h: seq<Sample>) {
    || (lim.shouldCount && InWindow(Counts(h), lim.minSust) > lim.maxCount)
    || (lim.shouldSize && InWindow(Sizes(h), lim.minSust) > lim.maxSize)
  }

  /** Inbound sends blocked in each of the last samples while outbound ones did not. */
  predicate Pressed(lim: Limits, h: seq<Sample>) {
    Sustained(Ins(h), true, lim.minSust) && Sustained(Outs(h), false, lim.minSust)
  }

  /** The decision, read off the history. */
  function Verdict(lim: Limits, h: seq<Sample>): int {
    if Pressed(lim, h) then (if Vetoed(lim, h) then 0 else 1)
    else if Sustained(Ins(h), false, lim.minSust) then -1
    else 0
  }

  /** The streak at the end of the samples passes the threshold as a 32-bit count. */
  predicate CountsAs(values: seq<u32>, waits: bool, m: u32) {
    Streak(values, waits) % TWO32 >= m
  }

  /** The decision from the streaks' 32-bit counts. */
  function WrappedVerdict(lim: Limits, h: seq<Sample>): int {
    if CountsAs(Ins(h), true, lim.minSust) && CountsAs(Outs(h), false, lim.minSust)
    then (if Vetoed(lim, h) then 0 else 1)
    else if CountsAs(Ins(h), false, lim.minSust) then -1
    else 0
  }

  /** The counts that decide have not wrapped below the threshold. */
  predicate NotWrapped(lim: Limits, h: seq<Sample>) {
    && (Pressed(lim, h) && !Vetoed(lim, h) ==>
          CountsAs(Ins(h), true, lim.minSust) && CountsAs(Outs(h), false, lim.minSust))
    && (!Pressed(lim, h) && Sustained(Ins(h), false, lim.minSust) ==> CountsAs(Ins(h), false, lim.minSust))
  }

  lemma CountsAsSustained(values: seq<u32>, waits: bool, m: u32)
    ensures CountsAs(values, waits, m) ==> Sustained(values, waits, m)
    ensures |values| < TWO32 ==> (CountsAs(values, waits, m) <==> Sustained(values, waits, m))
  {
    StreakIsSustained(values, waits, m);
  }

  lemma NotBoth(values: seq<u32>, m: u32)
    requires m > 0
    ensures !(Sustained(values, true, m) && Sustained(values, false, m))
  {
    if m <= |values| {
      assert Sustained(values, true, m) ==> values[|values| - 1] > 0;
    }
  }

  /** Wrapping counters decide as the history does exactly when the counts that decide have
      not wrapped below the threshold, as they cannot for fewer than 2^32 samples. */
  lemma VerdictExactIff(lim: Limits, h: seq<Sample>)
    ensures WrappedVerdict(lim, h) == Verdict(lim, h) <==> NotWrapped(lim, h)
    ensures |h| < TWO32 ==> NotWrapped(lim, h)
  {
    CountsAsSustained(Ins(h), true, lim.minSust);
    CountsAsSustained(Ins(h), false, lim.minSust);
    CountsAsSustained(Outs(h), false, lim.minSust);
    if lim.minSust > 0 {
      NotBoth(Ins(h), lim.minSust);
    }
  }

  /** What one streamer's counters yield when drawn. */
  datatype Drawn = Drawn(ticks: u32, size: u64)

  function TotalTicks(ds: seq<Drawn>): nat {
    if ds == [] then 0 else TotalTicks(ds[..|ds| - 1]) + ds[|ds| - 1].ticks
  }

  function TotalSize(ds: seq<Drawn>): nat {
    if ds == [] then 0 else TotalSize(ds[..|ds| - 1]) + ds[|ds| - 1].size
  }

  lemma TotalsAppend(front: seq<Drawn>, d: Drawn)
    ensures TotalTicks(front + [d]) == TotalTicks(front) + d.ticks
    ensures TotalSize(front + [d]) == TotalSize(front) + d.size
  {
    assert (front + [d])[..|front|] == front;
  }

  lemma WrapOnceMore(ticks: nat, size: nat, d: Drawn)
    ensures Add32(ticks % TWO32, d.ticks) == (ticks + d.ticks) % TWO32
    ensures Add64(size % TWO64, d.size) == (size + d.size) % TWO64
  {}

  function Sampled(lim: Limits, ics: u32, cnt: u64, ds: seq<Drawn>): Sample {
    Sample(ics, TotalTicks(ds) % TWO32, cnt, if lim.shouldSize then TotalSize(ds) % TWO64 else 0)
  }

  /** The outbound sample shows no waits exactly when no streamer does, unless the ticks of
      all streamers add up to a nonzero multiple of 2^32. */
  lemma {:induction false} OutboundShowsNone(ds: seq<Drawn>)
    ensures TotalTicks(ds) == 0 <==> forall k :: 0 <= k < |ds| ==> ds[k].ticks == 0
    ensures TotalTicks(ds) < TWO32 ==>
              (TotalTicks(ds) % TWO32 == 0 <==> forall k :: 0 <= k < |ds| ==> ds[k].ticks == 0)
  {
    if ds != [] {
      var front := ds[..|ds| - 1];
      OutboundShowsNone(front);
      if TotalTicks(ds) == 0 {
        forall k | 0 <= k < |ds| ensures ds[k].ticks == 0 {
          assert k < |front| ==> front[k] == ds[k];
        }
      }
    }
  }

  class Sampler {
    const lim: Limits
    const inCtr: WaitCounter
    const outCtr: WaitCounter
    const countAcc: MovingAcc?
    const sizeAcc: MovingAcc?
    ghost var history: seq<Sample>

    ghost function AccParts(a: MovingAcc?): set<object> {
      if a == null then {} else {a, a.samples}
    }

    ghost function Parts(): set<object> {
      {this, inCtr, outCtr} + AccParts(countAcc) + AccParts(sizeAcc)
    }

    ghost predicate Valid()
      reads Parts()
    {
      && inCtr != outCtr
      && AccParts(countAcc) !! AccParts(sizeAcc)
      && (countAcc != null <==> lim.shouldCount) && (sizeAcc != null <==> lim.shouldSize)
      && inCtr.View() == Counted(Ins(history)) && outCtr.View() == Counted(Outs(history))
      && (countAcc != null ==>
            countAcc.Valid() && countAcc.samples.Length == lim.minSust && countAcc.history == Counts(history))
      && (sizeAcc != null ==>
            sizeAcc.Valid() && sizeAcc.samples.Length == lim.minSust && sizeAcc.history == Sizes(history))
    }

    constructor (lim: Limits)
      requires lim.shouldCount || lim.shouldSize ==> lim.minSust > 0
      ensures Valid() && this.lim == lim && history == [] && fresh(Parts())
    {
      this.lim := lim;
      inCtr := new WaitCounter();
      outCtr := new WaitCounter();
      if lim.shouldCount {
        countAcc := new MovingAcc(lim.minSust);
      } else {
        countAcc := null;
      }
      if lim.shouldSize {
        sizeAcc := new MovingAcc(lim.minSust);
      } else {
        sizeAcc := null;
      }
      history := [];
    }

    /** The sums over all streamers, in whatever order they are visited. */
    method DrawStreamers(ds: seq<Drawn>) returns (ocs: u32, osz: u64)
      ensures ocs == TotalTicks(ds) % TWO32
      ensures osz == if lim.shouldSize then TotalSize(ds) % TWO64 else 0
    {
      ocs, osz := 0, 0;
      for i := 0 to |ds|
        invariant ocs == TotalTicks(ds[..i]) % TWO32
        invariant osz == if lim.shouldSize then TotalSize(ds[..i]) % TWO64 else 0
      {
        var front := ds[..i];
        TotalsAppend(front, ds[i]);
        assert front + [ds[i]] == ds[..i + 1];
        WrapOnceMore(TotalTicks(front), TotalSize(front), ds[i]);
        ocs := Add32(ocs, ds[i].ticks);
        if lim.shouldSize {
          osz := Add64(osz, ds[i].size);
        }
      }
      assert ds[..|ds|] == ds;
    }

    /** Adds one sample to all counters. */
    method Record(s: Sample) returns (cnt: u64, osz: u64)
      requires Valid()
      modifies Parts()
      ensures Valid() && history == old(history) + [s]
      ensures cnt == if lim.shouldCount then InWindow(Counts(history), lim.minSust) else s.count
      ensures osz == if lim.shouldSize then InWindow(Sizes(history), lim.minSust) else s.size
    {
      Extends(history, s);
      inCtr.Accumulate(s.ins);
      outCtr.Accumulate(s.outs);
      cnt, osz := s.count, s.size;
      if lim.shouldCount {
        cnt := countAcc.Accumulate(cnt);
      }
      if lim.shouldSize {
        osz := sizeAcc.Accumulate(osz);
      }
      history := history + [s];
    }

    /** The decision made at a poll is the verdict on the history including its sample,
        exactly unless a count that decides has wrapped. */
    method UpdateCountersAndEvalScaling(ics: u32, count: u64, ds: seq<Drawn>) returns (r: int)
      requires Valid()
      modifies Parts()
      ensures Valid() && history == old(history) + [Sampled(lim, ics, count, ds)]
      ensures var s := history[|history| - 1];
              && s.ins == ics && s.outs == TotalTicks(ds) % TWO32 && s.count == count
              && s.size == if lim.shouldSize then TotalSize(ds) % TWO64 else 0
      ensures lim.minSust > 0 && r == 1 ==> ics > 0 && TotalTicks(ds) % TWO32 == 0
      ensures lim.minSust > 0 && r == -1 ==> ics == 0
      ensures r == WrappedVerdict(lim, history)
      ensures r == Verdict(lim, history) <==> NotWrapped(lim, history)
    {
      var ocs, size := DrawStreamers(ds);
      var cnt, osz := Record(Sample(ics, ocs, count, size));
      CounterDecides(Ins(history), Outs(history), lim.minSust);
      VerdictExactIff(lim, history);
      if inCtr.waits >= lim.minSust && outCtr.noWaits >= lim.minSust {
        if lim.shouldCount && cnt > lim.maxCount {
          return 0;
        }
        if lim.shouldSize && osz > lim.maxSize {
          return 0;
        }
        return 1;
      } else if inCtr.noWaits >= lim.minSust {
        return -1;
      }
      return 0;
    }
  }

  /** What the three counter tests say of the samples. */
  lemma CounterDecides(ins: seq<u32>, outs: seq<u32>, m: u32)
    requires |ins| == |outs|
    ensures Counted(ins).waits >= m <==> CountsAs(ins, true, m)
    ensures Counted(ins).noWaits >= m <==> CountsAs(ins, false, m)
    ensures Counted(outs).noWaits >= m <==> CountsAs(outs, false, m)
    ensures |ins| < TWO32 ==>
              && (Counted(ins).waits >= m <==> Sustained(ins, true, m))
              && (Counted(ins).noWaits >= m <==> Sustained(ins, false, m))
              && (Counted(outs).noWaits >= m <==> Sustained(outs, false, m))
  {
    CountersWrap(ins);
    CountersWrap(outs);
    CountsAsSustained(ins, true, m);
    CountsAsSustained(ins, false, m);
    CountsAsSustained(outs, false, m);
  }

  // ---- What the configuration means ------------------------------------------------

  datatype ProcCfg = ProcCfg(minSustain: int, poll: int, maxRate: real, maxBandwidth: real)

  function MinSust(c: ProcCfg): u32 {
    MinSustainPollPeriods(c.minSustain, c.poll)
  }

  /** The length of the sampling window in seconds. */
  function Seconds(c: ProcCfg): real {
    MinSust(c) as real * c.poll as real / SECOND as real
  }

  /** The mean over the sampling window stays within a rate per second. */
  predicate MeanWithin(c: ProcCfg, total: nat, rate: real) {
    Seconds(c) > 0.0 && total as real / Seconds(c) <= rate
  }

  lemma CountCapMeans(c: ProcCfg, total: nat)
    requires c.minSustain > 0 && c.poll > 0 && c.maxRate > 0.0 && MinSust(c) > 0
    ensures total > RateAsCount(c.minSustain, c.poll, c.maxRate) <==> !MeanWithin(c, total, c.maxRate)
  {
    RateVetoExact(c.minSustain, c.poll, c.maxRate, total);
  }

  lemma SizeCapMeans(c: ProcCfg, total: nat)
    requires c.minSustain > 0 && c.poll > 0 && c.maxBandwidth > 0.0 && MinSust(c) > 0
    ensures total > BandwidthAsSize(c.minSustain, c.poll, c.maxBandwidth)
            <==> !MeanWithin(c, total, c.maxBandwidth / 8.0)
  {
    RateVetoExact(c.minSustain, c.poll, c.maxBandwidth / 8.0, total);
  }

  /** The caps as the governor keeps them. */
  predicate Derived(lim: Limits, c: ProcCfg) {
    && lim.minSust == MinSust(c)
    && lim.shouldCount == (c.maxRate > 0.0 && lim.minSust > 0)
    && lim.shouldSize == (c.maxBandwidth > 0.0 && lim.minSust > 0)
    && lim.maxCount == RateAsCount(c.minSustain, c.poll, c.maxRate)
    && lim.maxSize == BandwidthAsSize(c.minSustain, c.poll, c.maxBandwidth)
  }

  /** A rate that is not positive, or a sustain period of no polls, means no cap.  With an
      invalid sustain or poll period nothing at all is let through. */
  predicate WithinCap(c: ProcCfg, total: nat, rate: real) {
    || rate <= 0.0 || MinSust(c) == 0
    || (if c.minSustain > 0 && c.poll > 0 then MeanWithin(c, total, rate) else total == 0)
  }

  lemma VetoMeans(lim: Limits, c: ProcCfg, counts: nat, sizes: nat)
    requires Derived(lim, c)
    ensures lim.shouldCount && counts > lim.maxCount <==> !WithinCap(c, counts, c.maxRate)
    ensures lim.shouldSize && sizes > lim.maxSize <==> !WithinCap(c, sizes, c.maxBandwidth / 8.0)
  {
    if c.minSustain > 0 && c.poll > 0 && lim.minSust > 0 {
      if c.maxRate > 0.0 {
        CountCapMeans(c, counts);
      }
      if c.maxBandwidth > 0.0 {
        SizeCapMeans(c, sizes);
      }
    }
  }

  lemma VerdictOf(lim: Limits, h: seq<Sample>, countOk: bool, sizeOk: bool)
    requires lim.shouldCount && InWindow(Counts(h), lim.minSust) > lim.maxCount <==> !countOk
    requires lim.shouldSize && InWindow(Sizes(h), lim.minSust) > lim.maxSize <==> !sizeOk
    ensures Verdict(lim, h) == 1 <==> Pressed(lim, h) && countOk && sizeOk
    ensures Verdict(lim, h) == -1 <==> !Pressed(lim, h) && Sustained(Ins(h), false, lim.minSust)
  {}

  /** Pressure and quiet, read off the samples themselves. */
  lemma SamplesRead(lim: Limits, h: seq<Sample>)
    ensures Pressed(lim, h) <==>
              && lim.minSust <= |h|
              && forall i :: |h| - lim.minSust <= i < |h| ==> h[i].ins > 0 && h[i].outs == 0
    ensures !Pressed(lim, h) && Sustained(Ins(h), false, lim.minSust) <==>
              && 0 < lim.minSust <= |h|
              && forall i :: |h| - lim.minSust <= i < |h| ==> h[i].ins == 0
  {
    if Pressed(lim, h) {
      forall i | |h| - lim.minSust <= i < |h| ensures h[i].ins > 0 && h[i].outs == 0 {
        assert Ins(h)[i] > 0 && !(Outs(h)[i] > 0);
      }
    }
    if Sustained(Ins(h), false, lim.minSust) {
      forall i | |h| - lim.minSust <= i < |h| ensures h[i].ins == 0 {
        assert !(Ins(h)[i] > 0);
      }
    }
    if 0 < lim.minSust <= |h| {
      assert Pressed(lim, h) ==> Ins(h)[|h| - 1] > 0;
      assert Sustained(Ins(h), false, lim.minSust) ==> !(Ins(h)[|h| - 1] > 0);
    }
  }

  /** For every configuration the governor scales up exactly when every sample of the last
      sustain period shows inbound waits and no outbound ones, and over that period neither
      the mean rate nor the mean bandwidth exceeds its cap; it considers winding down exactly
      when there is a sustain period and every one of those samples shows no inbound waits.
      The totals are the sums modulo 2^64. */
  lemma VerdictMeans(lim: Limits, c: ProcCfg, h: seq<Sample>)
    requires Derived(lim, c)
    ensures Verdict(lim, h) == 1 <==>
              && lim.minSust <= |h|
              && (forall i :: |h| - lim.minSust <= i < |h| ==> h[i].ins > 0 && h[i].outs == 0)
              && WithinCap(c, InWindow(Counts(h), lim.minSust), c.maxRate)
              && WithinCap(c, InWindow(Sizes(h), lim.minSust), c.maxBandwidth / 8.0)
    ensures Verdict(lim, h) == -1 <==>
              && 0 < lim.minSust <= |h|
              && forall i :: |h| - lim.minSust <= i < |h| ==> h[i].ins == 0
    ensures -1 <= Verdict(lim, h) <= 1
  {
    var counts, sizes := InWindow(Counts(h), lim.minSust), InWindow(Sizes(h), lim.minSust);
    VetoMeans(lim, c, counts, sizes);
    VerdictOf(lim, h, WithinCap(c, counts, c.maxRate), WithinCap(c, sizes, c.maxBandwidth / 8.0));
    SamplesRead(lim, h);
  }
}
