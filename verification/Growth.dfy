/** Repeated scale-ups of the governor, all of whose launches succeed: the event loop of
    apns2/dispatch.go with a scale calculator of scale/scale.go plugged in. */
module Growth {
  import opened Words
  import Scaling
  import opened Governor

  /** The governor's configuration uses this calculator. */
  ghost predicate Uses(cfg: Config, scale: Scaling.Scale, wild: u32) {
    forall n: u32 :: cfg.apply(n) == scale.Apply(n, wild)
  }

  /** The completions of n launchers, in order. */
  function Completed(cfg: Config, g: Gov, first: Id, n: nat, now: int): Gov {
    if n == 0 then g
    else Handled(cfg, Completed(cfg, g, first, n - 1, now), LauncherDone(first + n - 1, true, now, 0))
  }

  function Delta(cfg: Config, g: Gov, now: int): nat {
    Max(AllowedDelta(cfg, g, true, now), 0)
  }

  /** A poll that asks for more connections, and the completion of every launch it makes. */
  function Round(cfg: Config, g: Gov, now: int): Gov {
    Completed(cfg, Handled(cfg, g, Poll(1, now)), g.nextId, Delta(cfg, g, now), now)
  }

  /** Idle and past its settle and back-off times. */
  ghost predicate MayScale(cfg: Config, g: Gov, now: int) {
    && g.launchers == {} && !g.closing && !g.stopped
    && (forall i :: i in g.streamers ==> i < g.nextId)
    && |g.streamers| < TWO32
    && g.lastScale + cfg.settle <= now && g.backOff.end <= now
  }

  lemma {:induction false} CompletedState(cfg: Config, g: Gov, first: Id, total: nat, n: nat, now: int)
    requires n <= total && g.launchers == NewIds(first, total) && !g.closing && !g.stopped
    requires first + total == g.nextId
    ensures var h := Completed(cfg, g, first, n, now);
            && h.launchers == NewIds(first, total) - NewIds(first, n)
            && h.streamers == g.streamers + NewIds(first, n)
            && h.nextId == g.nextId && !h.closing && !h.stopped
            && h.backOff.end == g.backOff.end
            && (h.lastScale == g.lastScale || h.lastScale == now)
  {
    if n > 0 {
      CompletedState(cfg, g, first, total, n - 1, now);
    }
  }

  /** Connections after one fully successful scale-up of n, and after k of them. */
  function Raised(cfg: Config, n: u32): u32 {
    if n >= cfg.maxConns then n else Max(n, Min(Max(cfg.apply(n), cfg.minConns), cfg.maxConns))
  }

  function RaisedBy(cfg: Config, n: u32, k: nat): u32 {
    if k == 0 then n else Raised(cfg, RaisedBy(cfg, n, k - 1))
  }

  /** A round with every launch successful takes the governor to the raised number. */
  lemma RoundGrows(cfg: Config, g: Gov, now: int)
    requires MayScale(cfg, g, now)
    ensures var h := Round(cfg, g, now);
            |h.streamers| == Raised(cfg, |g.streamers|) && MayScale(cfg, h, now + Max(cfg.settle, 0))
  {
    var n := Delta(cfg, g, now);
    var p := Handled(cfg, g, Poll(1, now));
    assert p == Launched(g, n);
    assert p.launchers == NewIds(g.nextId, n);
    CompletedState(cfg, p, g.nextId, n, n, now);
    NewIdsCount(g.nextId, n);
    var h := Round(cfg, g, now);
    assert g.streamers * NewIds(g.nextId, n) == {};
    assert |h.streamers| == |g.streamers| + n;
    DeltaRaises(cfg, g, now);
  }

  lemma DeltaRaises(cfg: Config, g: Gov, now: int)
    requires MayScale(cfg, g, now)
    ensures |g.streamers| + Delta(cfg, g, now) == Raised(cfg, |g.streamers|)
  {}

  /** h follows from g by a round. */
  predicate IsRound(cfg: Config, g: Gov, now: int, h: Gov) {
    h == Round(cfg, g, now)
  }

  /** Rounds at the given times, a settle period or more apart, lead from each of the states
      to the next. */
  ghost predicate Rounds(cfg: Config, gs: seq<Gov>, ts: seq<int>) {
    && |gs| == |ts| + 1
    && (forall i :: 0 <= i < |ts| ==> IsRound(cfg, gs[i], ts[i], gs[i + 1]))
    && (forall i :: 0 < i < |ts| ==> ts[i - 1] + Max(cfg.settle, 0) <= ts[i])
  }

  lemma RoundThenMayScale(cfg: Config, g: Gov, now: int, h: Gov, later: int)
    requires MayScale(cfg, g, now) && IsRound(cfg, g, now, h) && now + Max(cfg.settle, 0) <= later
    ensures |h.streamers| == Raised(cfg, |g.streamers|) && MayScale(cfg, h, later)
  {
    RoundGrows(cfg, g, now);
  }

  lemma {:induction false} RoundsGrow(cfg: Config, gs: seq<Gov>, ts: seq<int>, k: nat)
    requires Rounds(cfg, gs, ts) && ts != [] && MayScale(cfg, gs[0], ts[0]) && k <= |ts|
    ensures |gs[k].streamers| == RaisedBy(cfg, |gs[0].streamers|, k)
    ensures k < |ts| ==> MayScale(cfg, gs[k], ts[k])
  {
    if k > 0 {
      RoundsGrow(cfg, gs, ts, k - 1);
      assert IsRound(cfg, gs[k - 1], ts[k - 1], gs[k - 1 + 1]);
      RoundThenMayScale(cfg, gs[k - 1], ts[k - 1], gs[k],
                        if k < |ts| then ts[k] else ts[k - 1] + Max(cfg.settle, 0));
    }
  }

  lemma RaisedIsScaledUp(cfg: Config, scale: Scaling.Scale, wild: u32, n: u32)
    requires cfg.apply(n) == scale.Apply(n, wild)
    ensures Raised(cfg, n) == Scaling.ScaledUp(scale, cfg.minConns, cfg.maxConns, n, wild)
  {}

  lemma {:induction false} RaisedByIsGrown(cfg: Config, scale: Scaling.Scale, wild: u32, n: u32, k: nat)
    requires Uses(cfg, scale, wild)
    ensures RaisedBy(cfg, n, k) == Scaling.Grown(scale, cfg.minConns, cfg.maxConns, n, wild, k)
  {
    if k > 0 {
      RaisedByIsGrown(cfg, scale, wild, n, k - 1);
      RaisedIsScaledUp(cfg, scale, wild, RaisedBy(cfg, n, k - 1));
    }
  }

  /** Fully successful scale-ups, a settle period or more apart, by a whole factor b: after
      k of them the governor holds n * b^k connections, or the maximum. */
  lemma GovernorGrowsGeometrically(cfg: Config, b: nat, wild: u32, gs: seq<Gov>, ts: seq<int>, k: nat)
    requires b >= 2 && Uses(cfg, Scaling.Exponential(b as real), wild)
    requires Rounds(cfg, gs, ts) && ts != [] && MayScale(cfg, gs[0], ts[0]) && k <= |ts|
    requires var n := |gs[0].streamers|;
             1 <= n && cfg.minConns <= n <= cfg.maxConns && Scaling.StepsFit(b, cfg.maxConns, n, k)
    ensures |gs[k].streamers| == Min(|gs[0].streamers| * Pow(b, k), cfg.maxConns)
  {
    RoundsGrow(cfg, gs, ts, k);
    RaisedByIsPower(cfg, b, wild, |gs[0].streamers|, k);
  }

  /** The configuration without practical limits: doubling from one connection up to 2^32 - 1. */
  lemma UnlimitedDoubles(cfg: Config, wild: u32, gs: seq<Gov>, ts: seq<int>, k: nat)
    requires cfg.minConns == 1 && cfg.maxConns == TWO32 - 1 && Uses(cfg, Scaling.Exponential(2.0), wild)
    requires Rounds(cfg, gs, ts) && ts != [] && MayScale(cfg, gs[0], ts[0]) && k <= |ts|
    requires |gs[0].streamers| == 1 && Pow(2, k) < TWO32
    ensures |gs[k].streamers| == Pow(2, k)
  {
    Scaling.FinalFits(2, cfg.maxConns, 1, k);
    GovernorGrowsGeometrically(cfg, 2, wild, gs, ts, k);
  }

  lemma RaisedByIsPower(cfg: Config, b: nat, wild: u32, n: u32, k: nat)
    requires b >= 2 && Uses(cfg, Scaling.Exponential(b as real), wild)
    requires 1 <= n && cfg.minConns <= n <= cfg.maxConns && Scaling.StepsFit(b, cfg.maxConns, n, k)
    ensures RaisedBy(cfg, n, k) == Min(n * Pow(b, k), cfg.maxConns)
  {
    RaisedByIsGrown(cfg, Scaling.Exponential(b as real), wild, n, k);
    Scaling.GeometricGrowth(b, cfg.minConns, cfg.maxConns, n, wild, k);
  }
}
