/** The governor of apns2/dispatch.go: the event loop that launches, counts and
    retires connections.  A launcher and the worker it starts share one id. */
module Governor {
  import opened Words
  import opened BackOff
  import opened Scaling

  type Id = nat

  /** The scale is an interface in the source: any pair of functions will do. */
  datatype Config = Config(
    minConns: u32,
    maxConns: u32,
    apply: u32 -> u32,
    applyInverse: u32 -> u32,
    settle: int)

  /** What the event loop keeps between events. */
  datatype Gov = Gov(
    launchers: set<Id>,
    streamers: set<Id>,
    nextId: nat,
    closing: bool,
    lastScale: int,
    backOff: Tracker,
    stopped: bool)

  /** The cases of the select statement, with one clock reading each. */
  datatype Event =
    | LauncherDone(l: Id, started: bool, now: int, jtr: int)
    | WorkerDone(w: Id, didQuit: bool, inClosed: bool)
    | Poll(decision: int, now: int)
    | HardStop

  predicate Among(i: Id, first: nat, n: nat) {
    first <= i < first + n
  }

  /** The ids of n launches in a row. */
  function NewIds(first: nat, n: nat): set<Id> {
    set i: Id | first <= i < first + n && Among(i, first, n)
  }

  lemma {:induction false} NewIdsCount(first: nat, n: nat)
    ensures |NewIds(first, n)| == n
  {
    if n > 0 {
      NewIdsCount(first, n - 1);
      OneMoreId({}, first, n - 1);
      assert {} + NewIds(first, n) == NewIds(first, n);
      assert {} + NewIds(first, n - 1) == NewIds(first, n - 1);
    } else {
      assert NewIds(first, 0) == {};
    }
  }

  lemma OneMoreId(ids: set<Id>, first: nat, n: nat)
    ensures ids + NewIds(first, n) + {first + n} == ids + NewIds(first, n + 1)
  {}

  function Launched(g: Gov, n: nat): Gov {
    g.(launchers := g.launchers + NewIds(g.nextId, n), nextId := g.nextId + n)
  }

  /** Connections the governor believes in, as an unsigned 32-bit count. */
  function Provisioned(g: Gov): u32 {
    (|g.streamers| + |g.launchers|) % TWO32
  }

  function AllowedDelta(cfg: Config, g: Gov, up: bool, now: int): int {
    var prov := Provisioned(g);
    if g.closing || |g.launchers| > 0 then 0
    else if g.lastScale + cfg.settle > now then 0
    else if g.backOff.end > now then 0
    else if up && prov >= cfg.maxConns then 0
    else if !up && prov <= cfg.minConns then 0
    else
      var req := if up then cfg.apply(prov) else cfg.applyInverse(prov);
      Min(Max(req, cfg.minConns), cfg.maxConns) - prov
  }

  function Upscaled(cfg: Config, g: Gov, now: int): Gov {
    Launched(g, Max(AllowedDelta(cfg, g, true, now), 0))
  }

  /** The select case alone. */
  function React(cfg: Config, g: Gov, e: Event): Gov {
    match e
    case LauncherDone(l, started, now, jtr) =>
      var launchers := g.launchers - {l};
      g.(launchers := launchers,
         streamers := if started then g.streamers + {l} else g.streamers,
         backOff := Updated(g.backOff, Status(!started, now, jtr)),
         lastScale := if launchers == {} then now else g.lastScale)
    case WorkerDone(w, didQuit, inClosed) =>
      Launched(g.(closing := g.closing || inClosed, streamers := g.streamers - {w}), if didQuit then 1 else 0)
    case Poll(decision, now) =>
      if g.closing || decision <= 0 then g else Upscaled(cfg, g, now)
    case HardStop => g.(stopped := true)
  }

  /** The check made after every event: a closing governor stops once it knows of no connection. */
  function Checked(g: Gov): Gov {
    if !g.stopped && g.closing then g.(stopped := g.streamers == {} && g.launchers == {}) else g
  }

  function Handled(cfg: Config, g: Gov, e: Event): Gov {
    Checked(React(cfg, g, e))
  }

  function Initial(backOff: Tracker): Gov {
    Gov({}, {}, 0, false, 0, backOff, false)
  }

  /** The jitter a launcher's completion draws is possible and does not panic. */
  predicate Draws(g: Gov, e: Event) {
    e.LauncherDone? ==>
      !Panics(g.backOff, !e.started, e.now) && Drawable(g.backOff, !e.started, e.now, e.jtr)
  }

  /** The governor's own state. */
  class EventLoop {
    const cfg: Config
    var launchers: set<Id>
    var streamers: set<Id>
    var nextId: nat
    var closing: bool
    var lastScale: int
    var stopped: bool
    const backOff: BackOffTracker

    ghost function View(): Gov
      reads this, backOff
    {
      Gov(launchers, streamers, nextId, closing, lastScale, backOff.View(), stopped)
    }

    constructor (cfg: Config, backOff: BackOffTracker)
      ensures this.cfg == cfg && this.backOff == backOff
      ensures View() == Initial(backOff.View())
    {
      this.cfg, this.backOff := cfg, backOff;
      launchers, streamers, nextId := {}, {}, 0;
      closing, lastScale, stopped := false, 0, false;
    }

    method LaunchStreamer()
      modifies this`launchers, this`nextId
      ensures launchers == old(launchers) + {old(nextId)} && nextId == old(nextId) + 1
    {
      launchers := launchers + {nextId};
      nextId := nextId + 1;
    }

    method AllowedScaleDelta(up: bool, now: int) returns (delta: int)
      ensures delta == AllowedDelta(cfg, View(), up, now)
    {
      if closing || |launchers| > 0 {
        return 0;
      }
      if lastScale + cfg.settle > now {
        return 0;
      } else if backOff.end > now {
        return 0;
      }
      var prov: u32 := (|streamers| + |launchers|) % TWO32;
      var req: u32;
      if up {
        if prov >= cfg.maxConns {
          return 0;
        }
        req := cfg.apply(prov);
      } else {
        if prov <= cfg.minConns {
          return 0;
        }
        req := cfg.applyInverse(prov);
      }
      if req < cfg.minConns {
        req := cfg.minConns;
      }
      if req > cfg.maxConns {
        req := cfg.maxConns;
      }
      delta := req - prov;
    }

    /** The loop of TryScaleUp. */
    method LaunchStreamers(n: nat)
      modifies this`launchers, this`nextId
      ensures launchers == old(launchers) + NewIds(old(nextId), n) && nextId == old(nextId) + n
    {
      ghost var ids, first := launchers, nextId;
      for i := 0 to n
        invariant launchers == ids + NewIds(first, i) && nextId == first + i
      {
        OneMoreId(ids, first, i);
        LaunchStreamer();
      }
    }

    method TryScaleUp(now: int)
      modifies this`launchers, this`nextId
      ensures var n := Max(AllowedDelta(cfg, old(View()), true, now), 0);
              launchers == old(launchers) + NewIds(old(nextId), n) && nextId == old(nextId) + n
    {
      var delta := AllowedScaleDelta(true, now);
      LaunchStreamers(Max(delta, 0));
    }

    method OnLauncherDone(l: Id, started: bool, now: int, jtr: int)
      requires Draws(View(), Event.LauncherDone(l, started, now, jtr))
      modifies this, backOff
      ensures View() == React(cfg, old(View()), Event.LauncherDone(l, started, now, jtr))
      ensures launchers == old(launchers) - {l} && nextId == old(nextId)
      ensures streamers == if started then old(streamers) + {l} else old(streamers)
      ensures lastScale == if launchers == {} then now else old(lastScale)
      ensures backOff.View() == Updated(old(backOff.View()), Status(!started, now, jtr))
      ensures closing == old(closing) && stopped == old(stopped)
    {
      launchers := launchers - {l};
      var _ := backOff.Update(!started, now, jtr);
      if started {
        streamers := streamers + {l};
      }
      if launchers == {} {
        lastScale := now;
      }
    }

    method OnWorkerDone(w: Id, didQuit: bool, inClosed: bool)
      modifies this
      ensures View() == React(cfg, old(View()), Event.WorkerDone(w, didQuit, inClosed))
      ensures closing == (old(closing) || inClosed) && streamers == old(streamers) - {w}
      ensures launchers == if didQuit then old(launchers) + {old(nextId)} else old(launchers)
      ensures lastScale == old(lastScale) && stopped == old(stopped)
    {
      if inClosed && !closing {
        closing := true;
      }
      streamers := streamers - {w};
      if didQuit {
        LaunchStreamer();
        assert NewIds(old(nextId), 1) == {old(nextId)};
      } else {
        assert launchers + NewIds(nextId, 0) == launchers;
      }
    }

    method OnPoll(decision: int, now: int)
      modifies this`launchers, this`nextId
      ensures View() == React(cfg, old(View()), Event.Poll(decision, now))
    {
      if !closing && decision > 0 {
        TryScaleUp(now);
      }
    }

    method CheckDone()
      modifies this`stopped
      ensures View() == Checked(old(View()))
      ensures stopped <==> old(stopped) || (closing && streamers == {} && launchers == {})
    {
      if !stopped && closing {
        stopped := |streamers| == 0 && |launchers| == 0;
      }
    }

    /** One turn of the loop; the caller's events are the messages the select receives. */
    method Handle(e: Event)
      requires !stopped && Draws(View(), e)
      modifies this, backOff
      ensures View() == Handled(cfg, old(View()), e)
    {
      match e {
        case LauncherDone(l, started, now, jtr) =>
          OnLauncherDone(l, started, now, jtr);
        case WorkerDone(w, didQuit, inClosed) =>
          OnWorkerDone(w, didQuit, inClosed);
        case Poll(decision, now) =>
          OnPoll(decision, now);
        case HardStop =>
          stopped := true;
      }
      CheckDone();
    }
  }

  // ---- Pacing over whole runs -------------------------------------------

  function Run(cfg: Config, g: Gov, es: seq<Event>): Gov {
    if es == [] then g else Handled(cfg, Run(cfg, g, es[..|es| - 1]), es[|es| - 1])
  }

  predicate Timed(e: Event) {
    e.LauncherDone? || e.Poll?
  }

  /** The clock never runs backwards. */
  predicate Clocked(es: seq<Event>) {
    forall i, j :: 0 <= i < j < |es| && Timed(es[i]) && Timed(es[j]) ==> es[i].now <= es[j].now
  }

  lemma OnlyCompletionsShrink(cfg: Config, g: Gov, e: Event)
    requires !e.LauncherDone?
    ensures g.launchers <= Handled(cfg, g, e).launchers && Handled(cfg, g, e).lastScale == g.lastScale
  {}

  /** When no launcher is pending, lastScale is the time of the last completion, and so at or
      after every completion so far. */
  lemma {:induction false} LastScaleCovers(cfg: Config, g: Gov, es: seq<Event>, j: nat)
    requires Clocked(es) && j < |es| && es[j].LauncherDone?
    requires Run(cfg, g, es).launchers == {}
    ensures es[j].now <= Run(cfg, g, es).lastScale
    ensures (forall k :: j < k < |es| ==> !es[k].LauncherDone?) ==> Run(cfg, g, es).lastScale == es[j].now
  {
    var es' := es[..|es| - 1];
    var before := Run(cfg, g, es');
    var last := es[|es| - 1];
    if last.LauncherDone? {
      assert es[j].now <= last.now;
    } else {
      OnlyCompletionsShrink(cfg, before, last);
      assert es'[j] == es[j];
      LastScaleCovers(cfg, g, es', j);
      assert forall k :: j < k < |es'| ==> es'[k] == es[k];
    }
  }

  /** Every poll that launches anything does so with no launcher pending, a full settle
      period after every launcher completion, and not before the back-off ends; the
      connections the governor counts then stay within the maximum. */
  lemma ScaleUpPacing(cfg: Config, g: Gov, es: seq<Event>, e: Event)
    requires e.Poll? && Clocked(es + [e])
    ensures var before := Run(cfg, g, es);
            var after := Run(cfg, g, es + [e]);
            after.nextId > before.nextId ==>
              && before.launchers == {} && !before.closing && e.decision > 0
              && before.backOff.end <= e.now
              && (forall j :: 0 <= j < |es| && es[j].LauncherDone? ==> es[j].now + cfg.settle <= e.now)
              && Provisioned(before) + |after.launchers| <= cfg.maxConns
  {
    var before := Run(cfg, g, es);
    assert (es + [e])[..|es|] == es;
    var n := Max(AllowedDelta(cfg, before, true, e.now), 0);
    if Run(cfg, g, es + [e]).nextId > before.nextId {
      assert Clocked(es) by {
        forall i, j | 0 <= i < j < |es| && Timed(es[i]) && Timed(es[j]) ensures es[i].now <= es[j].now {
          assert (es + [e])[i] == es[i] && (es + [e])[j] == es[j];
        }
      }
      forall j | 0 <= j < |es| && es[j].LauncherDone? ensures es[j].now + cfg.settle <= e.now {
        LastScaleCovers(cfg, g, es, j);
      }
      NewIdsCount(before.nextId, n);
      assert {} + NewIds(before.nextId, n) == NewIds(before.nextId, n);
    }
  }

  /** The number of connections a scaling may bring the governor to: what the scale asks for,
      raised to the minimum and cut to the maximum. */
  predicate Clamped(cfg: Config, req: u32, target: u32) {
    && (req < cfg.minConns <= cfg.maxConns ==> target == cfg.minConns)
    && (req > cfg.maxConns || cfg.minConns > cfg.maxConns ==> target == cfg.maxConns)
    && (cfg.minConns <= req <= cfg.maxConns ==> target == req)
  }

  /** Scaling is held back exactly for these reasons, and otherwise leads to the clamped number. */
  lemma AllowedDeltaExact(cfg: Config, g: Gov, up: bool, now: int)
    ensures var prov := (|g.streamers| + |g.launchers|) % TWO32;
            var held := g.closing || g.launchers != {} || now < g.lastScale + cfg.settle || now < g.backOff.end
                        || (if up then prov >= cfg.maxConns else prov <= cfg.minConns);
            && (held ==> AllowedDelta(cfg, g, up, now) == 0)
            && (!held ==>
                  && 0 <= prov + AllowedDelta(cfg, g, up, now) < TWO32
                  && Clamped(cfg, if up then cfg.apply(prov) else cfg.applyInverse(prov),
                             prov + AllowedDelta(cfg, g, up, now)))
  {}

  /** A poll launches exactly when nothing holds a scale-up back, it is asked for, and the scale
      or the minimum calls for more; and then as many as are missing. */
  lemma PollLaunches(cfg: Config, g: Gov, decision: int, now: int)
    ensures var delta := AllowedDelta(cfg, g, true, now);
            var h := Handled(cfg, g, Poll(decision, now));
            && (h.nextId > g.nextId <==> !g.closing && decision > 0 && delta > 0)
            && (h.nextId > g.nextId ==> h.nextId == g.nextId + delta)
            && h.launchers == g.launchers + NewIds(g.nextId, h.nextId - g.nextId)
            && h.streamers == g.streamers && h.backOff == g.backOff && h.lastScale == g.lastScale
  {
    assert g.launchers + NewIds(g.nextId, 0) == g.launchers;
  }

  /** A governor that starts launches its minimum of connections at least, up to the maximum, and
      what the scale makes of none if that is more. */
  lemma StartsWithMinConns(cfg: Config, backOff: Tracker, now: int)
    requires cfg.settle <= now && backOff.end <= now && cfg.minConns <= cfg.maxConns
    ensures var g := Upscaled(cfg, Initial(backOff), now);
            && cfg.minConns <= |g.launchers| <= cfg.maxConns
            && (cfg.minConns <= cfg.apply(0) <= cfg.maxConns ==> |g.launchers| == cfg.apply(0))
            && (cfg.apply(0) < cfg.minConns ==> |g.launchers| == cfg.minConns)
  {
    var n := Max(AllowedDelta(cfg, Initial(backOff), true, now), 0);
    NewIdsCount(0, n);
    assert {} + NewIds(0, n) == NewIds(0, n);
  }

  // ---- The back-off of the governor --------------------------------------------------------

  /** What the launcher completions among the events tell the back-off tracker. */
  function Statuses(es: seq<Event>): seq<Status> {
    if es == [] then []
    else
      var e := es[|es| - 1];
      var before := Statuses(es[..|es| - 1]);
      if e.LauncherDone? then before + [Status(!e.started, e.now, e.jtr)] else before
  }

  /** Every completion is reported to the tracker, and nothing else is. */
  lemma {:induction false} CompletionsBackOff(cfg: Config, g: Gov, es: seq<Event>)
    ensures Run(cfg, g, es).backOff == BackOff.Run(g.backOff, Statuses(es))
  {
    if es != [] {
      var es' := es[..|es| - 1];
      CompletionsBackOff(cfg, g, es');
      if es[|es| - 1].LauncherDone? {
        var e := es[|es| - 1];
        assert (Statuses(es') + [Status(!e.started, e.now, e.jtr)])[..|Statuses(es')|] == Statuses(es');
      }
    }
  }

  /** After a failed dial that counts, nothing is scaled up or down before the back-off delay has
      passed; after a success that counts the delay is the initial one again. */
  lemma FailedDialBacksOff(cfg: Config, g: Gov, l: Id, now: int, jtr: int, later: int, up: bool)
    requires Fits(g.backOff) && Reset(g.backOff) && FitsDraw(g.backOff, jtr) && now > g.backOff.end
    ensures later < now + Current(g.backOff) ==>
              AllowedDelta(cfg, Handled(cfg, g, LauncherDone(l, false, now, jtr)), up, later) == 0
    ensures var h := Handled(cfg, g, LauncherDone(l, true, now, jtr));
            h.backOff == g.backOff.(current := g.backOff.initial)
  {
    UpdatedStep(g.backOff, Status(false, now, jtr));
    UpdatedStep(g.backOff, Status(true, now, jtr));
  }

  /** In every run whose draws are possible, a poll launches nothing before the last failed dial
      of the streak is as long ago as the delay promised for it: the initial delay, doubled with
      every failure before it, up to the maximum. */
  lemma DialsAreSpaced(cfg: Config, g: Gov, es: seq<Event>, e: Event)
    requires e.Poll? && Fits(g.backOff) && Reset(g.backOff) && Drawn(g.backOff, Statuses(es))
    requires Run(cfg, g, es + [e]).nextId > Run(cfg, g, es).nextId
    ensures var fs := Failures(g.backOff, Statuses(es));
            fs != [] ==> e.now >= fs[|fs| - 1] + Promised(g.backOff, |fs| - 1)
  {
    assert (es + [e])[..|es|] == es;
    CompletionsBackOff(cfg, g, es);
    FailuresSpaced(g.backOff, Statuses(es));
  }

  /** A replacement for a quit worker ignores the settle period, the back-off and closing. */
  lemma ReplacementIgnoresPacing(cfg: Config, g: Gov, w: Id, inClosed: bool)
    requires !g.stopped
    ensures var after := Handled(cfg, g, WorkerDone(w, true, inClosed));
            after.nextId == g.nextId + 1 && after.launchers == g.launchers + {g.nextId} && !after.stopped
  {
    assert NewIds(g.nextId, 1) == {g.nextId};
  }
}
