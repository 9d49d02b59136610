/** What every interleaving of the fleet keeps: the capacity bound, what a stopped
    governor implies, and the fate of every attempt. */
module FleetSafety {
  import opened Words
  import BackOff
  import opened Governor
  import opened Fleet
  import opened RetryPath

  // ---- The invariant ---------------------------------------------------------

  predicate InClosedExit(w: Work) {
    (w.AtExit? || w.Reported?) && w.inClosed
  }

  predicate Quit(w: Work) {
    (w.AtExit? || w.Reported?) && w.didQuit
  }

  /** The governor's two maps say exactly this about one connection. */
  ghost predicate Tracked(s: Sys, i: Id)
    requires i < |s.conns|
  {
    var c := s.conns[i];
    && (i in s.g.launchers <==> !c.launch.Seen?)
    && (i in s.g.streamers <==> c.launch == Seen(true) && (c.work.Reported? ==> c.work.early))
    && (c.launch.Aborted? ==> s.g.stopped)
  }

  ghost predicate ConnOk(s: Sys, i: Id)
    requires i < |s.conns|
  {
    var c := s.conns[i];
    && Tracked(s, i)
    && (c.work.Unborn? <==> !Started(c.launch))
    && (c.work.Busy? ==>
          c.work.t < |s.attempts| && s.attempts[c.work.t].w == i && OnWorker(s.attempts[c.work.t].stage))
    && (c.work.Reported? && !c.work.early ==> c.launch == Seen(true))
    && (Quit(c.work) ==> c.condemned && c.used && !InClosedExit(c.work))
    && (InClosedExit(c.work) || c.work.Draining? ==> s.outClosed)
    && (c.work.AtExit? && !Quit(c.work) && !InClosedExit(c.work) ==> s.hard)
    && (c.work.Reported? ==> Quit(c.work) || InClosedExit(c.work))
    && (c.work.Reported? && c.work.inClosed ==> s.g.closing)
    && (c.work.Vanished? ==> c.condemned || s.hard)
    && (c.condemned ==> c.used) && (c.used ==> !c.work.Unborn?)
  }

  ghost predicate AttemptOk(s: Sys, t: nat)
    requires t < |s.attempts|
  {
    var a := s.attempts[t];
    && a.w < |s.conns|
    && var c := s.conns[a.w];
    && !c.work.Unborn? && c.used
    && (OnWorker(a.stage) ==> c.work == Busy(t))
    && ((a.stage.Calling? || a.stage.Called?) && !a.stage.usable ==> c.condemned)
    && (a.stage.Calling? && a.stage.inline ==> a.stage.usable)
    && (a.stage == Ended(CutOff) || (a.stage.Called? && a.stage.result == CutOff) ==> c.condemned || s.hard)
    && (a.stage.Called? ==> a.stage.result != Requeued)
    && a.calls == (if a.stage.Exec? || a.stage.Flight? || a.stage.Retrying? || a.stage == Ended(Requeued) then 0 else 1)
    && (InClosedExit(c.work) ==> a.stage.Ended?)
  }

  ghost predicate GovOk(s: Sys) {
    && |s.conns| == s.g.nextId
    && (forall i :: i in s.g.launchers || i in s.g.streamers ==> i < |s.conns|)
    && (s.g.closing ==> s.outClosed)
    && (s.hard ==> s.g.stopped && s.killed)
    && PathOk(s.path, s.killed)
    && (!s.hard ==> (s.g.stopped <==> s.g.closing && s.g.launchers == {} && s.g.streamers == {}))
  }

  ghost predicate Inv(s: Sys) {
    && GovOk(s)
    && (forall i :: 0 <= i < |s.conns| ==> ConnOk(s, i))
    && (forall t :: 0 <= t < |s.attempts| ==> AttemptOk(s, t))
  }

  // ---- Every step keeps it ---------------------------------------------------

  lemma KeepsLauncherDone(cfg: Config, s: Sys, e: Event)
    requires Inv(s) && EnabledGov(s, e) && e.LauncherDone?
    ensures Inv(NextGov(cfg, s, e))
  {
    var s' := NextGov(cfg, s, e);
    assert |s'.conns| == |s.conns|;
    forall i | 0 <= i < |s'.conns| ensures ConnOk(s', i) {
      assert ConnOk(s, i);
    }
    forall t | 0 <= t < |s'.attempts| ensures AttemptOk(s', t) {
      assert AttemptOk(s, t);
    }
  }

  lemma KeepsWorkerDone(cfg: Config, s: Sys, e: Event)
    requires Inv(s) && EnabledGov(s, e) && e.WorkerDone?
    ensures Inv(NextGov(cfg, s, e))
  {
    var s' := NextGov(cfg, s, e);
    assert ConnOk(s, e.w);
    forall i | 0 <= i < |s'.conns| ensures ConnOk(s', i) {
      if i < |s.conns| {
        assert ConnOk(s, i);
      } else {
        assert s'.conns[i] == Fresh;
      }
    }
    forall t | 0 <= t < |s'.attempts| ensures AttemptOk(s', t) {
      assert AttemptOk(s, t);
    }
  }

  lemma KeepsPoll(cfg: Config, s: Sys, e: Event)
    requires Inv(s) && EnabledGov(s, e) && (e.Poll? || e.HardStop?)
    ensures Inv(NextGov(cfg, s, e))
  {
    var s' := NextGov(cfg, s, e);
    forall i | 0 <= i < |s'.conns| ensures ConnOk(s', i) {
      if i < |s.conns| {
        assert ConnOk(s, i);
      } else {
        assert s'.conns[i] == Fresh;
      }
    }
    forall t | 0 <= t < |s'.attempts| ensures AttemptOk(s', t) {
      assert AttemptOk(s, t);
    }
  }

  /** A change of one connection concerns that connection and its attempts. */
  lemma KeepsOthers(s: Sys, i: Id, c: Conn)
    requires Inv(s) && i < |s.conns|
    requires ConnOk(s.(conns := s.conns[i := c]), i)
    requires forall t :: 0 <= t < |s.attempts| && s.attempts[t].w == i ==> AttemptOk(s.(conns := s.conns[i := c]), t)
    ensures Inv(s.(conns := s.conns[i := c]))
  {
    var s' := s.(conns := s.conns[i := c]);
    forall j | 0 <= j < |s'.conns| ensures ConnOk(s', j) {
      assert ConnOk(s, j);
    }
    forall t | 0 <= t < |s'.attempts| ensures AttemptOk(s', t) {
      assert AttemptOk(s, t);
    }
  }

  lemma KeepsLaunch(s: Sys, e: Step)
    requires Inv(s) && EnabledConn(s, e) && (e.DialOk? || e.DialFail? || e.LauncherAborts?)
    ensures Inv(NextConn(s, e))
  {
    var s' := NextConn(s, e);
    assert ConnOk(s, e.i);
    forall t | 0 <= t < |s.attempts| && s.attempts[t].w == e.i ensures AttemptOk(s', t) {
      assert AttemptOk(s, t);
    }
    KeepsOthers(s, e.i, s'.conns[e.i]);
  }

  lemma KeepsLeave(s: Sys, e: Step)
    requires Inv(s) && EnabledConn(s, e) && !e.DialOk? && !e.DialFail? && !e.LauncherAborts? && !e.Take?
    ensures Inv(NextConn(s, e))
  {
    var s' := NextConn(s, e);
    assert ConnOk(s, e.i);
    forall t | 0 <= t < |s.attempts| && s.attempts[t].w == e.i ensures AttemptOk(s', t) {
      assert AttemptOk(s, t);
    }
    KeepsOthers(s, e.i, s'.conns[e.i]);
  }

  lemma KeepsTake(s: Sys, i: Id)
    requires Inv(s) && EnabledConn(s, Take(i))
    ensures Inv(NextConn(s, Take(i)))
  {
    var s' := NextConn(s, Take(i));
    assert ConnOk(s, i);
    forall j | 0 <= j < |s'.conns| ensures ConnOk(s', j) {
      assert ConnOk(s, j);
    }
    forall t | 0 <= t < |s'.attempts| ensures AttemptOk(s', t) {
      if t < |s.attempts| {
        assert AttemptOk(s, t);
      }
    }
  }

  lemma KeepsConn(s: Sys, e: Step)
    requires Inv(s) && EnabledConn(s, e)
    ensures Inv(NextConn(s, e))
  {
    if e.Take? {
      KeepsTake(s, e.i);
    } else if e.DialOk? || e.DialFail? || e.LauncherAborts? {
      KeepsLaunch(s, e);
    } else {
      KeepsLeave(s, e);
    }
  }

  /** A new stage for one attempt, with the worker's own goroutine freed or left alone. */
  lemma KeepsStage(s: Sys, t: nat, a: Attempt, c: Conn, s': Sys)
    requires Inv(s) && ValidAttempt(s, t) && a.w == s.attempts[t].w
    requires s' == s.(attempts := s.attempts[t := a], conns := s.conns[a.w := c], path := s'.path)
    requires PathOk(s'.path, s.killed)
    requires !s.attempts[t].stage.Ended?
    requires c.launch == s.conns[a.w].launch && c.used == s.conns[a.w].used
    requires s.conns[a.w].condemned ==> c.condemned
    requires c.work == s.conns[a.w].work || (s.conns[a.w].work == Busy(t) && c.work == Idle)
    requires OnWorker(a.stage) <==> c.work == Busy(t)
    requires AttemptOk(s', t)
    ensures Inv(s')
  {
    var w := a.w;
    assert AttemptOk(s, t) && ConnOk(s, w);
    forall i | 0 <= i < |s'.conns| ensures ConnOk(s', i) {
      assert ConnOk(s, i);
      if s.conns[i].work.Busy? {
        assert AttemptOk(s, s.conns[i].work.t);
      }
    }
    forall u | 0 <= u < |s'.attempts| ensures AttemptOk(s', u) {
      assert AttemptOk(s, u);
    }
  }

  lemma KeepsReturn(s: Sys, t: nat, fate: Fate)
    requires Inv(s) && ValidAttempt(s, t) && s.attempts[t].stage.Calling?
    requires fate != Requeued && (fate == CutOff ==> s.conns[s.attempts[t].w].condemned || s.hard)
    ensures Inv(CallReturns(s, t, fate))
  {
    var s' := CallReturns(s, t, fate);
    var w := s.attempts[t].w;
    assert AttemptOk(s, t) && ConnOk(s, w);
    assert s'.conns == s.conns[w := s'.conns[w]];
    KeepsStage(s, t, s'.attempts[t], s'.conns[w], s');
  }

  lemma ControlClosedOnlyHard(s: Sys, i: Id)
    requires Inv(s) && WorkerControlClosed(s, i)
    ensures s.hard
  {}

  predicate Returns(e: Step) {
    e.Deliver? || e.Discard? || e.CutByClose?
  }

  lemma KeepsReturns(s: Sys, e: Step)
    requires Inv(s) && EnabledAttempt(s, e) && Returns(e)
    ensures Inv(NextAttempt(s, e))
  {
    assert AttemptOk(s, e.t);
    if e.CutByClose? {
      ControlClosedOnlyHard(s, s.attempts[e.t].w);
    }
    KeepsReturn(s, e.t, if e.Deliver? then Delivered else if e.Discard? then Discarded else CutOff);
  }

  lemma KeepsAttempt(s: Sys, e: Step)
    requires Inv(s) && EnabledAttempt(s, e) && !e.Signal?
    ensures Inv(NextAttempt(s, e))
  {
    if Returns(e) {
      KeepsReturns(s, e);
    } else {
      var s' := NextAttempt(s, e);
      var w := s.attempts[e.t].w;
      assert AttemptOk(s, e.t) && ConnOk(s, w);
      assert s'.conns == s.conns[w := s'.conns[w]];
      KeepsStage(s, e.t, s'.attempts[e.t], s'.conns[w], s');
    }
  }

  lemma KeepsSignal(s: Sys, t: nat, to: Receiver)
    requires Inv(s) && ValidAttempt(s, t) && EnabledSignal(s, t, to)
    ensures Inv(NextSignal(s, t, to))
  {
    var w := s.attempts[t].w;
    assert AttemptOk(s, t) && ConnOk(s, w);
    var s1 := WithStage(s, t, Ended(s.attempts[t].stage.result));
    assert s1.conns == s.conns[w := s.conns[w]];
    KeepsStage(s, t, s1.attempts[t], s.conns[w], s1);
    assert ConnOk(s1, w);
    match to
    case BlockedCall(u) => KeepsReturn(s1, u, CutOff);
    case Nobody =>
    case _ => KeepsWork(s1, w, NextSignal(s, t, to).conns[w].work);
  }

  /** A quit signal reaches the worker's own goroutine. */
  lemma KeepsWork(s: Sys, i: Id, work: Work)
    requires Inv(s) && i < |s.conns| && s.conns[i].condemned
    requires (s.conns[i].work.Idle? && work == AtExit(true, false)) || (s.conns[i].work.AtExit? && work == Vanished)
    ensures Inv(WithWork(s, i, work))
  {
    var s' := WithWork(s, i, work);
    assert ConnOk(s, i);
    forall j | 0 <= j < |s'.conns| ensures ConnOk(s', j) {
      assert ConnOk(s, j);
    }
    forall t | 0 <= t < |s'.attempts| ensures AttemptOk(s', t) {
      assert AttemptOk(s, t);
    }
  }

  lemma KeepsReceive(cfg: Config, s: Sys, e: Event)
    requires Inv(s) && EnabledGov(s, e)
    ensures Inv(NextGov(cfg, s, e))
  {
    match e
    case LauncherDone(_, _, _, _) => KeepsLauncherDone(cfg, s, e);
    case WorkerDone(_, _, _) => KeepsWorkerDone(cfg, s, e);
    case _ => KeepsPoll(cfg, s, e);
  }

  /** Steps that concern no connection and no attempt. */
  lemma KeepsAside(s: Sys, path: Path, outClosed: bool, killed: bool)
    requires Inv(s) && (s.outClosed ==> outClosed) && (s.killed ==> killed) && PathOk(path, killed)
    ensures Inv(s.(path := path, outClosed := outClosed, killed := killed))
  {
    var s' := s.(path := path, outClosed := outClosed, killed := killed);
    forall i | 0 <= i < |s'.conns| ensures ConnOk(s', i) {
      assert ConnOk(s, i);
    }
    forall t | 0 <= t < |s'.attempts| ensures AttemptOk(s', t) {
      assert AttemptOk(s, t);
    }
  }

  predicate Aside(e: Step) {
    e.CloseOut? || e.Kill? || e.Forward? || e.Requeue?
  }

  /** Neither a request handed to a worker or back to the submitter, nor part of a shutdown. */
  predicate Internal(e: Step) {
    !e.CloseOut? && !e.Kill? && !e.Take? && !e.Requeue?
  }

  /** No step of any goroutine breaks the invariant. */
  lemma KeepsInv(cfg: Config, s: Sys, e: Step)
    requires Inv(s) && Enabled(s, e)
    ensures Inv(Next(cfg, s, e))
  {
    if e.Receive? {
      KeepsReceive(cfg, s, e.e);
    } else if Aside(e) {
      var s' := Next(cfg, s, e);
      if e.Forward? {
        MovedKeeps(s.path, e.m, s.killed);
      }
      KeepsAside(s, s'.path, s'.outClosed, s'.killed);
    } else if EnabledConn(s, e) {
      KeepsConn(s, e);
    } else if e.Signal? {
      KeepsSignal(s, e.t, e.to);
    } else {
      KeepsAttempt(s, e);
    }
  }

  /** A round trip or a call can change a worker only between taking requests and leaving. */
  predicate Touched(c: Conn, c': Conn) {
    && c'.launch == c.launch
    && (c.work.Reported? || c.work.Unborn? || c.work.Vanished? || c.work.Draining? ==> c'.work == c.work)
    && (c'.work.Reported? || c'.work.Unborn? || c'.work.Draining? ==> c'.work == c.work)
  }

  lemma ReturnTouches(s: Sys, t: nat, fate: Fate)
    requires Inv(s) && ValidAttempt(s, t) && s.attempts[t].stage.Calling?
    ensures var s' := CallReturns(s, t, fate);
            |s'.conns| == |s.conns| && forall i :: 0 <= i < |s.conns| ==>
              Touched(s.conns[i], s'.conns[i]) && (s'.conns[i].work.Vanished? ==> s.conns[i].work.Vanished?)
  {
    assert AttemptOk(s, t);
  }

  lemma SignalTouches(s: Sys, t: nat, to: Receiver)
    requires Inv(s) && ValidAttempt(s, t) && EnabledSignal(s, t, to)
    ensures var s' := NextSignal(s, t, to);
            |s'.conns| == |s.conns| && forall i :: 0 <= i < |s.conns| ==>
              && Touched(s.conns[i], s'.conns[i])
              && (s'.conns[i].work.Vanished? ==> s.conns[i].work.Vanished? || to.ExitSelect?)
  {
    assert AttemptOk(s, t);
    if to.BlockedCall? {
      assert AttemptOk(s, to.t);
    }
  }

  lemma AttemptTouches(s: Sys, e: Step)
    requires Inv(s) && EnabledAttempt(s, e)
    ensures var s' := NextAttempt(s, e);
            |s'.conns| == |s.conns| && forall i :: 0 <= i < |s.conns| ==>
              && Touched(s.conns[i], s'.conns[i])
              && (s'.conns[i].work.Vanished? ==> s.conns[i].work.Vanished? || (e.Signal? && e.to.ExitSelect?))
  {
    if e.Deliver? {
      ReturnTouches(s, e.t, Delivered);
    } else if e.Discard? {
      ReturnTouches(s, e.t, Discarded);
    } else if e.CutByClose? {
      ReturnTouches(s, e.t, CutOff);
    } else if e.Signal? {
      SignalTouches(s, e.t, e.to);
    } else {
      assert AttemptOk(s, e.t);
    }
  }

  // ---- Runs ------------------------------------------------------------------

  predicate ValidRun(cfg: Config, s: Sys, es: seq<Step>)
    decreases |es|
  {
    es != [] ==> Enabled(s, es[0]) && ValidRun(cfg, Next(cfg, s, es[0]), es[1..])
  }

  function Final(cfg: Config, s: Sys, es: seq<Step>): Sys
    requires ValidRun(cfg, s, es)
    decreases |es|
  {
    if es == [] then s else Final(cfg, Next(cfg, s, es[0]), es[1..])
  }

  /** The governor just started: its first scale-up has launched what it may. */
  function Begin(cfg: Config, backOff: BackOff.Tracker, now: int): Sys {
    var g := Upscaled(cfg, Initial(backOff), now);
    Sys(g, Extended([], g.nextId), [], EmptyPath, false, false, false)
  }

  // ---- Capacity --------------------------------------------------------------

  /** Launching or running, as long as the governor has not received its end. */
  predicate Live(c: Conn) {
    c.launch != Seen(false) && !c.work.Reported?
  }

  function LiveIds(conns: seq<Conn>): set<Id> {
    set i | 0 <= i < |conns| && Live(conns[i])
  }

  lemma SubsetCount(a: set<Id>, b: set<Id>)
    requires a <= b
    ensures |a| <= |b|
  {
    assert b == a + (b - a);
  }

  lemma BeginInv(cfg: Config, backOff: BackOff.Tracker, now: int)
    ensures var s := Begin(cfg, backOff, now); Inv(s) && |LiveIds(s.conns)| <= cfg.maxConns
  {
    var s := Begin(cfg, backOff, now);
    UpscaleFits(cfg, Initial(backOff), {}, now);
    CapacityExtended([], s.g.nextId);
    assert LiveIds([]) == {};
  }

  /** What the governor knows covers every live connection. */
  lemma LiveAreKnown(s: Sys)
    requires Inv(s)
    ensures LiveIds(s.conns) <= s.g.launchers + s.g.streamers
  {
    forall i | i in LiveIds(s.conns) ensures i in s.g.launchers + s.g.streamers {
      assert ConnOk(s, i);
    }
  }

  /** A worker whose exit was received before its launcher's completion. */
  predicate Early(c: Conn) {
    c.work.Reported? && c.work.early
  }

  ghost predicate NoneEarly(s: Sys) {
    forall i :: 0 <= i < |s.conns| ==> !Early(s.conns[i])
  }

  /** The governor counts exactly the live connections if and only if no worker's exit was
      received before its launcher's completion; otherwise it counts more. */
  lemma KnownAreLiveIff(s: Sys)
    requires Inv(s)
    ensures s.g.launchers + s.g.streamers == LiveIds(s.conns) <==> NoneEarly(s)
    ensures |s.g.launchers| + |s.g.streamers| == |LiveIds(s.conns)| <==> NoneEarly(s)
  {
    LiveAreKnown(s);
    var known, live := s.g.launchers + s.g.streamers, LiveIds(s.conns);
    if NoneEarly(s) {
      forall i | i in known ensures i in live {
        assert ConnOk(s, i) && !Early(s.conns[i]);
      }
    } else {
      var i :| 0 <= i < |s.conns| && Early(s.conns[i]);
      assert ConnOk(s, i);
      assert i in known && i !in live;
      SubsetCount(live, known - {i});
    }
    forall i | i in s.g.launchers ensures i !in s.g.streamers {
      assert ConnOk(s, i);
    }
    assert s.g.launchers !! s.g.streamers;
  }

  /** A scale-up adds what the maximum leaves room for. */
  lemma UpscaleFits(cfg: Config, g: Governor.Gov, live: set<Id>, now: int)
    requires live <= g.launchers + g.streamers && |live| <= cfg.maxConns && |g.streamers| < TWO32
    ensures var n := Max(AllowedDelta(cfg, g, true, now), 0);
            n > 0 ==> |live| + n <= cfg.maxConns
  {
    if AllowedDelta(cfg, g, true, now) > 0 {
      assert g.launchers == {};
      SubsetCount(live, g.streamers);
    }
  }

  lemma CapacityPoll(cfg: Config, s: Sys, e: Event)
    requires Inv(s) && |LiveIds(s.conns)| <= cfg.maxConns
    requires EnabledGov(s, e) && e.Poll?
    ensures |LiveIds(NextGov(cfg, s, e).conns)| <= cfg.maxConns
  {
    var live := LiveIds(s.conns);
    LiveAreKnown(s);
    UpscaleFits(cfg, s.g, live, e.now);
    var n := Handled(cfg, s.g, e).nextId - s.g.nextId;
    CapacityExtended(s.conns, n);
  }

  lemma CapacityExtended(conns: seq<Conn>, n: nat)
    ensures |LiveIds(Extended(conns, n))| <= |LiveIds(conns)| + n
  {
    NewIdsCount(|conns|, n);
    SubsetCount(LiveIds(Extended(conns, n)), LiveIds(conns) + NewIds(|conns|, n));
  }

  lemma CapacityWorkerDone(cfg: Config, s: Sys, e: Event)
    requires Inv(s) && |LiveIds(s.conns)| <= cfg.maxConns
    requires EnabledGov(s, e) && e.WorkerDone?
    ensures |LiveIds(NextGov(cfg, s, e).conns)| <= cfg.maxConns
  {
    var s' := NextGov(cfg, s, e);
    assert ConnOk(s, e.w) && e.w in LiveIds(s.conns);
    SubsetCount(LiveIds(s'.conns), LiveIds(s.conns) - {e.w} + {s.g.nextId});
    if !e.didQuit {
      SubsetCount(LiveIds(s'.conns), LiveIds(s.conns));
    }
  }

  predicate NoneRevived(s: Sys, s': Sys) {
    |s'.conns| == |s.conns| && forall i :: 0 <= i < |s.conns| && Live(s'.conns[i]) ==> Live(s.conns[i])
  }

  lemma ConnRevivesNone(s: Sys, e: Step)
    requires Inv(s) && EnabledConn(s, e)
    ensures NoneRevived(s, NextConn(s, e))
  {
    assert ConnOk(s, e.i);
  }

  lemma AttemptRevivesNone(s: Sys, e: Step)
    requires Inv(s) && EnabledAttempt(s, e)
    ensures NoneRevived(s, NextAttempt(s, e))
  {
    AttemptTouches(s, e);
  }

  lemma ReceiveRevivesNone(cfg: Config, s: Sys, e: Event)
    requires Inv(s) && EnabledGov(s, e) && (e.LauncherDone? || e.HardStop?)
    ensures NoneRevived(s, NextGov(cfg, s, e))
  {
    assert |NextGov(cfg, s, e).conns| == |s.conns|;
  }

  lemma ElseRevivesNone(cfg: Config, s: Sys, e: Step)
    requires Inv(s) && Enabled(s, e)
    requires e.Receive? ==> !e.e.Poll? && !e.e.WorkerDone?
    ensures NoneRevived(s, Next(cfg, s, e))
  {
    if e.Receive? {
      ReceiveRevivesNone(cfg, s, e.e);
    } else if Aside(e) {
    } else if EnabledConn(s, e) {
      ConnRevivesNone(s, e);
    } else {
      AttemptRevivesNone(s, e);
    }
  }

  lemma CapacityElse(s: Sys, s': Sys)
    requires NoneRevived(s, s')
    ensures |LiveIds(s'.conns)| <= |LiveIds(s.conns)|
  {
    SubsetCount(LiveIds(s'.conns), LiveIds(s.conns));
  }

  /** In every run, connections launching or running whose end the governor has not
      received never exceed the configured maximum. */
  lemma {:induction false} Capacity(cfg: Config, s: Sys, es: seq<Step>)
    requires Inv(s) && |LiveIds(s.conns)| <= cfg.maxConns
    requires ValidRun(cfg, s, es)
    ensures Inv(Final(cfg, s, es)) && |LiveIds(Final(cfg, s, es).conns)| <= cfg.maxConns
    decreases |es|
  {
    if es != [] {
      var e := es[0];
      KeepsInv(cfg, s, e);
      if e.Receive? && e.e.Poll? {
        CapacityPoll(cfg, s, e.e);
      } else if e.Receive? && e.e.WorkerDone? {
        CapacityWorkerDone(cfg, s, e.e);
      } else {
        ElseRevivesNone(cfg, s, e);
        CapacityElse(s, Next(cfg, s, e));
      }
      Capacity(cfg, Next(cfg, s, e), es[1..]);
    }
  }

  lemma ReachableInv(cfg: Config, backOff: BackOff.Tracker, now: int, es: seq<Step>)
    requires ValidRun(cfg, Begin(cfg, backOff, now), es)
    ensures var s := Final(cfg, Begin(cfg, backOff, now), es);
            Inv(s) && |LiveIds(s.conns)| <= cfg.maxConns
  {
    BeginInv(cfg, backOff, now);
    Capacity(cfg, Begin(cfg, backOff, now), es);
  }

  // ---- A soft stop -----------------------------------------------------------

  /** Settled by one callBack, or handed back for another attempt. */
  predicate Accounted(a: Attempt) {
    || (a.stage == Ended(Delivered) && a.calls == 1)
    || (a.stage == Ended(Discarded) && a.calls == 1)
    || (a.stage == Ended(Requeued) && a.calls == 0)
  }

  /** No connection is live, the input is closed, and every attempt is accounted for
      unless its connection had been judged unusable. */
  ghost predicate WoundDown(s: Sys) {
    && s.outClosed && LiveIds(s.conns) == {}
    && forall t :: 0 <= t < |s.attempts| ==>
         && s.attempts[t].w < |s.conns|
         && (s.conns[s.attempts[t].w].condemned || Accounted(s.attempts[t]))
  }

  lemma StoppedIsWoundDown(s: Sys)
    requires Inv(s) && s.g.stopped && !s.hard
    ensures WoundDown(s)
  {
    LiveAreKnown(s);
    forall t | 0 <= t < |s.attempts|
      ensures s.attempts[t].w < |s.conns| && (s.conns[s.attempts[t].w].condemned || Accounted(s.attempts[t]))
    {
      assert AttemptOk(s, t);
      var i := s.attempts[t].w;
      assert ConnOk(s, i) && i !in LiveIds(s.conns);
      assert s.conns[i].work.Reported?;
      if !s.conns[i].condemned {
        var fate := s.attempts[t].stage.fate;
        assert s.attempts[t].stage == Ended(fate) && fate != CutOff;
        assert fate == Delivered || fate == Discarded || fate == Requeued;
      }
    }
  }

  /** A governor that stopped on its own, in any run, has wound everything down. */
  lemma SoftStop(cfg: Config, backOff: BackOff.Tracker, now: int, es: seq<Step>)
    requires ValidRun(cfg, Begin(cfg, backOff, now), es)
    ensures var s := Final(cfg, Begin(cfg, backOff, now), es);
            s.g.stopped && !s.hard ==> WoundDown(s)
  {
    var s := Final(cfg, Begin(cfg, backOff, now), es);
    ReachableInv(cfg, backOff, now, es);
    if s.g.stopped && !s.hard {
      StoppedIsWoundDown(s);
    }
  }

  /** callBack is entered at most once for an attempt, whatever happens. */
  lemma CalledAtMostOnce(cfg: Config, backOff: BackOff.Tracker, now: int, es: seq<Step>)
    requires ValidRun(cfg, Begin(cfg, backOff, now), es)
    ensures forall a :: a in Final(cfg, Begin(cfg, backOff, now), es).attempts ==> a.calls <= 1
  {
    var s := Final(cfg, Begin(cfg, backOff, now), es);
    ReachableInv(cfg, backOff, now, es);
    forall t | 0 <= t < |s.attempts| ensures s.attempts[t].calls <= 1 {
      assert AttemptOk(s, t);
    }
  }

  /** The quit signal meets a closed control channel, which panics. */
  predicate SendPanics(s: Sys, t: nat) {
    && ValidAttempt(s, t) && s.attempts[t].stage.Called? && !s.attempts[t].stage.usable
    && WorkerControlClosed(s, s.attempts[t].w)
  }

  /** A round trip about to quit its connection panics exactly when the governor was stopped
      hard while it knew the worker: it had received the launcher's completion, and the
      worker's exit either not at all or before that.  Otherwise the signal goes through. */
  lemma SignalsAreSafe(s: Sys, t: nat)
    requires Inv(s) && ValidAttempt(s, t) && s.attempts[t].stage.Called? && !s.attempts[t].stage.usable
    ensures var c := s.conns[s.attempts[t].w];
            SendPanics(s, t) <==> s.hard && c.launch == Seen(true) && (c.work.Reported? ==> c.work.early)
    ensures SendPanics(s, t) <==> forall to :: !EnabledSignal(s, t, to)
  {
    var i := s.attempts[t].w;
    assert ConnOk(s, i) && AttemptOk(s, t);
    assert !WorkerControlClosed(s, i) ==> EnabledSignal(s, t, Nobody);
  }

  /** A quit signal may be received by another call that is blocked on the same channel: that
      call's result is dropped, the signal is spent, and the worker does not quit. */
  lemma BlockedCallTakesSignal(s: Sys, t: nat, u: nat)
    requires Inv(s) && ValidAttempt(s, t) && EnabledSignal(s, t, BlockedCall(u))
    ensures var s' := NextSignal(s, t, BlockedCall(u));
            var i := s.attempts[t].w;
            && u < |s'.attempts| && t < |s'.attempts| && i < |s'.conns|
            && (s'.attempts[u].stage == Ended(CutOff)
                || (s'.attempts[u].stage.Called? && s'.attempts[u].stage.result == CutOff))
            && s'.attempts[t].stage.Ended?
            && (s'.conns[i].work == s.conns[i].work || (s.conns[i].work == Busy(u) && s'.conns[i].work.Idle?))
  {
    assert AttemptOk(s, t) && AttemptOk(s, u);
  }

  /** Once the governor has stopped, exactly the running workers whose launchers it had
      received are told: one still waiting behind its launcher runs on. */
  lemma StopTellsReceivedWorkers(s: Sys, i: Id)
    requires Inv(s) && s.g.stopped && i < |s.conns|
    requires !s.conns[i].work.Unborn? && !s.conns[i].work.Reported?
    ensures WorkerControlClosed(s, i) <==> s.conns[i].launch.Seen?
  {
    assert ConnOk(s, i);
  }

  // ---- A clean run -----------------------------------------------------------

  /** No hard stop, no retry, and no connection judged unusable. */
  predicate CleanStep(e: Step) {
    e != Receive(HardStop) && !e.Retry? && !(e.Respond? && !e.usable)
  }

  predicate Clean(es: seq<Step>) {
    forall k :: 0 <= k < |es| ==> CleanStep(es[k])
  }

  predicate Untouched(s: Sys) {
    && !s.hard
    && (forall i :: 0 <= i < |s.conns| ==> !s.conns[i].condemned)
    && (forall t :: 0 <= t < |s.attempts| ==> !s.attempts[t].stage.Retrying? && s.attempts[t].stage != Ended(Requeued))
  }

  lemma UntouchedAttempt(s: Sys, e: Step)
    requires Inv(s) && Untouched(s) && EnabledAttempt(s, e) && CleanStep(e)
    ensures Untouched(NextAttempt(s, e))
  {
    assert AttemptOk(s, e.t);
  }

  lemma UntouchedConn(s: Sys, e: Step)
    requires Inv(s) && Untouched(s) && EnabledConn(s, e)
    ensures Untouched(NextConn(s, e))
  {}

  lemma UntouchedReceive(cfg: Config, s: Sys, e: Event)
    requires Inv(s) && Untouched(s) && EnabledGov(s, e) && !e.HardStop?
    ensures Untouched(NextGov(cfg, s, e))
  {}

  lemma UntouchedStep(cfg: Config, s: Sys, e: Step)
    requires Inv(s) && Untouched(s) && Enabled(s, e) && CleanStep(e)
    ensures Untouched(Next(cfg, s, e))
  {
    if e.Receive? {
      UntouchedReceive(cfg, s, e.e);
    } else if EnabledConn(s, e) {
      UntouchedConn(s, e);
    } else if !Aside(e) {
      UntouchedAttempt(s, e);
    }
  }

  lemma {:induction false} CleanRun(cfg: Config, s: Sys, es: seq<Step>)
    requires Inv(s) && Untouched(s) && ValidRun(cfg, s, es) && Clean(es)
    ensures Inv(Final(cfg, s, es)) && Untouched(Final(cfg, s, es))
    decreases |es|
  {
    if es != [] {
      KeepsInv(cfg, s, es[0]);
      UntouchedStep(cfg, s, es[0]);
      CleanRun(cfg, Next(cfg, s, es[0]), es[1..]);
    }
  }

  /** The soft drain: in a clean run the governor signals done only once every request
      handed to a worker has been settled by exactly one callBack.  Pipeline.StopDrains says
      the same of a Stop that returns. */
  lemma SoftDrain(cfg: Config, backOff: BackOff.Tracker, now: int, es: seq<Step>)
    requires ValidRun(cfg, Begin(cfg, backOff, now), es) && Clean(es)
    ensures var s := Final(cfg, Begin(cfg, backOff, now), es);
            s.g.stopped ==>
              forall a :: a in s.attempts ==>
                a.calls == 1 && (a.stage == Ended(Delivered) || a.stage == Ended(Discarded))
  {
    var s := Final(cfg, Begin(cfg, backOff, now), es);
    BeginInv(cfg, backOff, now);
    CleanRun(cfg, Begin(cfg, backOff, now), es);
    if s.g.stopped {
      StoppedIsWoundDown(s);
    }
  }
}
