/** A soft stop from the moment the governor is closing: every goroutine step uses up a
    measure, and the fleet at rest tells exactly when the stop succeeds. */
module FleetTermination {
  import BackOff
  import opened Governor
  import opened Fleet
  import opened FleetSafety
  import opened RetryPath

  // ---- The measure -------------------------------------------------------------

  function LaunchWeight(l: Launch): nat {
    match l
    case Dialing => 2
    case Ready(_) => 1
    case Seen(_) => 0
    case Aborted(_) => 0
  }

  /** A used connection may still quit, and its replacement has to be paid for. */
  function WorkWeight(c: Conn): nat {
    match c.work
    case Unborn => 4
    case Idle => if c.used then 10 else 3
    case Busy(_) => if c.used then 10 else 3
    case Draining => 2
    case AtExit(didQuit, _) => if didQuit then 8 else 1
    case Reported(_, _, _) => 0
    case Vanished => 0
  }

  function StageWeight(s: Stage): nat {
    match s
    case Exec => 7
    case Flight => 6
    case Retrying => 5
    case Calling(_, blocked, _) => if blocked then 3 else 4
    case Called(_, _) => 2
    case Ended(_) => 0
  }

  function ConnsWeight(conns: seq<Conn>): nat {
    if conns == [] then 0
    else ConnsWeight(conns[1..]) + LaunchWeight(conns[0].launch) + WorkWeight(conns[0])
  }

  function AttemptsWeight(attempts: seq<Attempt>): nat {
    if attempts == [] then 0 else AttemptsWeight(attempts[1..]) + StageWeight(attempts[0].stage)
  }

  function PathWeight(p: Path): nat {
    4 * |p.ch| + 2 * |p.buffer|
    + (if p.forwarder.Holds? then 4 else if p.forwarder.Gone? then 0 else 1)
    + (if p.feeder.Gone? then 0 else 1)
  }

  function Measure(s: Sys): nat {
    ConnsWeight(s.conns) + AttemptsWeight(s.attempts) + PathWeight(s.path)
  }

  function ConnWeight(c: Conn): nat {
    LaunchWeight(c.launch) + WorkWeight(c)
  }

  lemma {:induction false} ConnsWeightUpdate(conns: seq<Conn>, i: nat, c: Conn)
    requires i < |conns|
    ensures ConnsWeight(conns[i := c]) == ConnsWeight(conns) - ConnWeight(conns[i]) + ConnWeight(c)
  {
    if i == 0 {
      assert conns[i := c][1..] == conns[1..];
    } else {
      assert conns[i := c][1..] == conns[1..][i - 1 := c];
      ConnsWeightUpdate(conns[1..], i - 1, c);
    }
  }

  lemma {:induction false} ConnsWeightAppend(conns: seq<Conn>, c: Conn)
    ensures ConnsWeight(conns + [c]) == ConnsWeight(conns) + ConnWeight(c)
  {
    if conns == [] {
      assert [] + [c] == [c];
    } else {
      assert (conns + [c])[1..] == conns[1..] + [c];
      ConnsWeightAppend(conns[1..], c);
    }
  }

  lemma {:induction false} AttemptsWeightUpdate(attempts: seq<Attempt>, t: nat, a: Attempt)
    requires t < |attempts|
    ensures AttemptsWeight(attempts[t := a])
         == AttemptsWeight(attempts) - StageWeight(attempts[t].stage) + StageWeight(a.stage)
  {
    if t == 0 {
      assert attempts[t := a][1..] == attempts[1..];
    } else {
      assert attempts[t := a][1..] == attempts[1..][t - 1 := a];
      AttemptsWeightUpdate(attempts[1..], t - 1, a);
    }
  }

  // ---- Every step uses it up ---------------------------------------------------

  /** Poll ticks do nothing once the governor is closing. */
  lemma PollIsIdle(cfg: Config, s: Sys, e: Event)
    requires Inv(s) && s.g.closing && EnabledGov(s, e) && e.Poll?
    ensures NextGov(cfg, s, e) == s
  {
    assert Handled(cfg, s.g, e) == s.g;
    assert Extended(s.conns, 0) == s.conns;
  }

  lemma LauncherDoneCountsDown(cfg: Config, s: Sys, e: Event)
    requires Inv(s) && EnabledGov(s, e) && e.LauncherDone?
    ensures Measure(NextGov(cfg, s, e)) < Measure(s)
  {
    var s' := NextGov(cfg, s, e);
    assert s'.conns == s.conns[e.l := s.conns[e.l].(launch := Seen(e.started))];
    ConnsWeightUpdate(s.conns, e.l, s'.conns[e.l]);
  }

  lemma WorkerDoneCountsDown(cfg: Config, s: Sys, e: Event)
    requires Inv(s) && EnabledGov(s, e) && e.WorkerDone?
    ensures Measure(NextGov(cfg, s, e)) < Measure(s)
  {
    var s' := NextGov(cfg, s, e);
    assert ConnOk(s, e.w);
    var conns := s.conns[e.w := s'.conns[e.w]];
    ConnsWeightUpdate(s.conns, e.w, s'.conns[e.w]);
    ConnsWeightAppend(conns, Fresh);
    assert s'.conns == if e.didQuit then conns + [Fresh] else conns;
  }

  lemma ConnCountsDown(s: Sys, e: Step)
    requires Inv(s) && s.outClosed && EnabledConn(s, e) && !e.Refresh?
    ensures Measure(NextConn(s, e)) < Measure(s)
  {
    var c := NextConn(s, e).conns[e.i];
    ConnWeighsLess(s, e);
    ConnsWeightUpdate(s.conns, e.i, c);
  }

  lemma ConnWeighsLess(s: Sys, e: Step)
    requires Inv(s) && s.outClosed && EnabledConn(s, e) && !e.Refresh?
    ensures var s' := NextConn(s, e);
            && s' == s.(conns := s.conns[e.i := s'.conns[e.i]])
            && ConnWeight(s'.conns[e.i]) < ConnWeight(s.conns[e.i])
  {
    assert ConnOk(s, e.i);
  }

  /** One attempt and one connection change. */
  lemma Weighs(s: Sys, s': Sys, t: nat, a: Attempt, w: Id, c: Conn)
    requires t < |s.attempts| && w < |s.conns|
    requires s'.attempts == s.attempts[t := a] && s'.conns == s.conns[w := c] && s'.path == s.path
    ensures Measure(s') - Measure(s)
         == StageWeight(a.stage) - StageWeight(s.attempts[t].stage) + ConnWeight(c) - ConnWeight(s.conns[w])
  {
    AttemptsWeightUpdate(s.attempts, t, a);
    ConnsWeightUpdate(s.conns, w, c);
  }

  lemma ReturnCountsDown(s: Sys, t: nat, fate: Fate)
    requires Inv(s) && ValidAttempt(s, t) && s.attempts[t].stage.Calling?
    ensures Measure(CallReturns(s, t, fate)) < Measure(s)
  {
    var s', w := CallReturns(s, t, fate), s.attempts[t].w;
    assert AttemptOk(s, t);
    assert s'.conns == s.conns[w := s'.conns[w]];
    Weighs(s, s', t, s'.attempts[t], w, s'.conns[w]);
  }

  /** A quit signal that the worker's own goroutine receives. */
  lemma QuitCountsDown(s: Sys, t: nat, to: Receiver)
    requires Inv(s) && ValidAttempt(s, t) && EnabledSignal(s, t, to) && (to.MainLoop? || to.ExitSelect?)
    ensures Measure(NextSignal(s, t, to)) < Measure(s)
  {
    var s', w := NextSignal(s, t, to), s.attempts[t].w;
    assert AttemptOk(s, t) && ConnOk(s, w);
    Weighs(s, s', t, s'.attempts[t], w, s'.conns[w]);
  }

  lemma SignalCountsDown(s: Sys, t: nat, to: Receiver)
    requires Inv(s) && ValidAttempt(s, t) && EnabledSignal(s, t, to)
    ensures Measure(NextSignal(s, t, to)) < Measure(s)
  {
    if to.MainLoop? || to.ExitSelect? {
      QuitCountsDown(s, t, to);
    } else {
      var s1 := WithStage(s, t, Ended(s.attempts[t].stage.result));
      AttemptsWeightUpdate(s.attempts, t, s1.attempts[t]);
      if to.BlockedCall? {
        assert AttemptOk(s, t) && ConnOk(s, s.attempts[t].w);
        assert s1.conns == s.conns[s.attempts[t].w := s.conns[s.attempts[t].w]];
        KeepsStage(s, t, s1.attempts[t], s.conns[s.attempts[t].w], s1);
        ReturnCountsDown(s1, to.t, CutOff);
      }
    }
  }

  lemma MovesCountDown(s: Sys, e: Step)
    requires Inv(s) && EnabledAttempt(s, e) && (e.Dispatch? || e.FailInline? || e.Respond?)
    ensures Measure(NextAttempt(s, e)) < Measure(s)
  {
    var s', w := NextAttempt(s, e), s.attempts[e.t].w;
    assert AttemptOk(s, e.t);
    assert s'.conns == s.conns[w := s'.conns[w]];
    Weighs(s, s', e.t, s'.attempts[e.t], w, s'.conns[w]);
  }

  lemma WaitsCountDown(s: Sys, e: Step)
    requires Inv(s) && EnabledAttempt(s, e) && (e.Retry? || e.RetryTaken? || e.Block? || e.Finish?)
    ensures Measure(NextAttempt(s, e)) < Measure(s)
  {
    AttemptsWeightUpdate(s.attempts, e.t, NextAttempt(s, e).attempts[e.t]);
  }

  lemma AttemptCountsDown(s: Sys, e: Step)
    requires Inv(s) && EnabledAttempt(s, e)
    ensures Measure(NextAttempt(s, e)) < Measure(s)
  {
    if e.Signal? {
      SignalCountsDown(s, e.t, e.to);
    } else if Returns(e) {
      ReturnCountsDown(s, e.t, if e.Deliver? then Delivered else if e.Discard? then Discarded else CutOff);
    } else if e.Dispatch? || e.FailInline? || e.Respond? {
      MovesCountDown(s, e);
    } else {
      WaitsCountDown(s, e);
    }
  }

  lemma PathCountsDown(p: Path, m: Move)
    requires CanMove(p, m, true)
    ensures PathWeight(Moved(p, m)) < PathWeight(p)
  {}

  predicate GoroutineStep(e: Step) {
    !e.CloseOut? && !e.Kill? && !e.Refresh? && (e.Receive? ==> e.e.LauncherDone? || e.e.WorkerDone?)
  }

  /** Once the input is closed, every step of the governor, a launcher, a worker, a round
      trip or a retry forwarder lowers the measure; a replacement is paid for by the quit of a used connection. */
  lemma CountsDown(cfg: Config, s: Sys, e: Step)
    requires Inv(s) && s.outClosed && Enabled(s, e) && GoroutineStep(e)
    ensures Measure(Next(cfg, s, e)) < Measure(s) && Next(cfg, s, e).outClosed
  {
    if e.Receive? {
      if e.e.LauncherDone? {
        LauncherDoneCountsDown(cfg, s, e.e);
      } else {
        WorkerDoneCountsDown(cfg, s, e.e);
      }
    } else if e.Forward? {
      PathCountsDown(s.path, e.m);
    } else if EnabledConn(s, e) {
      ConnCountsDown(s, e);
    } else {
      AttemptCountsDown(s, e);
    }
  }

  function Worked(es: seq<Step>): nat {
    if es == [] then 0 else Worked(es[1..]) + if GoroutineStep(es[0]) then 1 else 0
  }

  predicate NoHardStop(es: seq<Step>) {
    forall k :: 0 <= k < |es| ==> es[k] != Receive(HardStop)
  }

  lemma StaysClosing(cfg: Config, s: Sys, e: Step)
    requires s.g.closing && Enabled(s, e)
    ensures Next(cfg, s, e).g.closing
  {
    if EnabledAttempt(s, e) {
      OnlyReceivesConcernGovernor(s, e);
    }
  }

  /** What the governor, the client and a Kill do is none of their business. */
  predicate OwnStep(s: Sys, s': Sys) {
    s'.g == s.g && s'.outClosed == s.outClosed && s'.killed == s.killed
  }

  lemma ReturnIsOwn(s: Sys, t: nat, fate: Fate)
    requires ValidAttempt(s, t) && s.attempts[t].stage.Calling?
    ensures OwnStep(s, CallReturns(s, t, fate))
  {}

  lemma AttemptIsOwn(s: Sys, e: Step)
    requires EnabledAttempt(s, e)
    ensures OwnStep(s, NextAttempt(s, e))
  {
    if Returns(e) {
      ReturnIsOwn(s, e.t, if e.Deliver? then Delivered else if e.Discard? then Discarded else CutOff);
    } else if e.Signal? && e.to.BlockedCall? {
      ReturnIsOwn(WithStage(s, e.t, Ended(s.attempts[e.t].stage.result)), e.to.t, CutOff);
    }
  }

  lemma OnlyReceivesConcernGovernor(s: Sys, e: Step)
    requires EnabledConn(s, e) || EnabledAttempt(s, e)
    ensures OwnStep(s, if EnabledConn(s, e) then NextConn(s, e) else NextAttempt(s, e))
  {
    if !EnabledConn(s, e) {
      AttemptIsOwn(s, e);
    }
  }

  lemma OutsideWeighsNothing(cfg: Config, s: Sys, e: Step)
    requires Inv(s) && s.outClosed && s.g.closing && Enabled(s, e) && !GoroutineStep(e) && e != Receive(HardStop)
    ensures Measure(Next(cfg, s, e)) == Measure(s) && Next(cfg, s, e).outClosed
  {
    if e.Receive? {
      PollIsIdle(cfg, s, e.e);
    } else if e.Refresh? {
      ConnsWeightUpdate(s.conns, e.i, s.conns[e.i].(cap := e.cap));
    }
  }

  /** So a closing fleet takes only so many steps, however many poll ticks go by. */
  lemma {:induction false} ShutdownIsBounded(cfg: Config, s: Sys, es: seq<Step>)
    requires Inv(s) && s.outClosed && s.g.closing && ValidRun(cfg, s, es) && NoHardStop(es)
    ensures Worked(es) <= Measure(s)
    decreases |es|
  {
    if es != [] {
      if GoroutineStep(es[0]) {
        CountsDown(cfg, s, es[0]);
      } else {
        OutsideWeighsNothing(cfg, s, es[0]);
      }
      StaysClosing(cfg, s, es[0]);
      KeepsInv(cfg, s, es[0]);
      ShutdownIsBounded(cfg, Next(cfg, s, es[0]), es[1..]);
    }
  }

  // ---- The fleet at rest -------------------------------------------------------

  /** A request its worker has taken sleeps until there is a stream for it. */
  predicate Starved(s: Sys, t: nat) {
    ValidAttempt(s, t) && s.attempts[t].stage.Exec? && !HasStream(s, s.attempts[t].w)
  }

  /** Nothing can happen any more but what comes from outside: a poll tick, a Kill or the hard
      stop it causes, a new stream capacity, or the cancellation of a request that sleeps. */
  ghost predicate AtRest(s: Sys) {
    forall e: Step :: GoroutineStep(e) && Enabled(s, e) ==> e.FailInline? && Starved(s, e.t)
  }

  /** A worker whose exit reached the governor before its launcher's completion did. */
  predicate Zombie(c: Conn) {
    c.launch == Seen(true) && c.work.Reported? && c.work.early
  }

  /** A worker whose exit never reached the governor, because a second quit signal ended it. */
  predicate Lost(c: Conn) {
    c.work.Vanished?
  }

  predicate AnnouncedClose(c: Conn) {
    c.work.Reported? && c.work.inClosed
  }

  ghost predicate Announced(s: Sys) {
    s.g.closing ==> exists i :: 0 <= i < |s.conns| && AnnouncedClose(s.conns[i])
  }

  lemma AnnouncedReceive(cfg: Config, s: Sys, e: Event)
    requires Inv(s) && EnabledGov(s, e) && !s.g.closing && NextGov(cfg, s, e).g.closing
    ensures Announced(NextGov(cfg, s, e))
  {
    assert AnnouncedClose(NextGov(cfg, s, e).conns[e.w]);
  }

  lemma AnnouncedStep(cfg: Config, s: Sys, e: Step)
    requires Inv(s) && Announced(s) && Enabled(s, e)
    ensures Announced(Next(cfg, s, e))
  {
    if s.g.closing {
      var i :| 0 <= i < |s.conns| && AnnouncedClose(s.conns[i]);
      StaysReported(cfg, s, e, i);
    } else {
      AnnouncedFirst(cfg, s, e);
    }
  }

  lemma AnnouncedFirst(cfg: Config, s: Sys, e: Step)
    requires Inv(s) && !s.g.closing && Enabled(s, e)
    ensures Announced(Next(cfg, s, e))
  {
    if e.Receive? {
      if NextGov(cfg, s, e.e).g.closing {
        AnnouncedReceive(cfg, s, e.e);
      }
    } else if !Aside(e) {
      OnlyReceivesConcernGovernor(s, e);
    }
  }

  lemma StaysReportedOnReceive(cfg: Config, s: Sys, e: Event, i: Id)
    requires Inv(s) && EnabledGov(s, e) && i < |s.conns| && s.conns[i].work.Reported?
    ensures i < |NextGov(cfg, s, e).conns| && NextGov(cfg, s, e).conns[i].work == s.conns[i].work
  {}

  lemma StaysReportedElse(s: Sys, e: Step, i: Id)
    requires Inv(s) && (EnabledConn(s, e) || EnabledAttempt(s, e)) && i < |s.conns| && s.conns[i].work.Reported?
    ensures var s' := if EnabledConn(s, e) then NextConn(s, e) else NextAttempt(s, e);
            i < |s'.conns| && s'.conns[i].work == s.conns[i].work
  {
    if EnabledConn(s, e) {
      assert ConnOk(s, e.i);
    } else {
      AttemptTouches(s, e);
    }
  }

  lemma StaysReported(cfg: Config, s: Sys, e: Step, i: Id)
    requires Inv(s) && Enabled(s, e) && i < |s.conns| && s.conns[i].work.Reported?
    ensures i < |Next(cfg, s, e).conns| && Next(cfg, s, e).conns[i].work == s.conns[i].work
  {
    if e.Receive? {
      StaysReportedOnReceive(cfg, s, e.e, i);
    } else if !Aside(e) {
      StaysReportedElse(s, e, i);
    }
  }

  lemma {:induction false} AnnouncedRun(cfg: Config, s: Sys, es: seq<Step>)
    requires Inv(s) && Announced(s) && ValidRun(cfg, s, es)
    ensures Inv(Final(cfg, s, es)) && Announced(Final(cfg, s, es))
    decreases |es|
  {
    if es != [] {
      KeepsInv(cfg, s, es[0]);
      AnnouncedStep(cfg, s, es[0]);
      AnnouncedRun(cfg, Next(cfg, s, es[0]), es[1..]);
    }
  }

  /** Its send on the retry channel does not go through. */
  predicate RetryBlocked(s: Sys, t: nat) {
    t < |s.attempts| && s.attempts[t].stage.Retrying? && !Accepts(s.path)
  }

  /** An attempt that is not over can move unless it is blocked on its retry or waits for a stream. */
  lemma AttemptMoves(s: Sys, t: nat) returns (e: Step)
    requires Inv(s) && !s.hard && t < |s.attempts| && !s.attempts[t].stage.Ended?
    requires !RetryBlocked(s, t) && !Starved(s, t)
    ensures GoroutineStep(e) && Enabled(s, e) && EnabledAttempt(s, e) && !e.FailInline?
  {
    assert AttemptOk(s, t);
    match s.attempts[t].stage
    case Exec => e := Dispatch(t);
    case Flight => e := Retry(t);
    case Retrying => e := RetryTaken(t);
    case Calling(_, _, _) => e := Deliver(t);
    case Called(usable, _) =>
      if usable {
        e := Finish(t);
      } else {
        SignalsAreSafe(s, t);
        var to :| EnabledSignal(s, t, to);
        e := Signal(t, to);
      }
  }

  /** No attempt moves, the cancellation of one that sleeps aside. */
  ghost predicate AttemptsRest(s: Sys) {
    forall e: Step :: EnabledAttempt(s, e) ==> e.FailInline? && Starved(s, e.t)
  }

  lemma RestOfAttempts(s: Sys)
    requires AtRest(s)
    ensures AttemptsRest(s)
  {
    forall e: Step | EnabledAttempt(s, e) ensures e.FailInline? && Starved(s, e.t) {
      assert Enabled(s, e);
    }
  }

  lemma RestIsBlocked(s: Sys, t: nat)
    requires Inv(s) && !s.hard && AttemptsRest(s) && t < |s.attempts| && !s.attempts[t].stage.Ended?
    ensures RetryBlocked(s, t) || Starved(s, t)
  {
    if !RetryBlocked(s, t) && !Starved(s, t) {
      var e := AttemptMoves(s, t);
    }
  }

  /** At rest a request waits for a stream only where every stream, and there is one, is held
      by a round trip that is blocked on its retry. */
  lemma StarvedByRetries(s: Sys, t: nat)
    requires Inv(s) && !s.hard && AttemptsRest(s) && Starved(s, t)
    ensures var i := s.attempts[t].w;
            && 0 < s.conns[i].cap <= |Holders(s, i)|
            && (forall u :: u in Holders(s, i) ==> RetryBlocked(s, u))
            && exists u :: u in Holders(s, i)
  {
    var i := s.attempts[t].w;
    assert Holders(s, i) != {};
    forall u | u in Holders(s, i) ensures RetryBlocked(s, u) {
      RestIsBlocked(s, u);
    }
  }

  /** At rest, with the input closed and no Kill, a round trip is blocked on its retry exactly
      when it waits to send one, and then the retry path carries its full load of 602. */
  lemma BlockedAtFullLoad(s: Sys, t: nat)
    requires Inv(s) && s.outClosed && !s.killed && AtRest(s) && t < |s.attempts| && s.attempts[t].stage.Retrying?
    ensures RetryBlocked(s, t) && Load(s.path) == RETRY_CAPACITY + BUF_SIZE + 2
  {
    assert AttemptOk(s, t);
    assert !Enabled(s, RetryTaken(t));
    forall m: Move ensures !CanMove(s.path, m, false) {
      assert !Enabled(s, Forward(m));
    }
    JammedIff(s.path);
  }

  /** The round trip t of worker i is blocked on its retry. */
  predicate BlockedBehind(s: Sys, i: Id, t: nat) {
    && i < |s.conns| && s.conns[i].launch.Seen? && s.conns[i].work.Draining?
    && t < |s.attempts| && s.attempts[t].w == i && RetryBlocked(s, t)
  }

  /** A worker the governor knows of waits for a round trip which is blocked on its retry. */
  predicate DrainBlocked(s: Sys, i: Id) {
    exists t :: 0 <= t < |s.attempts| && BlockedBehind(s, i, t)
  }

  /** A worker the governor knows of sleeps over a request that no stream is left for. */
  predicate StreamBlocked(s: Sys, i: Id) {
    && i < |s.conns| && s.conns[i].launch.Seen? && s.conns[i].work.Busy?
    && Starved(s, s.conns[i].work.t) && s.attempts[s.conns[i].work.t].w == i
  }

  predicate HeldUp(s: Sys, i: Id) {
    DrainBlocked(s, i) || StreamBlocked(s, i)
  }

  lemma StaysBlockedOnAttempt(s: Sys, e: Step, t: nat)
    requires Inv(s) && EnabledAttempt(s, e) && RetryBlocked(s, t)
    ensures RetryBlocked(NextAttempt(s, e), t) && NextAttempt(s, e).attempts[t] == s.attempts[t]
    ensures NextAttempt(s, e).path == s.path
  {}

  lemma StaysBlockedOnConn(s: Sys, e: Step, i: Id, t: nat)
    requires EnabledConn(s, e) && BlockedBehind(s, i, t)
    ensures BlockedBehind(NextConn(s, e), i, t)
  {
    assert InWaitGroup(s.attempts[t].stage);
  }

  lemma StaysBlockedOnReceive(cfg: Config, s: Sys, e: Event, i: Id, t: nat)
    requires Inv(s) && EnabledGov(s, e) && BlockedBehind(s, i, t)
    ensures BlockedBehind(NextGov(cfg, s, e), i, t)
  {}

  lemma StaysDrainBlocked(cfg: Config, s: Sys, e: Step, i: Id, t: nat)
    requires Inv(s) && s.outClosed && !s.killed && Jammed(s.path) && BlockedBehind(s, i, t)
    requires Enabled(s, e) && !e.Kill?
    ensures var s' := Next(cfg, s, e);
            s'.outClosed && !s'.killed && s'.path == s.path && BlockedBehind(s', i, t)
  {
    JammedIff(s.path);
    if e.Receive? {
      StaysBlockedOnReceive(cfg, s, e.e, i, t);
    } else if EnabledConn(s, e) {
      StaysBlockedOnConn(s, e, i, t);
    } else if EnabledAttempt(s, e) {
      StaysBlockedOnAttempt(s, e, t);
      AttemptTouches(s, e);
    }
  }

  /** A soft stop that meets a jammed retry path hangs: as long as there is no Kill, the
      worker waits for its blocked round trip and the governor does not stop. */
  lemma {:induction false} BlockedForever(cfg: Config, s: Sys, es: seq<Step>, i: Id, t: nat)
    requires Inv(s) && s.outClosed && !s.killed && Jammed(s.path) && BlockedBehind(s, i, t)
    requires ValidRun(cfg, s, es) && Kill !in es
    ensures BlockedBehind(Final(cfg, s, es), i, t) && !Final(cfg, s, es).g.stopped
    decreases |es|
  {
    if es == [] {
      assert ConnOk(s, i);
    } else {
      KeepsInv(cfg, s, es[0]);
      StaysDrainBlocked(cfg, s, es[0], i, t);
      BlockedForever(cfg, Next(cfg, s, es[0]), es[1..], i, t);
    }
  }

  // ---- How many retries it takes ---------------------------------------------------

  function RetryingIds(attempts: seq<Attempt>): set<nat> {
    set t | 0 <= t < |attempts| && attempts[t].stage.Retrying?
  }

  /** Retries on their way to the submitter. */
  function Waiting(s: Sys): nat {
    |RetryingIds(s.attempts)| + Load(s.path)
  }

  function RetrySteps(es: seq<Step>): nat {
    if es == [] then 0 else RetrySteps(es[1..]) + if es[0].Retry? then 1 else 0
  }

  predicate NoneNewlyWaits(s: Sys, s': Sys) {
    && s'.path == s.path && |s'.attempts| == |s.attempts|
    && forall t :: 0 <= t < |s.attempts| && s'.attempts[t].stage.Retrying? ==> s.attempts[t].stage.Retrying?
  }

  lemma ReturnsWaitNot(s: Sys, t: nat, fate: Fate)
    requires ValidAttempt(s, t) && s.attempts[t].stage.Calling?
    ensures NoneNewlyWaits(s, CallReturns(s, t, fate))
  {}

  lemma SignalsWaitNot(s: Sys, t: nat, to: Receiver)
    requires ValidAttempt(s, t) && EnabledSignal(s, t, to)
    ensures NoneNewlyWaits(s, NextSignal(s, t, to))
  {
    var s1 := WithStage(s, t, Ended(s.attempts[t].stage.result));
    if to.BlockedCall? {
      ReturnsWaitNot(s1, to.t, CutOff);
    }
  }

  lemma OnlyRetriesWait(s: Sys, e: Step)
    requires EnabledAttempt(s, e) && !e.Retry? && !e.RetryTaken?
    ensures NoneNewlyWaits(s, NextAttempt(s, e))
  {
    if e.Signal? {
      SignalsWaitNot(s, e.t, e.to);
    } else if Returns(e) {
      ReturnsWaitNot(s, e.t, if e.Deliver? then Delivered else if e.Discard? then Discarded else CutOff);
    }
  }

  lemma RetryWaits(attempts: seq<Attempt>, t: nat, a: Attempt)
    requires t < |attempts|
    ensures RetryingIds(attempts[t := a])
         == if a.stage.Retrying? then RetryingIds(attempts) + {t} else RetryingIds(attempts) - {t}
  {}

  lemma WaitingOnAttempt(s: Sys, e: Step)
    requires EnabledAttempt(s, e)
    ensures Waiting(NextAttempt(s, e)) <= Waiting(s) + if e.Retry? then 1 else 0
  {
    if e.Retry? || e.RetryTaken? {
      RetryWaits(s.attempts, e.t, NextAttempt(s, e).attempts[e.t]);
    } else {
      OnlyRetriesWait(s, e);
      SubsetCount(RetryingIds(NextAttempt(s, e).attempts), RetryingIds(s.attempts));
    }
  }

  /** Each request that the submitter takes back makes room for one more. */
  lemma HandingBackLightens(cfg: Config, s: Sys)
    requires Enabled(s, Requeue)
    ensures Waiting(Next(cfg, s, Requeue)) == Waiting(s) - 1
    ensures Queued(s.path) == [s.path.feeder.r] + Queued(Next(cfg, s, Requeue).path)
  {
    KeepsOrder(s.path, Feed, 0);
  }

  lemma WaitingStep(cfg: Config, s: Sys, e: Step)
    requires Enabled(s, e)
    ensures Waiting(Next(cfg, s, e)) <= Waiting(s) + if e.Retry? then 1 else 0
  {
    if EnabledConn(s, e) {
      assert RetryingIds(NextConn(s, e).attempts) == RetryingIds(s.attempts);
    } else if EnabledAttempt(s, e) {
      WaitingOnAttempt(s, e);
    }
  }

  lemma {:induction false} WaitingRun(cfg: Config, s: Sys, es: seq<Step>)
    requires ValidRun(cfg, s, es)
    ensures Waiting(Final(cfg, s, es)) <= Waiting(s) + RetrySteps(es)
    decreases |es|
  {
    if es != [] {
      WaitingStep(cfg, s, es[0]);
      WaitingRun(cfg, Next(cfg, s, es[0]), es[1..]);
    }
  }

  lemma ManyWait(s: Sys, t: nat)
    requires Inv(s) && s.outClosed && !s.killed && AtRest(s) && RetryBlocked(s, t)
    ensures Waiting(s) > RETRY_CAPACITY + BUF_SIZE + 2
  {
    BlockedAtFullLoad(s, t);
    assert t in RetryingIds(s.attempts);
  }

  /** A round trip blocked at rest is at least the 603rd retry of the run. */
  lemma BlockingTakesRetries(cfg: Config, backOff: BackOff.Tracker, now: int, es: seq<Step>, t: nat)
    requires ValidRun(cfg, Begin(cfg, backOff, now), es)
    requires var s := Final(cfg, Begin(cfg, backOff, now), es);
             s.outClosed && !s.killed && AtRest(s) && RetryBlocked(s, t)
    ensures RetrySteps(es) > RETRY_CAPACITY + BUF_SIZE + 2
  {
    ReachableInv(cfg, backOff, now, es);
    ManyWait(Final(cfg, Begin(cfg, backOff, now), es), t);
    NothingWaitsAtFirst(cfg, backOff, now);
    WaitingRun(cfg, Begin(cfg, backOff, now), es);
  }

  // ---- Finished connections ----------------------------------------------------------

  predicate Finished(c: Conn) {
    c.launch.Seen? && (c.work.Unborn? || c.work.Reported? || c.work.Vanished?)
  }

  /** A connection that is neither received nor lost can move while the governor listens,
      unless its worker is held up by blocked retries. */
  lemma ConnMoves(s: Sys, i: Id) returns (e: Step)
    requires Inv(s) && !s.g.stopped && s.outClosed && i < |s.conns| && !Finished(s.conns[i]) && !HeldUp(s, i)
    ensures GoroutineStep(e) && Enabled(s, e) && !e.FailInline?
  {
    assert ConnOk(s, i);
    var c := s.conns[i];
    if c.launch.Dialing? {
      e := DialOk(i);
    } else if c.launch.Ready? {
      e := Receive(LauncherDone(i, c.launch.ok, s.g.backOff.end, 0));
    } else {
      match c.work
      case Idle => e := SeeClosedInput(i);
      case Busy(t) => e := AttemptMoves(s, t);
      case Draining => e := DrainMoves(s, i);
      case AtExit(q, ic) => e := Receive(WorkerDone(i, q, ic));
    }
  }

  lemma DrainMoves(s: Sys, i: Id) returns (e: Step)
    requires Inv(s) && !s.hard && i < |s.conns| && s.conns[i].launch.Seen? && s.conns[i].work.Draining?
    requires !DrainBlocked(s, i)
    ensures GoroutineStep(e) && Enabled(s, e) && !e.FailInline?
  {
    if WaitGroupEmpty(s, i) {
      e := Drained(i);
    } else {
      var t :| 0 <= t < |s.attempts| && s.attempts[t].w == i && InWaitGroup(s.attempts[t].stage);
      assert !BlockedBehind(s, i, t);
      e := AttemptMoves(s, t);
    }
  }

  /** At rest every launcher was received, and every worker was received, is lost, or is held
      up by blocked retries. */
  lemma RestFinishes(s: Sys)
    requires Inv(s) && !s.g.stopped && s.outClosed && AtRest(s)
    ensures forall i :: 0 <= i < |s.conns| ==> Finished(s.conns[i]) || HeldUp(s, i)
  {
    if i :| 0 <= i < |s.conns| && !Finished(s.conns[i]) && !HeldUp(s, i) {
      var e := ConnMoves(s, i);
    }
  }

  /** Nothing holds a soft stop back at connection i. */
  predicate ClearConn(s: Sys, i: Id)
    requires i < |s.conns|
  {
    !Zombie(s.conns[i]) && !Lost(s.conns[i]) && !HeldUp(s, i)
  }

  ghost predicate Clear(s: Sys) {
    forall i :: 0 <= i < |s.conns| ==> ClearConn(s, i)
  }

  ghost predicate SomeAnnounced(s: Sys) {
    exists i :: 0 <= i < |s.conns| && AnnouncedClose(s.conns[i])
  }

  lemma StoppedIsClear(s: Sys)
    requires Inv(s) && s.g.stopped && !s.hard
    ensures Clear(s)
  {
    forall i | 0 <= i < |s.conns| ensures ClearConn(s, i) {
      assert ConnOk(s, i);
    }
  }

  lemma NoLauncherAtRest(s: Sys)
    requires Inv(s) && !s.g.stopped && s.outClosed && AtRest(s)
    ensures s.g.launchers == {}
  {
    RestFinishes(s);
    forall i: Id ensures i !in s.g.launchers {
      if i < |s.conns| {
        assert ConnOk(s, i);
      }
    }
  }

  lemma NoStreamerAtRest(s: Sys)
    requires Inv(s) && !s.g.stopped && s.outClosed && AtRest(s) && Clear(s)
    ensures s.g.streamers == {}
  {
    RestFinishes(s);
    forall i: Id ensures i !in s.g.streamers {
      if i < |s.conns| {
        assert ConnOk(s, i) && ClearConn(s, i);
      }
    }
  }

  /** With the input closed, no Kill and everything at rest, the governor has stopped exactly
      when some worker reported the closed input, no worker's exit overtook its launcher's
      completion, no exit was swallowed by a second quit signal, and no worker is held up by
      round trips that are blocked on a full retry path: it waits for one of them, or for a
      stream that they hold. */
  lemma RestStopsIff(s: Sys)
    requires Inv(s) && Announced(s) && s.outClosed && !s.killed && AtRest(s)
    ensures s.g.stopped <==> SomeAnnounced(s) && Clear(s)
  {
    if s.g.stopped {
      StoppedIsClear(s);
    } else if SomeAnnounced(s) && Clear(s) {
      var i :| 0 <= i < |s.conns| && AnnouncedClose(s.conns[i]);
      assert ConnOk(s, i);
      NoLauncherAtRest(s);
      NoStreamerAtRest(s);
    }
  }

  // ---- Launcher-before-worker order --------------------------------------------

  /** There is no Kill, the governor receives a worker's exit only after its launcher's
      completion, and no quit signal reaches a worker that is already leaving. */
  predicate OrderlyStep(s: Sys, e: Step) {
    && !e.Kill?
    && (e.Receive? && e.e.WorkerDone? ==> e.e.w < |s.conns| && s.conns[e.e.w].launch.Seen?)
    && (e.Signal? ==> !e.to.ExitSelect?)
  }

  predicate Orderly(cfg: Config, s: Sys, es: seq<Step>)
    requires ValidRun(cfg, s, es)
    decreases |es|
  {
    es != [] ==> OrderlyStep(s, es[0]) && Orderly(cfg, Next(cfg, s, es[0]), es[1..])
  }

  ghost predicate InOrder(s: Sys) {
    !s.killed && forall i :: 0 <= i < |s.conns| ==> OrderedConn(s.conns[i])
  }

  predicate OrderedConn(c: Conn) {
    !c.work.Vanished? && (c.work.Reported? ==> !c.work.early)
  }

  lemma InOrderReceive(cfg: Config, s: Sys, e: Event)
    requires Inv(s) && InOrder(s) && EnabledGov(s, e) && OrderlyStep(s, Receive(e))
    ensures InOrder(NextGov(cfg, s, e))
  {
    var s' := NextGov(cfg, s, e);
    forall i | 0 <= i < |s'.conns| ensures OrderedConn(s'.conns[i]) {
      if i < |s.conns| {
        assert OrderedConn(s.conns[i]);
      }
    }
  }

  lemma InOrderConn(s: Sys, e: Step)
    requires Inv(s) && InOrder(s) && EnabledConn(s, e)
    ensures InOrder(NextConn(s, e))
  {
    var s' := NextConn(s, e);
    assert ConnOk(s, e.i) && OrderedConn(s.conns[e.i]);
    forall i | 0 <= i < |s'.conns| ensures OrderedConn(s'.conns[i]) {
      assert OrderedConn(s.conns[i]);
    }
  }

  lemma InOrderAttempt(s: Sys, e: Step)
    requires Inv(s) && InOrder(s) && EnabledAttempt(s, e) && OrderlyStep(s, e)
    ensures InOrder(NextAttempt(s, e))
  {
    var s' := NextAttempt(s, e);
    AttemptTouches(s, e);
    forall i | 0 <= i < |s'.conns| ensures OrderedConn(s'.conns[i]) {
      assert OrderedConn(s.conns[i]);
    }
  }

  lemma InOrderStep(cfg: Config, s: Sys, e: Step)
    requires Inv(s) && InOrder(s) && Enabled(s, e) && OrderlyStep(s, e)
    ensures InOrder(Next(cfg, s, e))
  {
    if e.Receive? {
      InOrderReceive(cfg, s, e.e);
    } else if EnabledConn(s, e) {
      InOrderConn(s, e);
    } else if EnabledAttempt(s, e) {
      InOrderAttempt(s, e);
    }
  }

  lemma {:induction false} InOrderRun(cfg: Config, s: Sys, es: seq<Step>)
    requires Inv(s) && InOrder(s) && ValidRun(cfg, s, es) && Orderly(cfg, s, es)
    ensures InOrder(Final(cfg, s, es))
    decreases |es|
  {
    if es != [] {
      InOrderStep(cfg, s, es[0]);
      KeepsInv(cfg, s, es[0]);
      InOrderRun(cfg, Next(cfg, s, es[0]), es[1..]);
    }
  }

  ghost predicate NoneBlocked(s: Sys) {
    forall i :: 0 <= i < |s.conns| ==> !HeldUp(s, i)
  }

  /** In an orderly run that comes to rest after the input was closed, the governor has
      stopped exactly when some worker was there to report the closed input and none is held
      up by round trips that are blocked on a full retry path. */
  lemma OrderlyRest(cfg: Config, backOff: BackOff.Tracker, now: int, es: seq<Step>)
    requires ValidRun(cfg, Begin(cfg, backOff, now), es)
    requires Orderly(cfg, Begin(cfg, backOff, now), es)
    ensures var s := Final(cfg, Begin(cfg, backOff, now), es);
            s.outClosed && AtRest(s) ==> (s.g.stopped <==> SomeAnnounced(s) && NoneBlocked(s))
  {
    var s0 := Begin(cfg, backOff, now);
    var s := Final(cfg, s0, es);
    BeginInv(cfg, backOff, now);
    AnnouncedRun(cfg, s0, es);
    InOrderRun(cfg, s0, es);
    if s.outClosed && AtRest(s) {
      RestStopsIff(s);
      assert Clear(s) <==> NoneBlocked(s) by {
        forall i | 0 <= i < |s.conns| ensures ClearConn(s, i) <==> !HeldUp(s, i) {
          assert OrderedConn(s.conns[i]);
        }
      }
    }
  }

  lemma SomeRetryBlocks(s: Sys, i: Id) returns (t: nat)
    requires Inv(s) && !s.hard && AtRest(s) && HeldUp(s, i)
    ensures RetryBlocked(s, t)
  {
    if DrainBlocked(s, i) {
      t :| 0 <= t < |s.attempts| && BlockedBehind(s, i, t);
    } else {
      RestOfAttempts(s);
      StarvedByRetries(s, s.conns[i].work.t);
      t :| t in Holders(s, i);
    }
  }

  lemma FewRetriesHoldNobodyUp(s: Sys)
    requires Inv(s) && s.outClosed && !s.killed && AtRest(s)
    requires Waiting(s) <= RETRY_CAPACITY + BUF_SIZE + 2
    ensures NoneBlocked(s)
  {
    forall i | 0 <= i < |s.conns| ensures !HeldUp(s, i) {
      if HeldUp(s, i) {
        var t := SomeRetryBlocks(s, i);
        ManyWait(s, t);
      }
    }
  }

  /** So an orderly run with at most 602 retries stops exactly when some worker was there to
      report the closed input. */
  lemma FewRetriesStop(cfg: Config, backOff: BackOff.Tracker, now: int, es: seq<Step>)
    requires ValidRun(cfg, Begin(cfg, backOff, now), es)
    requires Orderly(cfg, Begin(cfg, backOff, now), es)
    requires RetrySteps(es) <= RETRY_CAPACITY + BUF_SIZE + 2
    ensures var s := Final(cfg, Begin(cfg, backOff, now), es);
            s.outClosed && AtRest(s) ==> (s.g.stopped <==> SomeAnnounced(s))
  {
    var s := Final(cfg, Begin(cfg, backOff, now), es);
    BeginInv(cfg, backOff, now);
    InOrderRun(cfg, Begin(cfg, backOff, now), es);
    OrderlyRest(cfg, backOff, now, es);
    NothingWaitsAtFirst(cfg, backOff, now);
    WaitingRun(cfg, Begin(cfg, backOff, now), es);
    if s.outClosed && AtRest(s) {
      ReachableInv(cfg, backOff, now, es);
      FewRetriesHoldNobodyUp(s);
    }
  }

  lemma NothingWaitsAtFirst(cfg: Config, backOff: BackOff.Tracker, now: int)
    ensures Waiting(Begin(cfg, backOff, now)) == 0
  {
    assert RetryingIds([]) == {};
  }
}
