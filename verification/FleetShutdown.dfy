/** From which states a soft stop can still succeed. */
module FleetShutdown {
  import opened Words
  import opened Governor
  import opened Fleet
  import opened FleetSafety
  import opened FleetTermination
  import opened RetryPath
  import FleetWitness

  // ---- Workers whose end the governor never hears of ---------------------------------------

  /** Its exit was received too early, or swallowed. */
  predicate Doomed(c: Conn) {
    Early(c) || Lost(c)
  }

  lemma DoomedOnReceive(cfg: Config, s: Sys, e: Event, i: Id)
    requires Inv(s) && EnabledGov(s, e) && i < |s.conns| && Doomed(s.conns[i])
    ensures DoomedIn(NextGov(cfg, s, e), i)
  {}

  lemma DoomedOnConn(s: Sys, e: Step, i: Id)
    requires Inv(s) && EnabledConn(s, e) && i < |s.conns| && Doomed(s.conns[i])
    ensures DoomedIn(NextConn(s, e), i)
  {
    assert ConnOk(s, e.i);
  }

  lemma DoomedOnAttempt(s: Sys, e: Step, i: Id)
    requires Inv(s) && EnabledAttempt(s, e) && i < |s.conns| && Doomed(s.conns[i])
    ensures DoomedIn(NextAttempt(s, e), i)
  {
    AttemptTouches(s, e);
  }

  lemma DoomedStays(cfg: Config, s: Sys, e: Step, i: Id)
    requires Inv(s) && Enabled(s, e) && i < |s.conns| && Doomed(s.conns[i])
    ensures DoomedIn(Next(cfg, s, e), i)
  {
    if e.Receive? {
      DoomedOnReceive(cfg, s, e.e, i);
    } else if EnabledConn(s, e) {
      DoomedOnConn(s, e, i);
    } else if EnabledAttempt(s, e) {
      DoomedOnAttempt(s, e, i);
    }
  }

  predicate DoomedIn(s: Sys, i: Id) {
    i < |s.conns| && Doomed(s.conns[i])
  }

  /** An exit that overtook its launcher's completion, or was swallowed by a second quit
      signal, keeps the governor from stopping in every continuation without a Kill. */
  lemma {:induction false} DoomedForever(cfg: Config, s: Sys, es: seq<Step>, i: Id)
    requires Inv(s) && !s.killed && i < |s.conns| && Doomed(s.conns[i])
    requires ValidRun(cfg, s, es) && Kill !in es
    ensures !Final(cfg, s, es).g.stopped
    decreases |es|
  {
    if es == [] {
      assert ConnOk(s, i);
    } else {
      DoomedStays(cfg, s, es[0], i);
      KeepsInv(cfg, s, es[0]);
      DoomedForever(cfg, Next(cfg, s, es[0]), es[1..], i);
    }
  }

  // ---- Workers that can only leave by draining ------------------------------------------------

  /** May still judge its connection unusable, or has done so and not yet signalled it. */
  predicate Condemns(st: Stage) {
    st.Exec? || st.Flight? || ((st.Calling? || st.Called?) && !st.usable)
  }

  predicate MayQuit(s: Sys, i: Id) {
    exists t :: 0 <= t < |s.attempts| && s.attempts[t].w == i && Condemns(s.attempts[t].stage)
  }

  predicate MustDrain(s: Sys, i: Id) {
    && i < |s.conns|
    && (s.conns[i].work.Draining? || ((s.conns[i].work.Idle? || s.conns[i].work.Busy?) && !MayQuit(s, i)))
  }

  /** Round trips that have to send their retries before their workers can leave, those of the
      workers in `relieved` aside. */
  function Bound(s: Sys, relieved: set<Id>): set<nat> {
    set t | 0 <= t < |s.attempts| && s.attempts[t].stage.Retrying?
            && MustDrain(s, s.attempts[t].w) && s.attempts[t].w !in relieved
  }

  /** They all find room on the retry path. */
  predicate HaveRoom(s: Sys, relieved: set<Id>) {
    |Bound(s, relieved)| + Load(s.path) <= RETRY_CAPACITY + BUF_SIZE + 2
  }

  // ---- Workers that can report the closed input ------------------------------------------------

  /** Starting or running, with its end not yet reported. */
  predicate Reporter(c: Conn) {
    (c.launch.Dialing? || c.launch == Ready(true) || c.launch == Seen(true)) && !c.work.Reported? && !Lost(c)
  }

  predicate SomeReporter(s: Sys) {
    exists i :: 0 <= i < |s.conns| && Reporter(s.conns[i])
  }

  /** A poll with no connection left may launch one. */
  predicate GrowsFromNothing(cfg: Config) {
    cfg.maxConns > 0 && (cfg.minConns > 0 || cfg.apply(0) > 0)
  }

  predicate CanAnnounce(cfg: Config, s: Sys) {
    s.g.closing || SomeReporter(s) || GrowsFromNothing(cfg)
  }

  ghost predicate NoneDoomed(s: Sys) {
    forall i :: 0 <= i < |s.conns| ==> !Doomed(s.conns[i])
  }

  /** No exit was overtaken or swallowed, the retries that have to be sent find room, and there
      is or can be a worker to report the closed input. */
  ghost predicate SoftOk(cfg: Config, s: Sys, relieved: set<Id>) {
    NoneDoomed(s) && HaveRoom(s, relieved) && CanAnnounce(cfg, s)
  }

  lemma StoppedIsSoftOk(cfg: Config, s: Sys, relieved: set<Id>)
    requires Inv(s) && s.g.stopped && !s.killed
    ensures SoftOk(cfg, s, relieved)
  {
    StoppedIsClear(s);
    forall i | 0 <= i < |s.conns| ensures !Doomed(s.conns[i]) && !MustDrain(s, i) {
      assert ConnOk(s, i) && ClearConn(s, i);
    }
    assert Bound(s, relieved) == {};
  }

  // ---- What is lost stays lost -----------------------------------------------------------------

  /** No attempt comes to condemn its connection that could not before. */
  predicate NoneNewlyCondemns(s: Sys, s': Sys) {
    && |s'.attempts| == |s.attempts|
    && forall t :: 0 <= t < |s.attempts| ==>
         s'.attempts[t].w == s.attempts[t].w && (Condemns(s'.attempts[t].stage) ==> Condemns(s.attempts[t].stage))
  }

  lemma ReturnCondemnsNone(s: Sys, t: nat, fate: Fate)
    requires ValidAttempt(s, t) && s.attempts[t].stage.Calling?
    ensures NoneNewlyCondemns(s, CallReturns(s, t, fate))
  {}

  lemma AttemptCondemnsNone(s: Sys, e: Step)
    requires Inv(s) && EnabledAttempt(s, e)
    ensures NoneNewlyCondemns(s, NextAttempt(s, e))
  {
    assert AttemptOk(s, e.t);
    if Returns(e) {
      ReturnCondemnsNone(s, e.t, if e.Deliver? then Delivered else if e.Discard? then Discarded else CutOff);
    } else if e.Signal? && e.to.BlockedCall? {
      ReturnCondemnsNone(WithStage(s, e.t, Ended(s.attempts[e.t].stage.result)), e.to.t, CutOff);
    }
  }

  lemma InternalCondemnsNone(cfg: Config, s: Sys, e: Step)
    requires Inv(s) && Enabled(s, e) && Internal(e)
    ensures NoneNewlyCondemns(s, Next(cfg, s, e))
  {
    if EnabledAttempt(s, e) {
      AttemptCondemnsNone(s, e);
    }
  }

  lemma MustDrainOnReceive(cfg: Config, s: Sys, e: Event, i: Id)
    requires Inv(s) && EnabledGov(s, e) && MustDrain(s, i)
    ensures MustDrain(NextGov(cfg, s, e), i)
  {
    InternalCondemnsNone(cfg, s, Receive(e));
  }

  lemma MustDrainOnConn(s: Sys, e: Step, i: Id, t: nat)
    requires Inv(s) && !s.killed && EnabledConn(s, e) && !e.Take? && MustDrain(s, i)
    requires t < |s.attempts| && s.attempts[t].w == i && s.attempts[t].stage.Retrying?
    ensures MustDrain(NextConn(s, e), i)
  {
    assert InWaitGroup(s.attempts[t].stage);
    assert ConnOk(s, i) && ConnOk(s, e.i);
  }

  lemma MustDrainOnAttempt(s: Sys, e: Step, i: Id)
    requires Inv(s) && EnabledAttempt(s, e) && MustDrain(s, i)
    ensures MustDrain(NextAttempt(s, e), i)
  {
    AttemptCondemnsNone(s, e);
    AttemptTouches(s, e);
    if !s.conns[i].work.Draining? {
      OnlyQuitsLeave(s, e, i);
    }
  }

  /** A worker that serves requests stops doing so only by a quit signal to its main loop. */
  lemma OnlyQuitsLeave(s: Sys, e: Step, i: Id)
    requires Inv(s) && EnabledAttempt(s, e) && i < |s.conns| && (s.conns[i].work.Idle? || s.conns[i].work.Busy?)
    requires !MayQuit(s, i)
    ensures NextAttempt(s, e).conns[i].work.Idle? || NextAttempt(s, e).conns[i].work.Busy?
  {
    assert AttemptOk(s, e.t);
    if e.Signal? && s.attempts[e.t].w == i {
      assert Condemns(s.attempts[e.t].stage);
    }
  }

  lemma MustDrainStays(cfg: Config, s: Sys, e: Step, i: Id, t: nat)
    requires Inv(s) && !s.killed && Enabled(s, e) && Internal(e) && MustDrain(s, i)
    requires t < |s.attempts| && s.attempts[t].w == i && s.attempts[t].stage.Retrying?
    ensures MustDrain(Next(cfg, s, e), i)
  {
    if e.Receive? {
      MustDrainOnReceive(cfg, s, e.e, i);
    } else if EnabledConn(s, e) {
      MustDrainOnConn(s, e, i, t);
    } else if EnabledAttempt(s, e) {
      MustDrainOnAttempt(s, e, i);
    }
  }

  /** A round trip waits until its retry is sent. */
  lemma RetryingStays(cfg: Config, s: Sys, e: Step, t: nat)
    requires Enabled(s, e) && Internal(e) && e != RetryTaken(t)
    requires t < |s.attempts| && s.attempts[t].stage.Retrying?
    ensures t < |Next(cfg, s, e).attempts| && Next(cfg, s, e).attempts[t] == s.attempts[t]
  {
    if EnabledAttempt(s, e) {
      RetryingStaysOnAttempt(s, e, t);
    }
  }

  lemma RetryingStaysOnAttempt(s: Sys, e: Step, t: nat)
    requires EnabledAttempt(s, e) && e != RetryTaken(t) && t < |s.attempts| && s.attempts[t].stage.Retrying?
    ensures t < |NextAttempt(s, e).attempts| && NextAttempt(s, e).attempts[t] == s.attempts[t]
  {
    if Returns(e) {
      ReturnLeavesOthers(s, e.t, if e.Deliver? then Delivered else if e.Discard? then Discarded else CutOff, t);
    } else if e.Signal? {
      SignalLeavesOthers(s, e.t, e.to, t);
    }
  }

  lemma ReturnLeavesOthers(s: Sys, t: nat, fate: Fate, u: nat)
    requires ValidAttempt(s, t) && s.attempts[t].stage.Calling? && u < |s.attempts| && u != t
    ensures var s' := CallReturns(s, t, fate); |s'.attempts| == |s.attempts| && s'.attempts[u] == s.attempts[u]
  {}

  lemma SignalLeavesOthers(s: Sys, t: nat, to: Receiver, u: nat)
    requires ValidAttempt(s, t) && EnabledSignal(s, t, to) && u < |s.attempts| && s.attempts[u].stage.Retrying?
    ensures var s' := NextSignal(s, t, to); |s'.attempts| == |s.attempts| && s'.attempts[u] == s.attempts[u]
  {
    if to.BlockedCall? {
      ReturnLeavesOthers(WithStage(s, t, Ended(s.attempts[t].stage.result)), to.t, CutOff, u);
    }
  }

  /** With the control channel open the path only fills. */
  lemma PathOnlyFills(cfg: Config, s: Sys, e: Step)
    requires !s.killed && Enabled(s, e) && Internal(e)
    ensures Load(Next(cfg, s, e).path) == Load(s.path) + if e.RetryTaken? then 1 else 0
  {
    if EnabledAttempt(s, e) && !e.RetryTaken? {
      PathStays(s, e);
    }
  }

  lemma PathStays(s: Sys, e: Step)
    requires EnabledAttempt(s, e) && !e.RetryTaken?
    ensures NextAttempt(s, e).path == s.path
  {}

  lemma RoomNotGained(cfg: Config, s: Sys, e: Step, relieved: set<Id>)
    requires Inv(s) && !s.killed && Enabled(s, e) && Internal(e) && HaveRoom(Next(cfg, s, e), relieved)
    ensures HaveRoom(s, relieved)
  {
    var s' := Next(cfg, s, e);
    var sent := if e.RetryTaken? then {e.t} else {};
    forall t | t in Bound(s, relieved) && t !in sent ensures t in Bound(s', relieved) {
      MustDrainStays(cfg, s, e, s.attempts[t].w, t);
      RetryingStays(cfg, s, e, t);
    }
    SubsetCount(Bound(s, relieved), Bound(s', relieved) + sent);
    PathOnlyFills(cfg, s, e);
  }

  lemma NoneDoomedBefore(cfg: Config, s: Sys, e: Step)
    requires Inv(s) && Enabled(s, e) && NoneDoomed(Next(cfg, s, e))
    ensures NoneDoomed(s)
  {
    forall i | 0 <= i < |s.conns| ensures !Doomed(s.conns[i]) {
      if Doomed(s.conns[i]) {
        DoomedStays(cfg, s, e, i);
      }
    }
  }

  // ---- Reporters come only from reporters, or from a poll that found nothing ----------------------

  lemma NothingKnown(s: Sys)
    requires Inv(s) && NoneDoomed(s) && !SomeReporter(s) && s.g.launchers == {}
    ensures s.g.streamers == {}
  {
    forall i: Id ensures i !in s.g.streamers {
      if i < |s.conns| {
        assert ConnOk(s, i) && !Doomed(s.conns[i]) && !Reporter(s.conns[i]);
      }
    }
  }

  lemma LeavingReports(s: Sys, w: Id)
    requires Inv(s) && !s.g.stopped && w < |s.conns| && s.conns[w].work.AtExit?
    ensures SomeReporter(s)
  {
    assert ConnOk(s, w) && Reporter(s.conns[w]);
  }

  lemma AnnounceOnReceive(cfg: Config, s: Sys, e: Event)
    requires Inv(s) && EnabledGov(s, e) && NoneDoomed(s) && CanAnnounce(cfg, NextGov(cfg, s, e))
    ensures CanAnnounce(cfg, s)
  {
    if !CanAnnounce(cfg, s) {
      match e
      case WorkerDone(w, _, _) => LeavingReports(s, w);
      case LauncherDone(l, _, _, _) => ReporterOnReceive(cfg, s, e);
      case HardStop => ReporterOnReceive(cfg, s, e);
      case Poll(_, _) => PollFindsNothing(cfg, s, e);
    }
  }

  lemma ReporterOnReceive(cfg: Config, s: Sys, e: Event)
    requires Inv(s) && EnabledGov(s, e) && (e.LauncherDone? || e.HardStop?)
    ensures SomeReporter(NextGov(cfg, s, e)) ==> SomeReporter(s)
    ensures NextGov(cfg, s, e).g.closing == s.g.closing
  {
    var s' := NextGov(cfg, s, e);
    if i :| 0 <= i < |s'.conns| && Reporter(s'.conns[i]) {
      assert i < |s.conns| && Reporter(s.conns[i]);
    }
  }

  lemma PollFindsNothing(cfg: Config, s: Sys, e: Event)
    requires Inv(s) && EnabledGov(s, e) && e.Poll? && NoneDoomed(s) && !CanAnnounce(cfg, s)
    ensures !CanAnnounce(cfg, NextGov(cfg, s, e))
  {
    var s' := NextGov(cfg, s, e);
    if s.g.launchers == {} {
      NothingKnown(s);
    }
    assert s'.g.nextId == s.g.nextId;
    forall i | 0 <= i < |s'.conns| ensures !Reporter(s'.conns[i]) {
      assert !Reporter(s.conns[i]);
    }
  }

  lemma AnnounceOnConn(s: Sys, e: Step)
    requires Inv(s) && EnabledConn(s, e) && SomeReporter(NextConn(s, e))
    ensures SomeReporter(s)
  {
    var i :| 0 <= i < |s.conns| && Reporter(NextConn(s, e).conns[i]);
    assert ConnOk(s, e.i);
    assert Reporter(s.conns[i]);
  }

  lemma AnnounceOnAttempt(s: Sys, e: Step)
    requires Inv(s) && EnabledAttempt(s, e) && SomeReporter(NextAttempt(s, e))
    ensures SomeReporter(s)
  {
    AttemptTouches(s, e);
    var s' := NextAttempt(s, e);
    var i :| 0 <= i < |s'.conns| && Reporter(s'.conns[i]);
    assert Reporter(s.conns[i]);
  }

  lemma AnnounceNotGained(cfg: Config, s: Sys, e: Step)
    requires Inv(s) && Enabled(s, e) && NoneDoomed(s) && CanAnnounce(cfg, Next(cfg, s, e))
    ensures CanAnnounce(cfg, s)
  {
    if e.Receive? {
      AnnounceOnReceive(cfg, s, e.e);
    } else if !Aside(e) {
      OnlyReceivesConcernGovernor(s, e);
      if EnabledConn(s, e) && SomeReporter(NextConn(s, e)) {
        AnnounceOnConn(s, e);
      } else if EnabledAttempt(s, e) && SomeReporter(NextAttempt(s, e)) {
        AnnounceOnAttempt(s, e);
      }
    }
  }

  /** A state that cannot stop softly any more never leads to one that can. */
  lemma SoftOkNotGained(cfg: Config, s: Sys, e: Step, relieved: set<Id>)
    requires Inv(s) && !s.killed && Enabled(s, e) && Internal(e) && SoftOk(cfg, Next(cfg, s, e), relieved)
    ensures SoftOk(cfg, s, relieved)
  {
    NoneDoomedBefore(cfg, s, e);
    RoomNotGained(cfg, s, e, relieved);
    AnnounceNotGained(cfg, s, e);
  }

  // ---- A soft stop that can still succeed does, if everybody helps ------------------------------

  /** The state helps a soft stop along, without any worker relieved. */
  ghost predicate Helps(s: Sys) {
    && Inv(s) && s.outClosed && !s.killed
    && NoneDoomed(s) && HaveRoom(s, {}) && (s.g.closing || SomeReporter(s))
  }

  /** No retry is newly bound to be sent. */
  ghost predicate BoundShrinks(s: Sys, s': Sys) {
    Bound(s', {}) <= Bound(s, {}) && Load(s'.path) == Load(s.path)
  }

  lemma RoomStays(s: Sys, s': Sys)
    requires HaveRoom(s, {}) && BoundShrinks(s, s')
    ensures HaveRoom(s', {})
  {
    SubsetCount(Bound(s', {}), Bound(s, {}));
  }

  /** One step on the way. */
  ghost predicate Step1(cfg: Config, s: Sys, e: Step) {
    && Enabled(s, e) && Internal(e)
    && Helps(Next(cfg, s, e)) && Measure(Next(cfg, s, e)) < Measure(s)
  }

  // Steps of one connection

  lemma OthersUnbound(s: Sys, i: Id, c: Conn)
    requires i < |s.conns|
    requires c.work == s.conns[i].work
          || (forall t :: 0 <= t < |s.attempts| && s.attempts[t].w == i ==> !s.attempts[t].stage.Retrying?)
          || MustDrain(s, i)
          || c.work.AtExit? || c.work.Reported?
    ensures BoundShrinks(s, s.(conns := s.conns[i := c]))
  {
    var s' := s.(conns := s.conns[i := c]);
    assert forall j :: MayQuit(s', j) == MayQuit(s, j);
  }

  lemma ReportersStay(s: Sys, i: Id, c: Conn)
    requires i < |s.conns| && (s.g.closing || SomeReporter(s)) && (Reporter(s.conns[i]) ==> Reporter(c))
    ensures s.g.closing || SomeReporter(s.(conns := s.conns[i := c]))
  {
    if !s.g.closing {
      var j :| 0 <= j < |s.conns| && Reporter(s.conns[j]);
      assert Reporter(s.conns[i := c][j]);
    }
  }

  lemma ConnHelps(cfg: Config, s: Sys, e: Step)
    requires Helps(s) && EnabledConn(s, e) && (e.DialOk? || e.SeeClosedInput? || e.Drained?)
    requires e.SeeClosedInput? ==> MustDrain(s, e.i)
    ensures Step1(cfg, s, e)
  {
    var c := NextConn(s, e).conns[e.i];
    assert ConnOk(s, e.i);
    KeepsInv(cfg, s, e);
    CountsDown(cfg, s, e);
    if e.DialOk? {
      NoAttemptsYet(s, e.i);
    }
    OthersUnbound(s, e.i, c);
    RoomStays(s, NextConn(s, e));
    ReportersStay(s, e.i, c);
    forall j | 0 <= j < |s.conns| ensures !Doomed(NextConn(s, e).conns[j]) {
      assert !Doomed(s.conns[j]);
    }
  }

  lemma NoAttemptsYet(s: Sys, i: Id)
    requires Inv(s) && i < |s.conns| && s.conns[i].work.Unborn?
    ensures forall t :: 0 <= t < |s.attempts| ==> s.attempts[t].w != i
  {
    forall t | 0 <= t < |s.attempts| ensures s.attempts[t].w != i {
      assert AttemptOk(s, t);
    }
  }

  lemma LauncherHelps(cfg: Config, s: Sys, l: Id) returns (e: Step)
    requires Helps(s) && !s.g.stopped && l < |s.conns| && s.conns[l].launch.Ready?
    ensures Step1(cfg, s, e)
  {
    var c := s.conns[l];
    var ev := LauncherDone(l, c.launch.ok, s.g.backOff.end, 0);
    e := Receive(ev);
    var s' := NextGov(cfg, s, ev);
    assert ConnOk(s, l) && !Doomed(c);
    KeepsInv(cfg, s, e);
    CountsDown(cfg, s, e);
    assert s'.conns == s.conns[l := c.(launch := Seen(c.launch.ok))];
    OthersUnbound(s, l, s'.conns[l]);
    BoundIgnoresGovernor(s, s', s.conns[l := s'.conns[l]]);
    RoomStays(s, s');
    ReportersStay(s, l, s'.conns[l]);
    forall j | 0 <= j < |s'.conns| ensures !Doomed(s'.conns[j]) {
      assert !Doomed(s.conns[j]);
    }
  }

  lemma BoundIgnoresGovernor(s: Sys, s': Sys, conns: seq<Conn>)
    requires |conns| == |s.conns| && s'.conns == conns && s'.attempts == s.attempts
    ensures Bound(s', {}) == Bound(s.(conns := conns), {})
  {
    assert forall j :: MayQuit(s', j) == MayQuit(s.(conns := conns), j);
  }

  lemma ExitHelps(cfg: Config, s: Sys, w: Id) returns (e: Step)
    requires Helps(s) && !s.g.stopped && w < |s.conns| && s.conns[w].work.AtExit? && s.conns[w].launch.Seen?
    ensures Step1(cfg, s, e)
  {
    var c := s.conns[w];
    var ev := WorkerDone(w, c.work.didQuit, c.work.inClosed);
    e := Receive(ev);
    var s' := NextGov(cfg, s, ev);
    assert ConnOk(s, w);
    KeepsInv(cfg, s, e);
    CountsDown(cfg, s, e);
    ExitUnbinds(cfg, s, ev);
    RoomStays(s, s');
    if c.work.didQuit {
      assert Reporter(s'.conns[|s.conns|]);
    }
    forall j | 0 <= j < |s'.conns| ensures !Doomed(s'.conns[j]) {
      assert j < |s.conns| ==> !Doomed(s.conns[j]);
    }
  }

  lemma ExitUnbinds(cfg: Config, s: Sys, e: Event)
    requires Inv(s) && EnabledGov(s, e) && e.WorkerDone?
    ensures BoundShrinks(s, NextGov(cfg, s, e))
  {
    var s' := NextGov(cfg, s, e);
    assert forall j :: MayQuit(s', j) == MayQuit(s, j);
    forall t | t in Bound(s', {}) ensures t in Bound(s, {}) {
      assert AttemptOk(s, t);
    }
  }

  // Steps of one attempt

  /** Whoever could condemn its connection still can, and no worker comes to have to drain. */
  ghost predicate KeepsCondemning(s: Sys, s': Sys) {
    && |s'.attempts| == |s.attempts| && |s'.conns| == |s.conns| && Load(s'.path) == Load(s.path)
    && (forall t :: 0 <= t < |s.attempts| ==> KeepsStageKind(s.attempts[t], s'.attempts[t]))
    && (forall i :: 0 <= i < |s.conns| ==> KeepsWorkKind(s.conns[i], s'.conns[i]))
  }

  predicate KeepsStageKind(a: Attempt, a': Attempt) {
    && a'.w == a.w && (Condemns(a.stage) ==> Condemns(a'.stage))
    && (a'.stage.Retrying? ==> a.stage.Retrying?)
  }

  predicate KeepsWorkKind(c: Conn, c': Conn) {
    && (c'.work.Draining? ==> c.work.Draining?)
    && (c'.work.Idle? || c'.work.Busy? ==> c.work.Idle? || c.work.Busy?)
  }

  lemma CondemningUnbound(s: Sys, s': Sys, relieved: set<Id>)
    requires KeepsCondemning(s, s')
    ensures Bound(s', relieved) <= Bound(s, relieved)
  {
    forall t | t in Bound(s', relieved) ensures t in Bound(s, relieved) {
      var i := s.attempts[t].w;
      assert KeepsStageKind(s.attempts[t], s'.attempts[t]) && KeepsWorkKind(s.conns[i], s'.conns[i]);
      if u :| 0 <= u < |s.attempts| && s.attempts[u].w == i && Condemns(s.attempts[u].stage) {
        assert KeepsStageKind(s.attempts[u], s'.attempts[u]);
      }
    }
  }

  /** Everything but the room on the path, for a step of an attempt. */
  lemma AttemptHelpsElse(cfg: Config, s: Sys, e: Step)
    requires Helps(s) && EnabledAttempt(s, e) && (e.Signal? ==> !e.to.ExitSelect?)
    ensures var s' := NextAttempt(s, e);
            && Inv(s') && s'.outClosed && !s'.killed && NoneDoomed(s') && Measure(s') < Measure(s)
            && (s'.g.closing || SomeReporter(s'))
  {
    var s' := NextAttempt(s, e);
    KeepsInv(cfg, s, e);
    CountsDown(cfg, s, e);
    AttemptTouches(s, e);
    OnlyReceivesConcernGovernor(s, e);
    forall i | 0 <= i < |s'.conns| ensures !Doomed(s'.conns[i]) && (Reporter(s.conns[i]) ==> Reporter(s'.conns[i])) {
      assert !Doomed(s.conns[i]);
    }
    if !s.g.closing {
      var i :| 0 <= i < |s.conns| && Reporter(s.conns[i]);
      assert Reporter(s'.conns[i]);
    }
  }

  predicate Harmless(s: Sys, e: Step) {
    && EnabledAttempt(s, e)
    && (e.Dispatch? || e.Respond? || e.Deliver? || e.Finish? || e.Signal?)
    && (e.Respond? ==> !e.usable)
    && (e.Signal? ==> e.to.Nobody? && !s.conns[s.attempts[e.t].w].work.Idle? && !s.conns[s.attempts[e.t].w].work.Busy?)
  }

  lemma AttemptHelps(cfg: Config, s: Sys, e: Step)
    requires Helps(s) && Harmless(s, e)
    ensures Step1(cfg, s, e)
  {
    var s' := NextAttempt(s, e);
    AttemptHelpsElse(cfg, s, e);
    assert AttemptOk(s, e.t);
    if e.Signal? {
      SignalUnbinds(s, e.t);
    } else {
      HarmlessCondemns(s, e);
      CondemningUnbound(s, s', {});
    }
    RoomStays(s, s');
  }

  lemma HarmlessCondemns(s: Sys, e: Step)
    requires Inv(s) && Harmless(s, e) && !e.Signal?
    ensures KeepsCondemning(s, NextAttempt(s, e))
  {
    assert AttemptOk(s, e.t);
    if e.Deliver? {
      DeliveryCondemns(s, e.t);
    }
  }

  lemma DeliveryCondemns(s: Sys, t: nat)
    requires Inv(s) && EnabledAttempt(s, Deliver(t))
    ensures KeepsCondemning(s, CallReturns(s, t, Delivered))
  {
    assert AttemptOk(s, t);
  }

  lemma SignalUnbinds(s: Sys, t: nat)
    requires Inv(s) && Harmless(s, Signal(t, Nobody))
    ensures BoundShrinks(s, NextSignal(s, t, Nobody))
  {
    var s' := NextSignal(s, t, Nobody);
    forall u | u in Bound(s', {}) ensures u in Bound(s, {}) {
      var i := s.attempts[u].w;
      assert i != s.attempts[t].w ==> MayQuit(s', i) == MayQuit(s, i) by {
        OthersQuitAlike(s, s', t, i);
      }
    }
  }

  lemma OthersQuitAlike(s: Sys, s': Sys, t: nat, i: Id)
    requires t < |s.attempts| && |s'.attempts| == |s.attempts|
    requires s'.attempts == s.attempts[t := s'.attempts[t]] && s'.attempts[t].w == s.attempts[t].w
    ensures i != s.attempts[t].w ==> MayQuit(s', i) == MayQuit(s, i)
  {
    if i != s.attempts[t].w && MayQuit(s, i) {
      var u :| 0 <= u < |s.attempts| && s.attempts[u].w == i && Condemns(s.attempts[u].stage);
      assert s'.attempts[u] == s.attempts[u];
    }
  }

  /** A quit signal to an idle worker's main loop. */
  lemma QuitHelps(cfg: Config, s: Sys, t: nat)
    requires Helps(s) && EnabledAttempt(s, Signal(t, MainLoop))
    ensures Step1(cfg, s, Signal(t, MainLoop))
  {
    var s' := NextAttempt(s, Signal(t, MainLoop));
    AttemptHelpsElse(cfg, s, Signal(t, MainLoop));
    forall u | u in Bound(s', {}) ensures u in Bound(s, {}) {
      OthersQuitAlike(s, s', t, s.attempts[u].w);
    }
    RoomStays(s, s');
  }

  // Steps of the retry path

  /** A bound retry is sent. */
  lemma RetryHelps(cfg: Config, s: Sys, t: nat)
    requires Helps(s) && t in Bound(s, {}) && Accepts(s.path)
    ensures Step1(cfg, s, RetryTaken(t))
  {
    var e := RetryTaken(t);
    assert AttemptOk(s, t);
    var s' := NextAttempt(s, e);
    AttemptHelpsElse(cfg, s, e);
    RetryUnbinds(s, t);
    SubsetCount(Bound(s', {}), Bound(s, {}) - {t});
  }

  lemma RetryUnbinds(s: Sys, t: nat)
    requires t < |s.attempts| && t in Bound(s, {})
    ensures Bound(WithStage(s, t, Ended(Requeued)).(path := Offered(s.path, t)), {}) <= Bound(s, {}) - {t}
  {
    var s' := WithStage(s, t, Ended(Requeued)).(path := Offered(s.path, t));
    forall u | u in Bound(s', {}) ensures u in Bound(s, {}) {
      var i := s.attempts[u].w;
      if v :| 0 <= v < |s.attempts| && s.attempts[v].w == i && Condemns(s.attempts[v].stage) {
        assert v != t && s'.attempts[v] == s.attempts[v];
      }
    }
  }

  /** Or the path makes room for it. */
  lemma PathHelps(cfg: Config, s: Sys, t: nat) returns (e: Step)
    requires Helps(s) && t in Bound(s, {}) && !Accepts(s.path)
    ensures Step1(cfg, s, e)
  {
    assert Load(s.path) < RETRY_CAPACITY + BUF_SIZE + 2 by {
      assert Bound(s, {}) != {};
    }
    JammedIff(s.path);
    var m: Move :| CanMove(s.path, m, false);
    e := Forward(m);
    var s' := s.(path := Moved(s.path, m));
    KeepsInv(cfg, s, e);
    CountsDown(cfg, s, e);
    assert forall j :: MayQuit(s', j) == MayQuit(s, j);
    assert Bound(s', {}) == Bound(s, {});
  }

  // From any unfinished connection

  ghost predicate Leads(cfg: Config, s0: Sys, s: Sys) {
    exists es :: (forall e :: e in es ==> Internal(e)) && ValidRun(cfg, s0, es) && Final(cfg, s0, es) == s
  }

  lemma LeadsNowhere(cfg: Config, s: Sys)
    ensures Leads(cfg, s, s)
  {
    assert ValidRun(cfg, s, []);
  }

  lemma Then(cfg: Config, s0: Sys, s: Sys, e: Step)
    requires Leads(cfg, s0, s) && Enabled(s, e) && Internal(e)
    ensures Leads(cfg, s0, Next(cfg, s, e))
  {
    var es :| (forall e :: e in es ==> Internal(e)) && ValidRun(cfg, s0, es) && Final(cfg, s0, es) == s;
    FleetWitness.Append(cfg, s0, es, e);
    assert forall e' :: e' in es + [e] ==> Internal(e');
  }

  /** The server grants the streams a worker sleeps over. */
  lemma Granted(cfg: Config, s: Sys, i: Id)
    requires Helps(s) && i < |s.conns|
    ensures var s' := Next(cfg, s, Refresh(i, 0));
            Helps(s') && Measure(s') == Measure(s) && HasStream(s', i) && s'.attempts == s.attempts
  {
    var c := s.conns[i].(cap := 0);
    var s' := s.(conns := s.conns[i := c]);
    KeepsInv(cfg, s, Refresh(i, 0));
    ConnsWeightUpdate(s.conns, i, c);
    OthersUnbound(s, i, c);
    RoomStays(s, s');
    ReportersStay(s, i, c);
    forall j | 0 <= j < |s'.conns| ensures !Doomed(s'.conns[j]) {
      assert !Doomed(s.conns[j]);
    }
  }

  lemma ExecProceeds(cfg: Config, s0: Sys, s: Sys, t: nat) returns (s': Sys)
    requires Leads(cfg, s0, s) && Helps(s) && ValidAttempt(s, t) && s.attempts[t].stage.Exec?
    ensures Leads(cfg, s0, s') && Helps(s') && Measure(s') < Measure(s)
  {
    var i := s.attempts[t].w;
    Granted(cfg, s, i);
    Then(cfg, s0, s, Refresh(i, 0));
    var s1 := Next(cfg, s, Refresh(i, 0));
    AttemptHelps(cfg, s1, Dispatch(t));
    Then(cfg, s0, s1, Dispatch(t));
    s' := Next(cfg, s1, Dispatch(t));
  }

  /** An attempt past its worker's hands, and not bound to be retried. */
  lemma AttemptProceeds(cfg: Config, s: Sys, t: nat) returns (e: Step)
    requires Helps(s) && t < |s.attempts| && !s.attempts[t].stage.Ended? && !s.attempts[t].stage.Exec?
    requires s.attempts[t].stage.Retrying? ==> t in Bound(s, {})
    requires s.attempts[t].w < |s.conns| && (s.conns[s.attempts[t].w].work.Busy? ==> !s.attempts[t].stage.Called?)
    ensures Step1(cfg, s, e)
  {
    match s.attempts[t].stage
    case Flight =>
      e := Respond(t, false);
      AttemptHelps(cfg, s, e);
    case Retrying =>
      if Accepts(s.path) {
        e := RetryTaken(t);
        RetryHelps(cfg, s, t);
      } else {
        e := PathHelps(cfg, s, t);
      }
    case Calling(_, _, _) =>
      e := Deliver(t);
      AttemptHelps(cfg, s, e);
    case Called(usable, _) => e := CalledProceeds(cfg, s, t);
  }

  lemma CalledProceeds(cfg: Config, s: Sys, t: nat) returns (e: Step)
    requires Helps(s) && ValidAttempt(s, t) && s.attempts[t].stage.Called?
    requires !s.conns[s.attempts[t].w].work.Busy?
    ensures Step1(cfg, s, e)
  {
    assert AttemptOk(s, t);
    if s.attempts[t].stage.usable {
      e := Finish(t);
      AttemptHelps(cfg, s, e);
    } else {
      SignalsAreSafe(s, t);
      if s.conns[s.attempts[t].w].work.Idle? {
        e := Signal(t, MainLoop);
        QuitHelps(cfg, s, t);
      } else {
        e := Signal(t, Nobody);
        AttemptHelps(cfg, s, e);
      }
    }
  }

  /** What an unfinished connection can do next. */
  lemma WorkerProceeds(cfg: Config, s: Sys, i: Id) returns (e: Step)
    requires Helps(s) && !s.g.stopped && i < |s.conns| && s.conns[i].launch == Seen(true) && !Finished(s.conns[i])
    requires s.conns[i].work.Busy? ==>
               s.conns[i].work.t < |s.attempts| && !s.attempts[s.conns[i].work.t].stage.Exec?
    ensures Step1(cfg, s, e)
  {
    assert ConnOk(s, i);
    match s.conns[i].work
    case Idle =>
      if MayQuit(s, i) {
        var t :| 0 <= t < |s.attempts| && s.attempts[t].w == i && Condemns(s.attempts[t].stage);
        assert AttemptOk(s, t);
        e := AttemptProceeds(cfg, s, t);
      } else {
        e := SeeClosedInput(i);
        ConnHelps(cfg, s, e);
      }
    case Busy(t) => e := AttemptProceeds(cfg, s, t);
    case Draining => e := DrainingProceeds(cfg, s, i);
    case AtExit(_, _) => e := ExitHelps(cfg, s, i);
  }

  lemma DrainingProceeds(cfg: Config, s: Sys, i: Id) returns (e: Step)
    requires Helps(s) && i < |s.conns| && s.conns[i].work.Draining?
    ensures Step1(cfg, s, e)
  {
    if WaitGroupEmpty(s, i) {
      e := Drained(i);
      ConnHelps(cfg, s, e);
    } else {
      var t :| 0 <= t < |s.attempts| && s.attempts[t].w == i && InWaitGroup(s.attempts[t].stage);
      e := AttemptProceeds(cfg, s, t);
    }
  }

  lemma ConnProceeds(cfg: Config, s0: Sys, s: Sys, i: Id) returns (s': Sys)
    requires Leads(cfg, s0, s) && Helps(s) && !s.g.stopped && i < |s.conns| && !Finished(s.conns[i])
    ensures Leads(cfg, s0, s') && Helps(s') && Measure(s') < Measure(s)
  {
    var c := s.conns[i];
    assert ConnOk(s, i);
    if c.launch.Seen? && c.work.Busy? && s.attempts[c.work.t].stage.Exec? {
      s' := ExecProceeds(cfg, s0, s, c.work.t);
    } else {
      var e: Step;
      if c.launch.Dialing? {
        e := DialOk(i);
        ConnHelps(cfg, s, e);
      } else if c.launch.Ready? {
        e := LauncherHelps(cfg, s, i);
      } else {
        e := WorkerProceeds(cfg, s, i);
      }
      Then(cfg, s0, s, e);
      s' := Next(cfg, s, e);
    }
  }

  lemma AllFinishedStops(s: Sys)
    requires Helps(s) && forall i :: 0 <= i < |s.conns| ==> Finished(s.conns[i])
    ensures s.g.stopped
  {
    if i :| 0 <= i < |s.conns| && Reporter(s.conns[i]) {
      assert ConnOk(s, i) && Finished(s.conns[i]);
    }
    forall i: Id ensures i !in s.g.launchers && i !in s.g.streamers {
      if i < |s.conns| {
        assert ConnOk(s, i) && Finished(s.conns[i]) && !Doomed(s.conns[i]);
      }
    }
    assert s.g.launchers == {} && s.g.streamers == {};
  }

  lemma {:induction false} HelpedStops(cfg: Config, s0: Sys, s: Sys) returns (s': Sys)
    requires Leads(cfg, s0, s) && Helps(s)
    ensures Leads(cfg, s0, s') && Inv(s') && s'.g.stopped && !s'.killed
    decreases Measure(s)
  {
    s' := s;
    if !s.g.stopped {
      if i :| 0 <= i < |s.conns| && !Finished(s.conns[i]) {
        var s1 := ConnProceeds(cfg, s0, s, i);
        s' := HelpedStops(cfg, s0, s1);
      } else {
        AllFinishedStops(s);
      }
    }
  }

  // With no worker left

  /** A state in which only a poll can bring a worker to report the closed input. */
  ghost predicate Deserted(cfg: Config, s: Sys) {
    && Inv(s) && s.outClosed && !s.killed && !s.g.closing
    && SoftOk(cfg, s, {}) && !SomeReporter(s) && !s.g.stopped
  }

  lemma FailedLaunch(cfg: Config, s: Sys, l: Id) returns (s': Sys)
    requires Deserted(cfg, s) && l in s.g.launchers
    ensures l < |s.conns| && s.conns[l].launch == Ready(false)
    ensures var e := Receive(LauncherDone(l, false, s.g.backOff.end, 0));
            Enabled(s, e) && Internal(e) && s' == Next(cfg, s, e)
    ensures Deserted(cfg, s') && s'.g.launchers == s.g.launchers - {l}
  {
    assert ConnOk(s, l) && !Reporter(s.conns[l]) && !Doomed(s.conns[l]);
    var ev := LauncherDone(l, false, s.g.backOff.end, 0);
    s' := NextGov(cfg, s, ev);
    KeepsInv(cfg, s, Receive(ev));
    ReporterOnReceive(cfg, s, ev);
    BoundIgnoresGovernor(s, s', s.conns[l := s'.conns[l]]);
    OthersUnbound(s, l, s'.conns[l]);
    RoomStays(s, s');
    forall j | 0 <= j < |s'.conns| ensures !Doomed(s'.conns[j]) {
      assert !Doomed(s.conns[j]);
    }
  }

  lemma {:induction false} LaunchersFail(cfg: Config, s0: Sys, s: Sys) returns (s': Sys)
    requires Leads(cfg, s0, s) && Deserted(cfg, s)
    ensures Leads(cfg, s0, s') && Deserted(cfg, s') && s'.g.launchers == {}
    decreases |s.g.launchers|
  {
    s' := s;
    if s.g.launchers != {} {
      var l :| l in s.g.launchers;
      var s1 := FailedLaunch(cfg, s, l);
      Then(cfg, s0, s, Receive(LauncherDone(l, false, s.g.backOff.end, 0)));
      s' := LaunchersFail(cfg, s0, s1);
    }
  }

  /** A poll late enough launches a first connection. */
  lemma PollRevives(cfg: Config, s0: Sys, s: Sys) returns (s': Sys)
    requires Leads(cfg, s0, s) && Deserted(cfg, s) && s.g.launchers == {}
    ensures Leads(cfg, s0, s') && Helps(s')
  {
    NothingKnown(s);
    var now := Max(s.g.lastScale + cfg.settle, s.g.backOff.end);
    var ev := Poll(1, now);
    assert AllowedDelta(cfg, s.g, true, now) > 0;
    s' := NextGov(cfg, s, ev);
    KeepsInv(cfg, s, Receive(ev));
    assert Reporter(s'.conns[|s.conns|]);
    PollUnbinds(cfg, s, ev);
    RoomStays(s, s');
    forall j | 0 <= j < |s'.conns| ensures !Doomed(s'.conns[j]) {
      assert j < |s.conns| ==> !Doomed(s.conns[j]);
    }
    Then(cfg, s0, s, Receive(ev));
  }

  lemma PollUnbinds(cfg: Config, s: Sys, e: Event)
    requires Inv(s) && EnabledGov(s, e) && e.Poll?
    ensures BoundShrinks(s, NextGov(cfg, s, e))
  {
    var s' := NextGov(cfg, s, e);
    assert forall j :: MayQuit(s', j) == MayQuit(s, j);
    forall t | t in Bound(s', {}) ensures t in Bound(s, {}) {
      assert AttemptOk(s, t);
    }
  }

  // ---- The exact condition ---------------------------------------------------------------------

  lemma SoftOkStops(cfg: Config, s: Sys) returns (s': Sys)
    requires Inv(s) && s.outClosed && !s.killed && SoftOk(cfg, s, {})
    ensures Leads(cfg, s, s') && s'.g.stopped && !s'.killed
  {
    LeadsNowhere(cfg, s);
    if s.g.stopped {
      s' := s;
    } else if s.g.closing || SomeReporter(s) {
      s' := HelpedStops(cfg, s, s);
    } else {
      var s1 := LaunchersFail(cfg, s, s);
      var s2 := PollRevives(cfg, s, s1);
      s' := HelpedStops(cfg, s, s2);
    }
  }

  lemma InternalKillsNot(cfg: Config, s: Sys, e: Step)
    requires Enabled(s, e) && Internal(e)
    ensures Next(cfg, s, e).killed == s.killed
  {
    if EnabledConn(s, e) || EnabledAttempt(s, e) {
      OnlyReceivesConcernGovernor(s, e);
    }
  }

  lemma {:induction false} SoftOkNeverGained(cfg: Config, s: Sys, es: seq<Step>)
    requires Inv(s) && !s.killed && ValidRun(cfg, s, es) && forall e :: e in es ==> Internal(e)
    requires Final(cfg, s, es).g.stopped
    ensures SoftOk(cfg, s, {})
    decreases |es|
  {
    if es == [] {
      StoppedIsSoftOk(cfg, s, {});
    } else {
      KeepsInv(cfg, s, es[0]);
      InternalKillsNot(cfg, s, es[0]);
      SoftOkNeverGained(cfg, Next(cfg, s, es[0]), es[1..]);
      SoftOkNotGained(cfg, s, es[0], {});
    }
  }

  /** With the input closed and no Kill, the governor can still be brought to stop, by some
      order of the goroutines and whatever the servers answer, if and only if no exit was
      overtaken or swallowed, the retries that must be sent find room on the path, and there
      is, or a poll can launch, a worker to report the closed input. */
  lemma CanStopIff(cfg: Config, s: Sys)
    requires Inv(s) && s.outClosed && !s.killed
    ensures (exists s' :: Leads(cfg, s, s') && s'.g.stopped) <==> SoftOk(cfg, s, {})
  {
    if SoftOk(cfg, s, {}) {
      var s' := SoftOkStops(cfg, s);
    }
    if s' :| Leads(cfg, s, s') && s'.g.stopped {
      var es :| (forall e :: e in es ==> Internal(e)) && ValidRun(cfg, s, es) && Final(cfg, s, es) == s';
      SoftOkNeverGained(cfg, s, es);
    }
  }
}
