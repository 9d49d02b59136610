/** Concrete runs showing that the conditions of FleetSafety and FleetTermination are needed. */
module FleetWitness {
  import opened Words
  import BackOff
  import opened Governor
  import opened Fleet
  import opened FleetSafety
  import opened FleetTermination
  import opened RetryPath

  // ---- Building runs -------------------------------------------------------------

  /** No Kill, and no request comes back to the submitter. */
  predicate Quiet(es: seq<Step>) {
    Kill !in es && Requeue !in es
  }

  ghost predicate Reaches(cfg: Config, s0: Sys, s: Sys) {
    exists es :: Quiet(es) && ValidRun(cfg, s0, es) && Final(cfg, s0, es) == s
  }

  lemma {:induction false} Append(cfg: Config, s0: Sys, es: seq<Step>, e: Step)
    requires ValidRun(cfg, s0, es) && Enabled(Final(cfg, s0, es), e)
    ensures ValidRun(cfg, s0, es + [e])
    ensures Final(cfg, s0, es + [e]) == Next(cfg, Final(cfg, s0, es), e)
    decreases |es|
  {
    if es == [] {
      assert [] + [e] == [e];
      assert ValidRun(cfg, Next(cfg, s0, e), []);
    } else {
      assert (es + [e])[1..] == es[1..] + [e];
      Append(cfg, Next(cfg, s0, es[0]), es[1..], e);
    }
  }

  lemma ReachesStart(cfg: Config, s0: Sys)
    ensures Reaches(cfg, s0, s0)
  {
    assert Quiet([]) && ValidRun(cfg, s0, []);
  }

  lemma Then(cfg: Config, s0: Sys, s: Sys, e: Step, s': Sys)
    requires Reaches(cfg, s0, s) && Enabled(s, e) && Next(cfg, s, e) == s' && !e.Kill? && !e.Requeue?
    ensures Reaches(cfg, s0, s')
  {
    var es :| Quiet(es) && ValidRun(cfg, s0, es) && Final(cfg, s0, es) == s;
    Append(cfg, s0, es, e);
    assert Quiet(es + [e]);
  }

  lemma ThenConn(cfg: Config, s0: Sys, s: Sys, e: Step, s': Sys)
    requires Reaches(cfg, s0, s) && EnabledConn(s, e) && NextConn(s, e) == s'
    ensures Reaches(cfg, s0, s')
  {
    Then(cfg, s0, s, e, s');
  }

  lemma ThenAttempt(cfg: Config, s0: Sys, s: Sys, e: Step, s': Sys)
    requires Reaches(cfg, s0, s) && EnabledAttempt(s, e) && NextAttempt(s, e) == s'
    ensures Reaches(cfg, s0, s')
  {
    Then(cfg, s0, s, e, s');
  }

  lemma ThenClose(cfg: Config, s0: Sys, s: Sys, s': Sys)
    requires Reaches(cfg, s0, s) && !s.outClosed && s' == s.(outClosed := true)
    ensures Reaches(cfg, s0, s')
  {
    Then(cfg, s0, s, CloseOut, s');
  }

  const Calm := BackOff.Tracker(1, 1, 0.0, 0, 0)

  /** At most max connections, and at least one. */
  function UpTo(max: u32): Config {
    Config(Min(1, max), max, (n: u32) => n, (n: u32) => n, 0)
  }

  /** A fleet with its input open, no Kill and nothing on the retry path. */
  function Opening(g: Governor.Gov, conns: seq<Conn>, attempts: seq<Attempt>): Sys {
    Sys(g, conns, attempts, EmptyPath, false, false, false)
  }

  function Loop(launchers: set<Id>, streamers: set<Id>, next: nat, closing: bool, stopped: bool): Governor.Gov {
    Governor.Gov(launchers, streamers, next, closing, 0, Calm, stopped)
  }

  lemma ThenLauncherDone(cfg: Config, s0: Sys, s: Sys, l: Id, ok: bool, s': Sys)
    requires Reaches(cfg, s0, s) && l < |s.conns| && s.conns[l].launch == Ready(ok)
    requires s.g.backOff == Calm && s.g.lastScale == 0 && !s.g.stopped && !s.g.closing
    requires s' == s.(
      g := s.g.(launchers := s.g.launchers - {l}, streamers := if ok then s.g.streamers + {l} else s.g.streamers),
      conns := s.conns[l := s.conns[l].(launch := Seen(ok))])
    ensures Reaches(cfg, s0, s')
  {
    var e := LauncherDone(l, ok, 0, 0);
    assert Handled(cfg, s.g, e) == s'.g;
    assert NextGov(cfg, s, e) == s' by {
      assert Extended(s'.conns, 0) == s'.conns;
    }
    Then(cfg, s0, s, Receive(e), s');
  }

  lemma ThenReplaced(cfg: Config, s0: Sys, s: Sys, w: Id, s': Sys)
    requires Reaches(cfg, s0, s) && w < |s.conns| && s.conns[w].work == AtExit(true, false)
    requires !s.g.stopped && !s.g.closing
    requires s' == s.(
      g := s.g.(launchers := s.g.launchers + {s.g.nextId}, streamers := s.g.streamers - {w}, nextId := s.g.nextId + 1),
      conns := s.conns[w := s.conns[w].(work := Reported(true, false, !s.conns[w].launch.Seen?))] + [Fresh])
    ensures Reaches(cfg, s0, s')
  {
    var e := WorkerDone(w, true, false);
    assert NewIds(s.g.nextId, 1) == {s.g.nextId};
    assert Handled(cfg, s.g, e) == s'.g;
    Then(cfg, s0, s, Receive(e), s');
  }

  lemma ThenAnnounced(cfg: Config, s0: Sys, s: Sys, w: Id, s': Sys)
    requires Reaches(cfg, s0, s) && w < |s.conns| && s.conns[w].work == AtExit(false, true)
    requires !s.g.stopped && !s.g.closing && s.g.launchers == {}
    requires s' == s.(
      g := s.g.(streamers := s.g.streamers - {w}, closing := true, stopped := s.g.streamers - {w} == {}),
      conns := s.conns[w := s.conns[w].(work := Reported(false, true, !s.conns[w].launch.Seen?))])
    ensures Reaches(cfg, s0, s')
  {
    var e := WorkerDone(w, false, true);
    assert Handled(cfg, s.g, e) == s'.g;
    assert NextGov(cfg, s, e) == s' by {
      assert Extended(s'.conns, 0) == s'.conns;
    }
    Then(cfg, s0, s, Receive(e), s');
  }

  lemma OneBegins()
    ensures Begin(UpTo(1), Calm, 0) == Opening(Loop({0}, {}, 1, false, false), [Fresh], [])
  {
    assert AllowedDelta(UpTo(1), Initial(Calm), true, 0) == 1;
    assert NewIds(0, 1) == {0};
    assert Extended([], 1) == [Fresh];
  }

  lemma RestsWhenFinished(s: Sys)
    requires forall i :: 0 <= i < |s.conns| ==> Finished(s.conns[i])
    requires forall t :: 0 <= t < |s.attempts| ==> s.attempts[t].stage.Ended?
    requires s.path == EmptyPath && !s.killed
    ensures AtRest(s)
  {
    forall e: Step | GoroutineStep(e) ensures !Enabled(s, e) {
    }
  }

  // ---- Workers -------------------------------------------------------------------

  /** A stream capacity that does not get in the way. */
  const WIDE := 1000

  function Up(work: Work, used: bool): Conn {
    Conn(Seen(true), work, used, false, WIDE)
  }

  /** A worker that takes no request. */
  function Second(work: Work): Conn {
    Conn(Seen(true), work, false, false, 1)
  }

  lemma HoldersAtMost(s: Sys, i: Id)
    ensures |Holders(s, i)| <= |s.attempts|
  {
    NewIdsCount(0, |s.attempts|);
    SubsetCount(Holders(s, i), NewIds(0, |s.attempts|));
  }

  /** The first worker is up, with many streams. */
  lemma FirstDialed(cfg: Config, s0: Sys) returns (s: Sys)
    requires s0.conns == [Fresh]
    ensures s == s0.(conns := [Conn(Ready(true), Idle, false, false, WIDE)])
    ensures Reaches(cfg, s0, s)
  {
    ReachesStart(cfg, s0);
    var s1 := s0.(conns := [Conn(Ready(true), Idle, false, false, 1)]);
    ThenConn(cfg, s0, s0, DialOk(0), s1);
    s := s0.(conns := [Conn(Ready(true), Idle, false, false, WIDE)]);
    ThenConn(cfg, s0, s1, Refresh(0, WIDE), s);
  }

  /** The first worker runs and the governor knows it. */
  lemma OneRunning(cfg: Config, s0: Sys) returns (s: Sys)
    requires s0 == Opening(Loop({0}, {}, 1, false, false), [Fresh], [])
    ensures s == s0.(g := Loop({}, {0}, 1, false, false), conns := [Up(Idle, false)])
    ensures Reaches(cfg, s0, s)
  {
    var s1 := FirstDialed(cfg, s0);
    s := s1.(g := Loop({}, {0}, 1, false, false), conns := [Up(Idle, false)]);
    ThenLauncherDone(cfg, s0, s1, 0, true, s);
  }

  // ---- No worker left to see the closed input --------------------------------------

  lemma NobodyAnnouncesFrom(cfg: Config, s0: Sys) returns (s: Sys)
    requires s0 == Opening(Loop({0}, {}, 1, false, false), [Fresh], [])
    ensures Reaches(cfg, s0, s) && s.outClosed && !s.hard && AtRest(s) && !s.g.stopped
  {
    ReachesStart(cfg, s0);
    var s1 := s0.(conns := [Conn(Ready(false), Unborn, false, false, 1)]);
    ThenConn(cfg, s0, s0, DialFail(0), s1);
    var s2 := s0.(g := Loop({}, {}, 1, false, false), conns := [Conn(Seen(false), Unborn, false, false, 1)]);
    ThenLauncherDone(cfg, s0, s1, 0, false, s2);
    s := s2.(outClosed := true);
    ThenClose(cfg, s0, s2, s);
    RestsWhenFinished(s);
  }

  /** The only dial fails: the input is closed and everything is at rest, but the governor
      has not stopped, because no worker is there to report the closed input.  Nothing but a
      poll that scales up could bring one. */
  lemma NobodyAnnounces()
    ensures exists s ::
              && Reaches(UpTo(1), Begin(UpTo(1), Calm, 0), s)
              && s.outClosed && !s.hard && AtRest(s) && !s.g.stopped
  {
    OneBegins();
    var s := NobodyAnnouncesFrom(UpTo(1), Begin(UpTo(1), Calm, 0));
  }

  // ---- A connection judged unusable ----------------------------------------------

  function Condemned(launch: Launch, work: Work): Conn {
    Conn(launch, work, true, true, WIDE)
  }

  const Settled := Attempt(0, Ended(Delivered), 1)

  /** The first worker takes a request and dispatches it. */
  lemma FirstFlight(cfg: Config, s0: Sys, s: Sys, launch: Launch) returns (s': Sys)
    requires Reaches(cfg, s0, s) && !s.outClosed
    requires s.conns == [Conn(launch, Idle, false, false, WIDE)] && s.attempts == []
    ensures s' == s.(conns := [Conn(launch, Idle, true, false, WIDE)], attempts := [Attempt(0, Flight, 0)])
    ensures Reaches(cfg, s0, s')
  {
    var s1 := s.(conns := [Conn(launch, Busy(0), true, false, WIDE)], attempts := [Attempt(0, Stage.Exec, 0)]);
    ThenConn(cfg, s0, s, Step.Take(0), s1);
    s' := s.(conns := [Conn(launch, Idle, true, false, WIDE)], attempts := [Attempt(0, Flight, 0)]);
    HoldersAtMost(s1, 0);
    ThenAttempt(cfg, s0, s1, Dispatch(0), s');
  }

  /** Its round trip, already called back, is about to judge the connection unusable. */
  lemma AboutToQuit(cfg: Config, s0: Sys, s: Sys, launch: Launch) returns (s': Sys)
    requires Reaches(cfg, s0, s) && !s.outClosed
    requires s.conns == [Conn(launch, Idle, false, false, WIDE)] && s.attempts == []
    ensures s' == s.(conns := [Condemned(launch, Idle)], attempts := [Attempt(0, Stage.Called(false, Delivered), 1)])
    ensures Reaches(cfg, s0, s')
  {
    var s1 := FirstFlight(cfg, s0, s, launch);
    var s2 := s.(conns := [Condemned(launch, Idle)], attempts := [Attempt(0, Calling(false, false, false), 1)]);
    ThenAttempt(cfg, s0, s1, Respond(0, false), s2);
    s' := s2.(attempts := [Attempt(0, Stage.Called(false, Delivered), 1)]);
    ThenAttempt(cfg, s0, s2, Deliver(0), s');
  }

  // ---- A worker's exit overtakes its launcher's completion -----------------------

  lemma OvertakenFrom(cfg: Config, s0: Sys) returns (s: Sys)
    requires s0 == Opening(Loop({0}, {}, 1, false, false), [Fresh], [])
    ensures s == Opening(Loop({1}, {0}, 2, false, false), [Condemned(Seen(true), Reported(true, false, true)), Fresh],
                     [Settled])
    ensures Reaches(cfg, s0, s)
  {
    var s1 := FirstDialed(cfg, s0);
    var s2 := AboutToQuit(cfg, s0, s1, Ready(true));
    var s3 := s0.(conns := [Condemned(Ready(true), AtExit(true, false))], attempts := [Settled]);
    ThenAttempt(cfg, s0, s2, Signal(0, MainLoop), s3);
    s := ExitFirst(cfg, s0, s3);
  }

  lemma ExitFirst(cfg: Config, s0: Sys, s: Sys) returns (s': Sys)
    requires Reaches(cfg, s0, s)
    requires s == Opening(Loop({0}, {}, 1, false, false), [Condemned(Ready(true), AtExit(true, false))], [Settled])
    ensures s' == Opening(Loop({1}, {0}, 2, false, false), [Condemned(Seen(true), Reported(true, false, true)), Fresh],
                      [Settled])
    ensures Reaches(cfg, s0, s')
  {
    assert {0} + {1} == {0, 1} && {0, 1} - {0} == {1};
    var s1 := s.(g := Loop({0, 1}, {}, 2, false, false),
                 conns := [Condemned(Ready(true), Reported(true, false, true)), Fresh]);
    ThenReplaced(cfg, s0, s, 0, s1);
    s' := s.(g := Loop({1}, {0}, 2, false, false),
             conns := [Condemned(Seen(true), Reported(true, false, true)), Fresh]);
    ThenLauncherDone(cfg, s0, s1, 0, true, s');
  }

  /** The replacement starts in order, sees the closed input and reports it. */
  lemma ReplacementAnnounces(cfg: Config, s0: Sys, s: Sys, first: Conn, known: set<Id>) returns (mid: Sys, s': Sys)
    requires Reaches(cfg, s0, s) && 1 !in known
    requires s.g == Loop({1}, known, 2, false, false) && s.conns == [first, Fresh] && !s.outClosed
    requires forall t :: 0 <= t < |s.attempts| ==> s.attempts[t].w == 0
    ensures Reaches(cfg, s0, mid) && mid.g.streamers == known + {1} && mid.g.launchers == {}
    ensures Reaches(cfg, s0, s')
    ensures s' == s.(g := Loop({}, known, 2, true, known == {}), outClosed := true,
                     conns := [first, Second(Reported(false, true, false))])
  {
    var s1 := s.(conns := [first, Conn(Ready(true), Idle, false, false, 1)]);
    ThenConn(cfg, s0, s, DialOk(1), s1);
    mid := s.(g := Loop({}, known + {1}, 2, false, false), conns := [first, Second(Idle)]);
    ThenLauncherDone(cfg, s0, s1, 1, true, mid);
    s' := SecondAnnounces(cfg, s0, mid, first, known);
  }

  lemma SecondAnnounces(cfg: Config, s0: Sys, s: Sys, first: Conn, known: set<Id>) returns (s': Sys)
    requires Reaches(cfg, s0, s) && 1 !in known && !s.outClosed
    requires s.g == Loop({}, known + {1}, 2, false, false) && s.conns == [first, Second(Idle)]
    requires forall t :: 0 <= t < |s.attempts| ==> s.attempts[t].w == 0
    ensures Reaches(cfg, s0, s')
    ensures s' == s.(g := Loop({}, known, 2, true, known == {}), outClosed := true,
                     conns := [first, Second(Reported(false, true, false))])
  {
    var s2 := s.(outClosed := true);
    ThenClose(cfg, s0, s, s2);
    var s3 := s2.(conns := [first, Second(Draining)]);
    ThenConn(cfg, s0, s2, SeeClosedInput(1), s3);
    var s4 := s2.(conns := [first, Second(AtExit(false, true))]);
    ThenConn(cfg, s0, s3, Drained(1), s4);
    assert known + {1} - {1} == known;
    s' := s2.(g := Loop({}, known, 2, true, known == {}),
              conns := [first, Second(Reported(false, true, false))]);
    ThenAnnounced(cfg, s0, s4, 1, s');
  }

  lemma OvertakenWedgesFrom(cfg: Config, s0: Sys) returns (mid: Sys, s: Sys)
    requires s0 == Opening(Loop({0}, {}, 1, false, false), [Fresh], [])
    ensures Reaches(cfg, s0, mid) && mid.g.streamers == {0, 1}
    ensures Reaches(cfg, s0, s) && s.outClosed && !s.hard && AtRest(s) && SomeAnnounced(s) && !s.g.stopped
  {
    var s1 := OvertakenFrom(cfg, s0);
    mid, s := ReplacementAnnounces(cfg, s0, s1, Condemned(Seen(true), Reported(true, false, true)), {0});
    assert {0} + {1} == {0, 1};
    assert AnnouncedClose(s.conns[1]);
    RestsWhenFinished(s);
  }

  /** A worker's exit received before its launcher's completion leaves the dead worker in
      the governor's map: with a maximum of one connection the governor counts two. */
  lemma OvertakenExitOvercounts()
    ensures exists s :: Reaches(UpTo(1), Begin(UpTo(1), Calm, 0), s) && s.g.streamers == {0, 1}
  {
    OneBegins();
    var mid, _ := OvertakenWedgesFrom(UpTo(1), Begin(UpTo(1), Calm, 0));
  }

  /** And after an announced close it never stops. */
  lemma OvertakenExitWedges()
    ensures exists s ::
              && Reaches(UpTo(1), Begin(UpTo(1), Calm, 0), s)
              && s.outClosed && !s.hard && AtRest(s) && SomeAnnounced(s) && !s.g.stopped
  {
    OneBegins();
    var _, s := OvertakenWedgesFrom(UpTo(1), Begin(UpTo(1), Calm, 0));
  }

  // ---- A quit leaves round trips behind -------------------------------------------

  /** Two requests are in flight when the first one's connection is judged unusable: the
      governor replaces the worker, is told of the closed input and stops, while the second
      request is still waiting for its response. */
  lemma QuitAbandonsFrom(cfg: Config, s0: Sys) returns (s: Sys)
    requires s0 == Opening(Loop({0}, {}, 1, false, false), [Fresh], [])
    ensures Reaches(cfg, s0, s) && s.g.stopped && !s.hard && s.outClosed && |s.conns| > 0
    ensures |s.attempts| == 2 && s.attempts[1] == Attempt(0, Flight, 0)
  {
    var s2 := OneRunning(cfg, s0);
    var s3 := AboutToQuit(cfg, s0, s2, Seen(true));
    var first, second := Attempt(0, Stage.Called(false, Delivered), 1), Attempt(0, Flight, 0);
    var s4 := s3.(conns := [Condemned(Seen(true), Busy(1))], attempts := [first, Attempt(0, Stage.Exec, 0)]);
    ThenConn(cfg, s0, s3, Take(0), s4);
    var s5 := s3.(attempts := [first, second]);
    HoldersAtMost(s4, 0);
    ThenAttempt(cfg, s0, s4, Dispatch(1), s5);
    s := QuitReplaced(cfg, s0, s5);
  }

  lemma QuitReplaced(cfg: Config, s0: Sys, s: Sys) returns (s': Sys)
    requires Reaches(cfg, s0, s)
    requires s == Opening(Loop({}, {0}, 1, false, false), [Condemned(Seen(true), Idle)],
                      [Attempt(0, Stage.Called(false, Delivered), 1), Attempt(0, Flight, 0)])
    ensures s'.outClosed && |s'.conns| > 0
    ensures Reaches(cfg, s0, s') && s'.g.stopped && !s'.hard && s'.attempts == [Settled, Attempt(0, Flight, 0)]
  {
    var s1 := s.(conns := [Condemned(Seen(true), AtExit(true, false))], attempts := [Settled, Attempt(0, Flight, 0)]);
    ThenAttempt(cfg, s0, s, Signal(0, MainLoop), s1);
    var gone := Condemned(Seen(true), Reported(true, false, false));
    var s2 := s1.(g := Loop({1}, {}, 2, false, false), conns := [gone, Fresh]);
    ThenReplaced(cfg, s0, s1, 0, s2);
    var mid;
    mid, s' := ReplacementAnnounces(cfg, s0, s2, gone, {});
  }

  /** So a soft stop can complete with a request unsettled, but only on a connection that
      was judged unusable (FleetSafety.SoftStop). */
  lemma QuitAbandonsRoundTrips()
    ensures exists s ::
              && Reaches(UpTo(1), Begin(UpTo(1), Calm, 0), s) && s.g.stopped && !s.hard
              && exists t :: 0 <= t < |s.attempts| && s.attempts[t].stage.Flight?
  {
    OneBegins();
    var s := QuitAbandonsFrom(UpTo(1), Begin(UpTo(1), Calm, 0));
    assert s.attempts[1].stage.Flight?;
  }

  // ---- A second quit signal swallows an exit --------------------------------------

  lemma SwallowedFrom(cfg: Config, s0: Sys) returns (s: Sys)
    requires s0 == Opening(Loop({0}, {}, 1, false, false), [Fresh], [])
    ensures Reaches(cfg, s0, s) && !s.g.stopped && s.g.launchers == {} && s.g.streamers == {0}
    ensures s.outClosed && !s.hard && AtRest(s)
    ensures OrderedLaunch(s)
  {
    var s2 := OneRunning(cfg, s0);
    var s3 := AboutToQuit(cfg, s0, s2, Seen(true));
    var first := s3.attempts[0];
    var s4 := s3.(conns := [Condemned(Seen(true), Busy(1))], attempts := [first, Attempt(0, Stage.Exec, 0)]);
    ThenConn(cfg, s0, s3, Take(0), s4);
    var s5 := s3.(attempts := [first, Attempt(0, Flight, 0)]);
    HoldersAtMost(s4, 0);
    ThenAttempt(cfg, s0, s4, Dispatch(1), s5);
    s := SecondQuit(cfg, s0, s5);
  }

  predicate OrderedLaunch(s: Sys) {
    forall i :: 0 <= i < |s.conns| ==> s.conns[i].launch.Seen? && !Zombie(s.conns[i])
  }

  lemma SecondQuit(cfg: Config, s0: Sys, s: Sys) returns (s': Sys)
    requires Reaches(cfg, s0, s)
    requires s == Opening(Loop({}, {0}, 1, false, false), [Condemned(Seen(true), Idle)],
                      [Attempt(0, Stage.Called(false, Delivered), 1), Attempt(0, Flight, 0)])
    ensures Reaches(cfg, s0, s') && s'.g == s.g && s'.outClosed && !s'.hard && AtRest(s')
    ensures s'.conns == [Condemned(Seen(true), Vanished)]
  {
    var first := s.attempts[0];
    var s1 := s.(attempts := [first, Attempt(0, Calling(false, false, false), 1)]);
    ThenAttempt(cfg, s0, s, Respond(1, false), s1);
    var s2 := s.(attempts := [first, first]);
    ThenAttempt(cfg, s0, s1, Deliver(1), s2);
    s' := BothQuit(cfg, s0, s2, first);
  }

  lemma BothQuit(cfg: Config, s0: Sys, s: Sys, first: Attempt) returns (s': Sys)
    requires Reaches(cfg, s0, s) && first == Attempt(0, Stage.Called(false, Delivered), 1)
    requires s == Opening(Loop({}, {0}, 1, false, false), [Condemned(Seen(true), Idle)], [first, first])
    ensures Reaches(cfg, s0, s') && s'.g == s.g && s'.outClosed && !s'.hard && AtRest(s')
    ensures s'.conns == [Condemned(Seen(true), Vanished)]
  {
    var s3 := s.(conns := [Condemned(Seen(true), AtExit(true, false))], attempts := [Settled, first]);
    ThenAttempt(cfg, s0, s, Signal(0, MainLoop), s3);
    var s4 := s.(conns := [Condemned(Seen(true), Vanished)], attempts := [Settled, Settled]);
    ThenAttempt(cfg, s0, s3, Signal(1, ExitSelect), s4);
    s' := s4.(outClosed := true);
    ThenClose(cfg, s0, s4, s');
    RestsWhenFinished(s');
  }

  /** Every launcher was received before its worker, yet the governor keeps a connection
      that no longer exists and never stops: the worker's exit was swallowed by the quit
      signal of a second round trip. */
  lemma SwallowedExitWedges()
    ensures exists s ::
              && Reaches(UpTo(1), Begin(UpTo(1), Calm, 0), s)
              && s.outClosed && !s.hard && AtRest(s) && OrderedLaunch(s) && s.g.streamers != {} && !s.g.stopped
  {
    OneBegins();
    var s := SwallowedFrom(UpTo(1), Begin(UpTo(1), Calm, 0));
  }

  // ---- A hard stop meets a round trip ----------------------------------------------

  /** After a hard stop closed the worker's control channel, a round trip that judges the
      connection unusable sends its quit signal on a closed channel. */
  lemma HardStopMeetsSignal()
    ensures exists es ::
              && ValidRun(UpTo(1), Begin(UpTo(1), Calm, 0), es)
              && SendPanics(Final(UpTo(1), Begin(UpTo(1), Calm, 0), es), 0)
  {
    OneBegins();
    var s := HardStopFrom(UpTo(1), Begin(UpTo(1), Calm, 0));
    HardStopped(UpTo(1), Begin(UpTo(1), Calm, 0), s);
  }

  lemma HardStopped(cfg: Config, s0: Sys, s: Sys)
    requires Reaches(cfg, s0, s) && !s.g.stopped && SendPanics(NextGov(cfg, s.(killed := true), HardStop), 0)
    ensures exists es :: ValidRun(cfg, s0, es) && SendPanics(Final(cfg, s0, es), 0)
  {
    var es :| Quiet(es) && ValidRun(cfg, s0, es) && Final(cfg, s0, es) == s;
    Append(cfg, s0, es, Kill);
    Append(cfg, s0, es + [Kill], Receive(HardStop));
  }

  lemma HardStopFrom(cfg: Config, s0: Sys) returns (s: Sys)
    requires s0 == Opening(Loop({0}, {}, 1, false, false), [Fresh], [])
    ensures Reaches(cfg, s0, s) && !s.g.stopped
    ensures SendPanics(NextGov(cfg, s.(killed := true), HardStop), 0)
  {
    var s1 := OneRunning(cfg, s0);
    s := AboutToQuit(cfg, s0, s1, Seen(true));
  }
}
