/** Concrete runs in which the retry path fills up. */
module JamWitness {
  import opened Words
  import opened Governor
  import opened Fleet
  import opened FleetSafety
  import opened FleetTermination
  import opened FleetWitness
  import opened RetryPath

  // ---- A retry path that fills up ------------------------------------------------------

  const LOAD := RETRY_CAPACITY + BUF_SIZE + 2

  /** n requests taken by the first worker: k of them back on the retry path, the rest in flight. */
  function Sent(n: nat, k: nat): seq<Attempt> {
    seq(n, i => Attempt(0, if i < k then Ended(Requeued) else Flight, 0))
  }

  function Ids(from: nat, to: nat): seq<nat> {
    if from < to then seq(to - from, i requires 0 <= i => from + i) else []
  }

  lemma IdsGrow(from: nat, to: nat)
    requires from <= to
    ensures Ids(from, to) + [to] == Ids(from, to + 1)
  {}

  /** The path after the first k requests were sent back and no one took them. */
  function Filled(k: nat): Path {
    Path(Ids(BUF_SIZE + 2, k),
         if k > BUF_SIZE + 1 then Holds(BUF_SIZE + 1) else Free,
         Ids(1, Min(k, BUF_SIZE + 1)),
         if k > 0 then Holds(0) else Unstarted)
  }

  lemma {:induction false} ManyTaken(cfg: Config, s0: Sys, s: Sys, n: nat) returns (s': Sys)
    requires Reaches(cfg, s0, s) && s.conns == [Up(Idle, false)] && s.attempts == [] && !s.outClosed && n < WIDE
    ensures s' == s.(conns := [Up(Idle, n > 0)], attempts := Sent(n, 0))
    ensures Reaches(cfg, s0, s')
  {
    if n == 0 {
      s' := s;
    } else {
      var s1 := ManyTaken(cfg, s0, s, n - 1);
      s' := OneTaken(cfg, s0, s1, n - 1);
    }
  }

  lemma OneTaken(cfg: Config, s0: Sys, s: Sys, n: nat) returns (s': Sys)
    requires Reaches(cfg, s0, s) && !s.outClosed && n + 1 < WIDE
    requires s.conns == [Up(Idle, n > 0)] && s.attempts == Sent(n, 0)
    ensures s' == s.(conns := [Up(Idle, true)], attempts := Sent(n + 1, 0))
    ensures Reaches(cfg, s0, s')
  {
    var s1 := s.(conns := [Up(Busy(n), true)], attempts := s.attempts + [Attempt(0, Stage.Exec, 0)]);
    ThenConn(cfg, s0, s, Take(0), s1);
    s' := s.(conns := [Up(Idle, true)], attempts := Sent(n + 1, 0));
    assert s1.attempts[n := Attempt(0, Flight, 0)] == Sent(n + 1, 0);
    HoldersAtMost(s1, 0);
    ThenAttempt(cfg, s0, s1, Dispatch(n), s');
  }

  lemma ThenForward(cfg: Config, s0: Sys, s: Sys, m: Move, s': Sys)
    requires Reaches(cfg, s0, s) && CanMove(s.path, m, s.killed) && s' == s.(path := Moved(s.path, m))
    ensures Reaches(cfg, s0, s')
  {
    Then(cfg, s0, s, Forward(m), s');
  }

  /** Request k is sent back. */
  lemma OneOffered(cfg: Config, s0: Sys, s: Sys, n: nat, k: nat) returns (s': Sys)
    requires Reaches(cfg, s0, s) && |s.conns| > 0
    requires k < n && k < LOAD && s.attempts == Sent(n, k) && s.path == Filled(k)
    ensures s' == s.(attempts := Sent(n, k + 1), path := Offered(Filled(k), k))
    ensures Reaches(cfg, s0, s')
  {
    var s1 := s.(attempts := s.attempts[k := Attempt(0, Retrying, 0)]);
    ThenAttempt(cfg, s0, s, Retry(k), s1);
    s' := s.(attempts := Sent(n, k + 1), path := Offered(Filled(k), k));
    assert s1.attempts[k := Attempt(0, Ended(Requeued), 0)] == Sent(n, k + 1);
    ThenAttempt(cfg, s0, s1, RetryTaken(k), s');
  }

  /** The path moves it on as far as it goes. */
  lemma OneForwarded(cfg: Config, s0: Sys, s: Sys, k: nat) returns (s': Sys)
    requires Reaches(cfg, s0, s) && s.path == Offered(Filled(k), k) && k < LOAD
    ensures s' == s.(path := Filled(k + 1))
    ensures Reaches(cfg, s0, s')
  {
    s' := s.(path := Filled(k + 1));
    if k > BUF_SIZE + 1 {
      IdsGrow(BUF_SIZE + 2, k);
    } else {
      var s1 := s.(path := Path([], Holds(k), Ids(1, k), Filled(k).feeder));
      ThenForward(cfg, s0, s, Fetch, s1);
      if k <= BUF_SIZE {
        var s2 := s.(path := Path([], Free, Ids(1, k) + [k], if k > 0 then Holds(0) else Free));
        ThenForward(cfg, s0, s1, Put, s2);
        if k == 0 {
          ThenForward(cfg, s0, s2, Feed, s');
        } else {
          IdsGrow(1, k);
        }
      }
    }
  }

  lemma OneSentBack(cfg: Config, s0: Sys, s: Sys, n: nat, k: nat) returns (s': Sys)
    requires Reaches(cfg, s0, s) && |s.conns| > 0
    requires k < n && k < LOAD && s.attempts == Sent(n, k) && s.path == Filled(k)
    ensures s' == s.(attempts := Sent(n, k + 1), path := Filled(k + 1))
    ensures Reaches(cfg, s0, s')
  {
    var s1 := OneOffered(cfg, s0, s, n, k);
    s' := OneForwarded(cfg, s0, s1, k);
  }

  lemma {:induction false} ManySentBack(cfg: Config, s0: Sys, s: Sys, n: nat, k: nat) returns (s': Sys)
    requires Reaches(cfg, s0, s) && |s.conns| > 0 && s.attempts == Sent(n, 0) && s.path == EmptyPath
    requires k <= n && k <= LOAD
    ensures s' == s.(attempts := Sent(n, k), path := Filled(k))
    ensures Reaches(cfg, s0, s')
  {
    if k == 0 {
      s' := s;
    } else {
      var s1 := ManySentBack(cfg, s0, s, n, k - 1);
      s' := OneSentBack(cfg, s0, s1, n, k - 1);
    }
  }

  lemma RetriesWedgeFrom(cfg: Config, s0: Sys) returns (s: Sys)
    requires s0 == Opening(Loop({0}, {}, 1, false, false), [Fresh], [])
    ensures Reaches(cfg, s0, s) && s.outClosed && !s.killed && AtRest(s) && !s.g.stopped
    ensures BlockedBehind(s, 0, LOAD) && Jammed(s.path)
    ensures s.conns == [Up(Draining, true)]
  {
    var s1 := OneRunning(cfg, s0);
    var s2 := ManyTaken(cfg, s0, s1, LOAD + 1);
    var s3 := s2.(outClosed := true);
    ThenClose(cfg, s0, s2, s3);
    var s4 := s3.(conns := [Up(Draining, true)]);
    ThenConn(cfg, s0, s3, SeeClosedInput(0), s4);
    var s5 := ManySentBack(cfg, s0, s4, LOAD + 1, LOAD);
    s := s5.(attempts := s5.attempts[LOAD := Attempt(0, Retrying, 0)]);
    ThenAttempt(cfg, s0, s5, Retry(LOAD), s);
    RestsWhenJammed(s, LOAD);
  }

  lemma RestsWhenJammed(s: Sys, t: nat)
    requires s.conns == [Up(Draining, true)] && s.outClosed && !s.killed
    requires PathOk(s.path, false) && Jammed(s.path) && BlockedBehind(s, 0, t)
    requires forall u :: 0 <= u < |s.attempts| && u != t ==> s.attempts[u].stage.Ended?
    ensures AtRest(s)
  {
    JammedIff(s.path);
    assert InWaitGroup(s.attempts[t].stage);
    forall e: Step | GoroutineStep(e) ensures !Enabled(s, e) {
    }
  }

  /** The input is closed while 603 requests are in flight, and all of them are to be retried.
      The submitter has left, so the retry path fills up with 602, the last round trip waits
      to send its request, and its worker waits for the round trip: nothing moves any more,
      and the governor has not stopped. */
  lemma RetriesWedge()
    ensures exists s ::
              && Reaches(UpTo(1), Begin(UpTo(1), Calm, 0), s)
              && s.outClosed && AtRest(s) && DrainBlocked(s, 0) && !s.g.stopped
  {
    OneBegins();
    var s := RetriesWedgeFrom(UpTo(1), Begin(UpTo(1), Calm, 0));
  }

  // ---- Retries that hold the streams ---------------------------------------------------

  /** The first worker, with a single stream. */
  function Narrow(work: Work, used: bool): Conn {
    Conn(Seen(true), work, used, false, 1)
  }

  /** Request k is taken, sent, to be retried, and on the path before the next one is taken. */
  lemma OneInTurn(cfg: Config, s0: Sys, s: Sys, k: nat) returns (s': Sys)
    requires Reaches(cfg, s0, s) && !s.outClosed && |s.conns| > 0 && s.conns[0] == Narrow(Idle, k > 0)
    requires k < LOAD && s.attempts == Sent(k, k) && s.path == Filled(k)
    ensures s' == s.(conns := s.conns[0 := Narrow(Idle, true)], attempts := Sent(k + 1, k + 1), path := Filled(k + 1))
    ensures Reaches(cfg, s0, s')
  {
    var s1 := OneSentAlone(cfg, s0, s, k);
    s' := OneSentBack(cfg, s0, s1, k + 1, k);
  }

  lemma OneSentAlone(cfg: Config, s0: Sys, s: Sys, k: nat) returns (s': Sys)
    requires Reaches(cfg, s0, s) && !s.outClosed && |s.conns| > 0 && s.conns[0] == Narrow(Idle, k > 0)
    requires s.attempts == Sent(k, k)
    ensures s' == s.(conns := s.conns[0 := Narrow(Idle, true)], attempts := Sent(k + 1, k))
    ensures Reaches(cfg, s0, s')
  {
    var s1 := s.(conns := s.conns[0 := Narrow(Busy(k), true)],
                 attempts := s.attempts + [Attempt(0, Stage.Exec, 0)]);
    ThenConn(cfg, s0, s, Take(0), s1);
    assert Holders(s1, 0) == {};
    s' := s.(conns := s.conns[0 := Narrow(Idle, true)], attempts := Sent(k + 1, k));
    assert s1.attempts[k := Attempt(0, Flight, 0)] == Sent(k + 1, k);
    ThenAttempt(cfg, s0, s1, Dispatch(k), s');
  }

  lemma {:induction false} ManyInTurn(cfg: Config, s0: Sys, s: Sys, k: nat) returns (s': Sys)
    requires Reaches(cfg, s0, s) && !s.outClosed && |s.conns| > 0 && s.conns[0] == Narrow(Idle, false)
    requires k <= LOAD && s.attempts == [] && s.path == EmptyPath
    ensures s' == s.(conns := s.conns[0 := Narrow(Idle, k > 0)], attempts := Sent(k, k), path := Filled(k))
    ensures Reaches(cfg, s0, s')
  {
    if k == 0 {
      s' := s;
    } else {
      var s1 := ManyInTurn(cfg, s0, s, k - 1);
      s' := OneInTurn(cfg, s0, s1, k - 1);
    }
  }

  /** The 603rd request is blocked on its retry and keeps the only stream; the 604th waits for it. */
  function Starving(): seq<Attempt> {
    Sent(LOAD, LOAD) + [Attempt(0, Retrying, 0), Attempt(0, Stage.Exec, 0)]
  }

  lemma Starve(cfg: Config, s0: Sys, s: Sys) returns (s': Sys)
    requires Reaches(cfg, s0, s) && !s.outClosed && |s.conns| > 0 && s.conns[0] == Narrow(Idle, false)
    requires s.attempts == [] && s.path == EmptyPath
    ensures s' == s.(conns := s.conns[0 := Narrow(Busy(LOAD + 1), true)], attempts := Starving(), path := Filled(LOAD))
    ensures Reaches(cfg, s0, s')
  {
    var s1 := ManyInTurn(cfg, s0, s, LOAD);
    var s2 := OneSentAlone(cfg, s0, s1, LOAD);
    var s3 := s2.(attempts := Sent(LOAD, LOAD) + [Attempt(0, Retrying, 0)]);
    assert s2.attempts[LOAD := Attempt(0, Retrying, 0)] == s3.attempts;
    ThenAttempt(cfg, s0, s2, Retry(LOAD), s3);
    s' := s3.(conns := s.conns[0 := Narrow(Busy(LOAD + 1), true)], attempts := Starving());
    assert s3.attempts + [Attempt(0, Stage.Exec, 0)] == Starving();
    ThenConn(cfg, s0, s3, Take(0), s');
  }

  lemma StarvingHolds(s: Sys)
    requires |s.conns| > 0 && s.conns[0].cap == 1 && s.attempts == Starving() && s.path == Filled(LOAD)
    ensures Holders(s, 0) == {LOAD} && Starved(s, LOAD + 1) && RetryBlocked(s, LOAD) && Jammed(s.path)
    ensures forall i :: i != 0 ==> Holders(s, i) == {}
    ensures PathOk(s.path, false)
  {
    assert Holders(s, 0) == {LOAD};
  }

  function Pair(): Config {
    Config(2, 2, (n: u32) => n, (n: u32) => n, 0)
  }

  lemma TwoBegin()
    ensures Begin(Pair(), Calm, 0) == Opening(Loop({0, 1}, {}, 2, false, false), [Fresh, Fresh], [])
  {
    assert AllowedDelta(Pair(), Initial(Calm), true, 0) == 2;
    assert NewIds(0, 2) == {0, 1};
    assert Extended([], 2) == [Fresh, Fresh];
  }

  lemma TwoRunning(cfg: Config, s0: Sys) returns (s: Sys)
    requires s0 == Opening(Loop({0, 1}, {}, 2, false, false), [Fresh, Fresh], [])
    ensures s == s0.(g := Loop({}, {0, 1}, 2, false, false), conns := [Narrow(Idle, false), Second(Idle)])
    ensures Reaches(cfg, s0, s)
  {
    ReachesStart(cfg, s0);
    var up := Conn(Ready(true), Idle, false, false, 1);
    var s1 := s0.(conns := [up, Fresh]);
    ThenConn(cfg, s0, s0, DialOk(0), s1);
    var s2 := s0.(conns := [up, up]);
    ThenConn(cfg, s0, s1, DialOk(1), s2);
    assert {0, 1} - {0} == {1};
    var s3 := s0.(g := Loop({1}, {0}, 2, false, false), conns := [Narrow(Idle, false), up]);
    ThenLauncherDone(cfg, s0, s2, 0, true, s3);
    assert {0} + {1} == {0, 1};
    s := s0.(g := Loop({}, {0, 1}, 2, false, false), conns := [Narrow(Idle, false), Second(Idle)]);
    ThenLauncherDone(cfg, s0, s3, 1, true, s);
  }

  /** The second worker, which has nothing to do, sees the closed input and reports it. */
  lemma IdleAnnounces(cfg: Config, s0: Sys, s: Sys, first: Conn) returns (s': Sys)
    requires Reaches(cfg, s0, s) && !s.outClosed && s.g == Loop({}, {0, 1}, 2, false, false)
    requires s.conns == [first, Second(Idle)]
    requires forall t :: 0 <= t < |s.attempts| ==> s.attempts[t].w == 0
    ensures s' == s.(g := Loop({}, {0}, 2, true, false), outClosed := true,
                     conns := [first, Second(Reported(false, true, false))])
    ensures Reaches(cfg, s0, s')
  {
    assert {0} + {1} == {0, 1};
    s' := SecondAnnounces(cfg, s0, s, first, {0});
  }

  lemma StreamsWedgeFrom(cfg: Config, s0: Sys) returns (s: Sys)
    requires s0 == Opening(Loop({0, 1}, {}, 2, false, false), [Fresh, Fresh], [])
    ensures Reaches(cfg, s0, s) && s.outClosed && !s.killed && !s.g.stopped
    ensures AtRest(s) && SomeAnnounced(s) && StreamBlocked(s, 0)
  {
    var s1 := TwoRunning(cfg, s0);
    var s2 := Starve(cfg, s0, s1);
    s := IdleAnnounces(cfg, s0, s2, Narrow(Busy(LOAD + 1), true));
    StarvingHolds(s);
    assert AnnouncedClose(s.conns[1]);
    RestsWhenStarving(s);
  }

  lemma RestsWhenStarving(s: Sys)
    requires s.conns == [Narrow(Busy(LOAD + 1), true), Second(Reported(false, true, false))]
    requires s.outClosed && !s.killed && s.attempts == Starving() && s.path == Filled(LOAD)
    ensures AtRest(s)
  {
    StarvingHolds(s);
    JammedIff(s.path);
    forall e: Step | GoroutineStep(e) && Enabled(s, e) ensures e.FailInline? && Starved(s, e.t) {
    }
  }

  /** One worker has reported the closed input; the other sleeps over a request, because its
      only stream is held by a round trip that is blocked on its retry.  Nothing moves any
      more and the governor has not stopped. */
  lemma StreamsWedge()
    ensures exists s ::
              && Reaches(Pair(), Begin(Pair(), Calm, 0), s)
              && s.outClosed && AtRest(s) && SomeAnnounced(s) && StreamBlocked(s, 0) && !s.g.stopped
  {
    TwoBegin();
    var s := StreamsWedgeFrom(Pair(), Begin(Pair(), Calm, 0));
  }

  /** The same with a single worker, and the input still open. */
  lemma StarvingFrom(cfg: Config, s0: Sys) returns (s: Sys)
    requires s0 == Opening(Loop({0}, {}, 1, false, false), [Fresh], [])
    ensures s == Sys(Loop({}, {0}, 1, false, false), [Narrow(Busy(LOAD + 1), true)], Starving(), Filled(LOAD),
                     false, false, false)
    ensures Reaches(cfg, s0, s)
  {
    ReachesStart(cfg, s0);
    var s1 := s0.(conns := [Conn(Ready(true), Idle, false, false, 1)]);
    ThenConn(cfg, s0, s0, DialOk(0), s1);
    var s2 := s0.(g := Loop({}, {0}, 1, false, false), conns := [Narrow(Idle, false)]);
    ThenLauncherDone(cfg, s0, s1, 0, true, s2);
    s := Starve(cfg, s0, s2);
  }
}
