/** When a running client stands still, before anybody stops it. */
module PipelineDeadlock {
  import opened Governor
  import opened RetryPath
  import opened Pipeline
  import F = Fleet
  import S = FleetSafety
  import T = FleetTermination
  import W = FleetWitness
  import J = JamWitness
  import L = Lifecycle

  /** The client runs, and its submitter is blocked on handing a request to the workers. */
  predicate Serving(s: Sys) {
    s.l.c.state == L.RUNNING && s.l.submitter.Blocked? && !s.f.g.stopped
  }

  /** What callers, servers and the clock do: a call of Stop, Kill or Push, a new stream
      capacity, the cancellation of a request that sleeps, a poll tick. */
  predicate FromOutside(s: Sys, e: Step) {
    match e
    case KillAll => true
    case OfClient(c) => c.CallStop? || c.CallPush? || c.Stop? || c.PushChecks? || c.PushParks?
    case OfFleet(f) => f.Refresh? || (f.Receive? && f.e.Poll?) || (f.FailInline? && T.Starved(s.f, f.t))
    case _ => false
  }

  ghost predicate StandsStill(s: Sys) {
    forall e: Step :: Enabled(s, e) ==> FromOutside(s, e)
  }

  /** A worker sleeps over a request, and all its streams are held by round trips that are
      blocked on their retries. */
  predicate StarvedOut(f: F.Sys, i: Id)
    requires i < |f.conns|
  {
    && T.StreamBlocked(f, i)
    && forall u :: u in F.Holders(f, i) ==> T.RetryBlocked(f, u)
  }

  predicate ConnStill(f: F.Sys, i: Id)
    requires i < |f.conns|
  {
    T.Finished(f.conns[i]) || StarvedOut(f, i)
  }

  predicate AttemptStill(f: F.Sys, t: nat)
    requires t < |f.attempts|
  {
    f.attempts[t].stage.Ended? || T.RetryBlocked(f, t) || T.Starved(f, t)
  }

  ghost predicate PathStill(p: Path) {
    forall m: Move :: !CanMove(p, m, false)
  }

  /** Every worker is gone or starved out, every round trip is over or blocked on its retry,
      and the retry path does not move. */
  ghost predicate Deadlocked(f: F.Sys) {
    && (forall i :: 0 <= i < |f.conns| ==> ConnStill(f, i))
    && (forall t :: 0 <= t < |f.attempts| ==> AttemptStill(f, t))
    && PathStill(f.path)
  }

  // ---- Standing still is being deadlocked -----------------------------------------------------------

  lemma ServingMeans(s: Sys)
    requires Inv(s) && Serving(s)
    ensures !s.f.outClosed && !s.f.killed && !s.f.hard && s.l.c.cctl == 0 && !s.f.g.closing
  {}

  lemma StillAttemptsRest(s: Sys)
    requires Inv(s) && Serving(s) && StandsStill(s)
    ensures T.AttemptsRest(s.f)
  {
    forall e: F.Step | F.EnabledAttempt(s.f, e) ensures e.FailInline? && T.Starved(s.f, e.t) {
      assert Enabled(s, OfFleet(e));
    }
  }

  lemma StillConns(s: Sys, i: Id)
    requires Inv(s) && Serving(s) && StandsStill(s) && i < |s.f.conns|
    ensures ConnStill(s.f, i)
  {
    ServingMeans(s);
    StillAttemptsRest(s);
    assert S.ConnOk(s.f, i);
    var c := s.f.conns[i];
    if c.launch.Dialing? {
      assert Enabled(s, OfFleet(F.DialOk(i)));
    } else if c.launch.Ready? {
      assert Enabled(s, OfFleet(F.Receive(LauncherDone(i, c.launch.ok, s.f.g.backOff.end, 0))));
    } else if c.work.Idle? {
      assert Enabled(s, HandOver(i, FromSubmitter));
    } else if c.work.AtExit? {
      assert Enabled(s, OfFleet(F.Receive(WorkerDone(i, c.work.didQuit, c.work.inClosed))));
    } else if c.work.Busy? {
      StillBusy(s, i);
    }
  }

  lemma StillBusy(s: Sys, i: Id)
    requires Inv(s) && Serving(s) && T.AttemptsRest(s.f) && i < |s.f.conns|
    requires s.f.conns[i].work.Busy? && s.f.conns[i].launch.Seen?
    ensures StarvedOut(s.f, i)
  {
    ServingMeans(s);
    assert S.ConnOk(s.f, i);
    var t := s.f.conns[i].work.t;
    T.RestIsBlocked(s.f, t);
    T.StarvedByRetries(s.f, t);
  }

  lemma StillPath(s: Sys)
    requires Inv(s) && Serving(s) && StandsStill(s)
    ensures PathStill(s.f.path)
  {
    ServingMeans(s);
    forall m: Move ensures !CanMove(s.f.path, m, false) {
      assert Enabled(s, OfFleet(F.Forward(m))) <==> CanMove(s.f.path, m, false);
    }
  }

  lemma StillIsDeadlocked(s: Sys)
    requires Inv(s) && Serving(s) && StandsStill(s)
    ensures Deadlocked(s.f)
  {
    ServingMeans(s);
    StillAttemptsRest(s);
    StillPath(s);
    forall i | 0 <= i < |s.f.conns| ensures ConnStill(s.f, i) {
      StillConns(s, i);
    }
    forall t | 0 <= t < |s.f.attempts| ensures AttemptStill(s.f, t) {
      if !s.f.attempts[t].stage.Ended? {
        T.RestIsBlocked(s.f, t);
      }
    }
  }

  // ---- And the other way round ----------------------------------------------------------------------

  lemma DeadlockedConn(s: Sys, e: F.Step)
    requires Inv(s) && Serving(s) && Deadlocked(s.f) && F.EnabledConn(s.f, e)
    ensures e.Refresh?
  {
    ServingMeans(s);
    assert S.ConnOk(s.f, e.i) && ConnStill(s.f, e.i);
  }

  lemma DeadlockedAttempt(s: Sys, e: F.Step)
    requires Inv(s) && Serving(s) && Deadlocked(s.f) && F.EnabledAttempt(s.f, e)
    ensures e.FailInline? && T.Starved(s.f, e.t)
  {
    assert AttemptStill(s.f, e.t);
  }

  lemma NobodyReports(s: Sys, i: Id)
    requires Inv(s) && Serving(s) && Deadlocked(s.f) && i < |s.f.conns|
    ensures !s.f.conns[i].launch.Ready? && !s.f.conns[i].work.AtExit?
  {
    assert ConnStill(s.f, i);
  }

  lemma NobodyCloses(s: Sys, i: nat)
    requires Inv(s) && Serving(s)
    ensures !L.Enabled(s.l, L.StopClosesOut(i))
  {
    assert i < |s.l.stops| ==> L.StopOk(s.l, i);
  }

  lemma DeadlockedReceive(s: Sys, e: Event)
    requires Inv(s) && Serving(s) && Deadlocked(s.f) && F.EnabledGov(s.f, e)
    ensures e.Poll?
  {
    ServingMeans(s);
    match e
    case LauncherDone(l, _, _, _) => NobodyReports(s, l);
    case WorkerDone(w, _, _) => NobodyReports(s, w);
    case _ =>
  }

  lemma DeadlockedClient(s: Sys, e: L.Step)
    requires Inv(s) && Serving(s) && ClientAlone(e) && L.Enabled(s.l, e)
    ensures e.CallStop? || e.CallPush? || e.Stop? || e.PushChecks? || e.PushParks?
  {
    ServingMeans(s);
    if L.EnabledStop(s.l, e) {
      assert L.StopOk(s.l, e.i);
    }
  }

  lemma DeadlockedStandsStill(s: Sys)
    requires Inv(s) && Serving(s) && Deadlocked(s.f)
    ensures StandsStill(s)
  {
    ServingMeans(s);
    forall e: Step | Enabled(s, e) ensures FromOutside(s, e) {
      match e
      case OfFleet(f) =>
        if f.Receive? {
          DeadlockedReceive(s, f.e);
        } else if F.EnabledConn(s.f, f) {
          DeadlockedConn(s, f);
        } else if F.EnabledAttempt(s.f, f) {
          DeadlockedAttempt(s, f);
        }
      case OfClient(c) => DeadlockedClient(s, c);
      case HandOver(w, _) => DeadlockedConn(s, F.Step.Take(w));
      case CloseInput(i) => NobodyCloses(s, i);
      case _ =>
    }
  }

  /** A running client whose submitter is blocked stands still, until somebody stops it, cancels a
      request, raises a capacity or polls, if and only if every worker is gone or starved out by
      blocked retries, every round trip is over or blocked on its retry, and the retry path does
      not move.  While a worker is left, that path then carries its full load of 602. */
  lemma StandsStillIff(s: Sys)
    requires Inv(s) && Serving(s)
    ensures StandsStill(s) <==> Deadlocked(s.f)
    ensures StandsStill(s) && (exists i :: 0 <= i < |s.f.conns| && !T.Finished(s.f.conns[i]))
            ==> Load(s.f.path) == RETRY_CAPACITY + BUF_SIZE + 2
  {
    if StandsStill(s) {
      StillIsDeadlocked(s);
      if i :| 0 <= i < |s.f.conns| && !T.Finished(s.f.conns[i]) {
        assert ConnStill(s.f, i);
        StarvedAtFullLoad(s, i);
      }
    } else if Deadlocked(s.f) {
      DeadlockedStandsStill(s);
    }
  }

  lemma StarvedAtFullLoad(s: Sys, i: Id)
    requires Inv(s) && Serving(s) && Deadlocked(s.f) && i < |s.f.conns| && StarvedOut(s.f, i)
    ensures Load(s.f.path) == RETRY_CAPACITY + BUF_SIZE + 2
  {
    ServingMeans(s);
    assert F.Holders(s.f, i) != {};
    var u :| u in F.Holders(s.f, i);
    JammedIff(s.f.path);
  }

  // ---- It lasts -------------------------------------------------------------------------------------

  /** Callers come and go, and the clock ticks. */
  predicate Bystanding(e: Step) {
    || (e.OfClient? && !e.client.Stop?)
    || (e.OfFleet? && e.fleet.Receive?)
  }

  lemma PollIsVain(cfg: Config, s: Sys, e: Event)
    requires Inv(s) && Serving(s) && Deadlocked(s.f) && cfg.maxConns <= |s.f.g.streamers|
    requires e.Poll? && F.EnabledGov(s.f, e)
    ensures F.NextGov(cfg, s.f, e) == s.f
  {
    assert F.Extended(s.f.conns, 0) == s.f.conns;
    assert AllowedDelta(cfg, s.f.g, true, e.now) <= 0;
    assert s.f.g.launchers + NewIds(s.f.g.nextId, 0) == s.f.g.launchers;
  }

  lemma BystandersChangeNothing(cfg: Config, s: Sys, e: Step)
    requires Inv(s) && Serving(s) && Deadlocked(s.f) && cfg.maxConns <= |s.f.g.streamers|
    requires Enabled(s, e) && Bystanding(e)
    ensures Next(cfg, s, e).f == s.f && Serving(Next(cfg, s, e))
  {
    DeadlockedStandsStill(s);
    if e.OfFleet? {
      PollIsVain(cfg, s, e.fleet.e);
    }
  }

  /** A client that stands still with as many connections as it may have stays so, however many
      Pushes are called and polls go by. */
  lemma {:induction false} DeadlockLasts(cfg: Config, s: Sys, es: seq<Step>)
    requires Inv(s) && Serving(s) && Deadlocked(s.f) && cfg.maxConns <= |s.f.g.streamers|
    requires ValidRun(cfg, s, es) && forall e :: e in es ==> Bystanding(e)
    ensures Final(cfg, s, es).f == s.f && Serving(Final(cfg, s, es))
    decreases |es|
  {
    if es != [] {
      BystandersChangeNothing(cfg, s, es[0]);
      Keeps(cfg, s, es[0]);
      DeadlockLasts(cfg, Next(cfg, s, es[0]), es[1..]);
    }
  }

  // ---- A run that leads there -----------------------------------------------------------------------

  /** The submitter takes one more request from the queue and blocks. */
  lemma SubmitterBlocks(cfg: Config, s0: Sys, s: Sys) returns (s': Sys)
    requires Leads(cfg, s0, s) && s.l == Running && !s.f.g.stopped
    ensures Leads(cfg, s0, s') && s'.f == s.f && Serving(s')
  {
    var s1 := ThenClient(cfg, s0, s, L.SubmitterTakes, Running.(submitter := L.Sending));
    s' := ThenClient(cfg, s0, s1, L.SubmitterBlocks, Running.(submitter := L.Blocked));
  }

  lemma StarvingIsDeadlocked(f: F.Sys)
    requires f.conns == [J.Narrow(F.Busy(J.LOAD + 1), true)] && f.attempts == J.Starving() && f.path == J.Filled(J.LOAD)
    ensures Deadlocked(f)
  {
    J.StarvingHolds(f);
    JammedIff(f.path);
    assert StarvedOut(f, 0);
  }

  /** One connection with one stream: 603 requests are sent one after the other and are all to be
      retried, while the submitter goes on with its queue.  The last of them keeps the stream,
      the 604th waits for it, and the submitter is blocked on the 605th, so that nobody takes
      the retries: the client stands still, though nobody has stopped it. */
  lemma RunningClientStandsStill()
    ensures exists s ::
              && Leads(W.UpTo(1), Begin(W.UpTo(1), W.Calm, 0), s) && Inv(s)
              && Serving(s) && StandsStill(s) && |s.f.g.streamers| == 1
  {
    W.OneBegins();
    var cfg := W.UpTo(1);
    var f := J.StarvingFrom(cfg, S.Begin(cfg, W.Calm, 0));
    var s1 := Realized(cfg, W.Calm, 0, f);
    var s := SubmitterBlocks(cfg, Begin(cfg, W.Calm, 0), s1);
    LedToKeeps(cfg, W.Calm, 0, s);
    StarvingIsDeadlocked(f);
    StandsStillIff(s);
  }
}
