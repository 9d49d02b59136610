/** From which states of the whole pipeline the governor can still be brought to its end. */
module PipelineShutdown {
  import opened Governor
  import opened RetryPath
  import opened Pipeline
  import F = Fleet
  import S = FleetSafety
  import T = FleetTermination
  import D = FleetShutdown
  import L = Lifecycle

  // ---- The condition ---------------------------------------------------------------------------

  /** Pushes that may still hand their request to a worker. */
  function Pushing(l: L.Sys): set<nat> {
    set i | 0 <= i < |l.pushes| && L.InFlight(l.pushes[i])
  }

  /** Workers that a request from a Push may still make quit, so that they need not drain. */
  function Reliefs(s: Sys): nat {
    if s.f.outClosed then 0 else |Pushing(s.l)|
  }

  ghost predicate Relieves(cfg: Config, s: Sys, relieved: set<Id>) {
    |relieved| <= Reliefs(s) && D.SoftOk(cfg, s.f, relieved)
  }

  /** A Stop was admitted, and the fleet can still stop softly. */
  ghost predicate Softly(cfg: Config, s: Sys) {
    L.SomeAdmitted(s.l) && exists relieved :: Relieves(cfg, s, relieved)
  }

  ghost predicate Stoppable(cfg: Config, s: Sys) {
    s.f.g.stopped || s.l.c.gctl > 0 || !L.KillRefused(s.l.c) || Softly(cfg, s)
  }

  /** Neither stopped nor killed, and too late for a Kill. */
  predicate Late(s: Sys) {
    !s.f.g.stopped && s.l.c.gctl == 0 && L.KillRefused(s.l.c)
  }

  // ---- It is never gained ------------------------------------------------------------------------

  lemma LateMeansLeft(s: Sys)
    requires Inv(s) && Late(s)
    ensures s.l.c.state == L.CLOSED && (s.l.submitter.Left? || s.l.submitter.Gone?) && !s.f.killed
  {}

  lemma SoftlyOnFleet(cfg: Config, s: Sys, e: F.Step)
    requires Inv(s) && Late(s) && Enabled(s, OfFleet(e)) && Stoppable(cfg, Next(cfg, s, OfFleet(e)))
    ensures Softly(cfg, s)
  {
    var s' := Next(cfg, s, OfFleet(e));
    Keeps(cfg, s, OfFleet(e));
    FleetAloneShares(cfg, s.f, e);
    var relieved: set<Id> := {};
    if s'.f.g.stopped {
      D.StoppedIsSoftOk(cfg, s'.f, {});
    } else {
      relieved :| Relieves(cfg, s', relieved);
    }
    D.SoftOkNotGained(cfg, s.f, e, relieved);
    assert Relieves(cfg, s, relieved);
  }

  lemma SoftlyOnClient(cfg: Config, s: Sys, e: L.Step)
    requires Inv(s) && Late(s) && Enabled(s, OfClient(e)) && Stoppable(cfg, Next(cfg, s, OfClient(e)))
    ensures Softly(cfg, s)
  {
    var s' := Next(cfg, s, OfClient(e));
    LateMeansLeft(s);
    ClientAloneShares(s.l, e);
    PushesEnd(s.l, e);
    var relieved :| Relieves(cfg, s', relieved);
    S.SubsetCount(Pushing(s'.l), Pushing(s.l));
    assert Relieves(cfg, s, relieved);
    if !L.SomeAdmitted(s.l) {
      L.NoneNewlyAdmitted(s.l, e);
    }
  }

  /** A client that is closed admits no more Pushes and stays closed. */
  lemma PushesEnd(l: L.Sys, e: L.Step)
    requires L.Inv(l) && l.c.state == L.CLOSED && L.Enabled(l, e)
    ensures Pushing(L.Next(l, e)) <= Pushing(l) && L.Next(l, e).c.state == L.CLOSED
  {}

  /** The fleet before a request is taken, its worker relieved. */
  lemma TakeRelieves(cfg: Config, f: F.Sys, w: Id, relieved: set<Id>)
    requires S.Inv(f) && F.EnabledConn(f, F.Step.Take(w)) && D.SoftOk(cfg, F.NextConn(f, F.Step.Take(w)), relieved)
    ensures D.SoftOk(cfg, f, relieved + {w})
  {
    var f' := F.NextConn(f, F.Step.Take(w));
    forall t | t in D.Bound(f, relieved + {w}) ensures t in D.Bound(f', relieved) {
      OthersQuitAlike(f, w, f.attempts[t].w);
    }
    S.SubsetCount(D.Bound(f, relieved + {w}), D.Bound(f', relieved));
    forall i | 0 <= i < |f.conns| ensures !D.Doomed(f.conns[i]) {
      assert !D.Doomed(f'.conns[i]);
    }
    if D.SomeReporter(f') {
      D.AnnounceOnConn(f, F.Step.Take(w));
    }
  }

  lemma OthersQuitAlike(f: F.Sys, w: Id, i: Id)
    requires F.EnabledConn(f, F.Step.Take(w)) && i != w
    ensures D.MayQuit(F.NextConn(f, F.Step.Take(w)), i) == D.MayQuit(f, i)
  {
    var f' := F.NextConn(f, F.Step.Take(w));
    if D.MayQuit(f, i) {
      var t :| 0 <= t < |f.attempts| && f.attempts[t].w == i && D.Condemns(f.attempts[t].stage);
      assert f'.attempts[t] == f.attempts[t];
    }
  }

  lemma SoftlyOnHandOver(cfg: Config, s: Sys, w: Id, from: Sender)
    requires Inv(s) && Late(s) && Enabled(s, HandOver(w, from)) && Stoppable(cfg, Next(cfg, s, HandOver(w, from)))
    ensures Softly(cfg, s)
  {
    var s' := Next(cfg, s, HandOver(w, from));
    LateMeansLeft(s);
    SendEndsPush(s.l, from);
    var relieved :| Relieves(cfg, s', relieved);
    TakeRelieves(cfg, s.f, w, relieved);
    assert Relieves(cfg, s, relieved + {w});
  }

  /** After the submitter has left only a Push can send, and it does so once. */
  lemma SendEndsPush(l: L.Sys, from: Sender)
    requires L.Inv(l) && (l.submitter.Left? || l.submitter.Gone?) && L.Enabled(l, Sends(from))
    ensures var l' := L.Next(l, Sends(from));
            && from.FromPush? && from.i in Pushing(l) && Pushing(l') == Pushing(l) - {from.i}
            && l'.c == l.c && l'.stops == l.stops
  {}

  lemma SoftlyOnClose(cfg: Config, s: Sys, i: nat)
    requires Inv(s) && Late(s) && Enabled(s, CloseInput(i)) && Stoppable(cfg, Next(cfg, s, CloseInput(i)))
    ensures Softly(cfg, s)
  {
    var s' := Next(cfg, s, CloseInput(i));
    var relieved :| Relieves(cfg, s', relieved);
    assert relieved == {};
    CloseChangesNothing(cfg, s.f, {});
    assert Relieves(cfg, s, {});
    assert L.Admitted(s.l.stops[i]);
  }

  lemma CloseChangesNothing(cfg: Config, f: F.Sys, relieved: set<Id>)
    ensures D.SoftOk(cfg, f.(outClosed := true), relieved) == D.SoftOk(cfg, f, relieved)
  {
    var f' := f.(outClosed := true);
    assert forall i :: D.MayQuit(f', i) == D.MayQuit(f, i);
    assert D.Bound(f', relieved) == D.Bound(f, relieved);
  }

  /** Once lost, it stays lost. */
  lemma StoppableNotGained(cfg: Config, s: Sys, e: Step)
    requires Inv(s) && Enabled(s, e) && Stoppable(cfg, Next(cfg, s, e))
    ensures Stoppable(cfg, s)
  {
    if Late(s) {
      LateMeansLeft(s);
      match e
      case OfFleet(fleet) => SoftlyOnFleet(cfg, s, fleet);
      case OfClient(client) => SoftlyOnClient(cfg, s, client);
      case HandOver(w, from) => SoftlyOnHandOver(cfg, s, w, from);
      case CloseInput(i) => SoftlyOnClose(cfg, s, i);
      case KillAll => assert Next(cfg, s, e) == s;
      case _ =>
    }
  }

  lemma {:induction false} StoppableNeverGained(cfg: Config, s: Sys, es: seq<Step>)
    requires Inv(s) && ValidRun(cfg, s, es) && Final(cfg, s, es).l.c.cdone > 0
    ensures Stoppable(cfg, s)
    decreases |es|
  {
    if es != [] {
      Keeps(cfg, s, es[0]);
      StoppableNeverGained(cfg, Next(cfg, s, es[0]), es[1..]);
      StoppableNotGained(cfg, s, es[0]);
    }
  }

  // ---- While it holds, the governor can be brought to its end ---------------------------------------

  lemma LeadsNowhere(cfg: Config, s: Sys)
    ensures Leads(cfg, s, s)
  {
    assert ValidRun(cfg, s, []);
  }

  lemma Step1(cfg: Config, s0: Sys, s: Sys, e: Step) returns (s': Sys)
    requires Leads(cfg, s0, s) && Inv(s) && Enabled(s, e)
    ensures s' == Next(cfg, s, e) && Leads(cfg, s0, s') && Inv(s')
  {
    s' := Next(cfg, s, e);
    Then(cfg, s0, s, e, s');
    Keeps(cfg, s, e);
  }

  lemma StoppedSignals(cfg: Config, s0: Sys, s: Sys) returns (s': Sys)
    requires Leads(cfg, s0, s) && Inv(s) && s.f.g.stopped
    ensures Leads(cfg, s0, s') && s'.l.c.cdone > 0
  {
    s' := s;
    if s.l.governing {
      s' := Step1(cfg, s0, s, SignalDone);
    }
  }

  lemma KilledStops(cfg: Config, s0: Sys, s: Sys) returns (s': Sys)
    requires Leads(cfg, s0, s) && Inv(s) && s.l.c.gctl > 0
    ensures Leads(cfg, s0, s') && s'.l.c.cdone > 0
  {
    var s1 := s;
    if !s.f.g.stopped {
      s1 := Step1(cfg, s0, s, OfFleet(F.Receive(HardStop)));
    }
    s' := StoppedSignals(cfg, s0, s1);
  }

  // Runs of the fleet on its own

  lemma {:induction false} FleetRuns(cfg: Config, s0: Sys, s: Sys, es: seq<F.Step>) returns (s': Sys)
    requires Leads(cfg, s0, s) && Inv(s) && S.ValidRun(cfg, s.f, es) && forall e :: e in es ==> S.Internal(e)
    ensures Leads(cfg, s0, s') && Inv(s') && s' == s.(f := S.Final(cfg, s.f, es))
    decreases |es|
  {
    if es == [] {
      s' := s;
    } else {
      var s1 := Step1(cfg, s0, s, OfFleet(es[0]));
      s' := FleetRuns(cfg, s0, s1, es[1..]);
    }
  }

  lemma SoftlyStops(cfg: Config, s0: Sys, s: Sys) returns (s': Sys)
    requires Leads(cfg, s0, s) && Inv(s) && Late(s) && L.SomeAdmitted(s.l) && D.SoftOk(cfg, s.f, {})
    ensures Leads(cfg, s0, s') && s'.l.c.cdone > 0
  {
    LateMeansLeft(s);
    var s1 := StopCloses(cfg, s0, s);
    CloseChangesNothing(cfg, s.f, {});
    var f := D.SoftOkStops(cfg, s1.f);
    var es :| (forall e :: e in es ==> S.Internal(e)) && S.ValidRun(cfg, s1.f, es) && S.Final(cfg, s1.f, es) == f;
    var s2 := FleetRuns(cfg, s0, s1, es);
    s' := StoppedSignals(cfg, s0, s2);
  }

  // Pushes that relieve workers

  /** Some round trip on worker q still has to send its retry before q can leave. */
  predicate Needed(f: F.Sys, q: Id) {
    D.MustDrain(f, q) && exists t :: 0 <= t < |f.attempts| && f.attempts[t].w == q && f.attempts[t].stage.Retrying?
  }

  lemma NotNeeded(cfg: Config, f: F.Sys, q: Id, relieved: set<Id>)
    requires D.SoftOk(cfg, f, relieved) && !Needed(f, q)
    ensures D.SoftOk(cfg, f, relieved - {q})
  {
    forall t | t in D.Bound(f, relieved - {q}) ensures t in D.Bound(f, relieved) {
      assert f.attempts[t].w != q;
    }
    S.SubsetCount(D.Bound(f, relieved - {q}), D.Bound(f, relieved));
  }

  /** A busy worker that cannot quit is calling back on its own goroutine, and can finish that. */
  lemma BusyReturns(cfg: Config, s0: Sys, s: Sys, q: Id, relieved: set<Id>) returns (s': Sys)
    requires Leads(cfg, s0, s) && Inv(s) && D.SoftOk(cfg, s.f, relieved)
    requires Needed(s.f, q) && s.f.conns[q].work.Busy?
    ensures Leads(cfg, s0, s') && Inv(s') && s'.l == s.l && D.SoftOk(cfg, s'.f, relieved)
    ensures s'.f == s.f.(attempts := s'.f.attempts, conns := s'.f.conns)
    ensures q < |s'.f.conns| && s'.f.conns[q].work.Idle?
  {
    assert S.ConnOk(s.f, q);
    var t := s.f.conns[q].work.t;
    assert S.AttemptOk(s.f, t) && !D.Condemns(s.f.attempts[t].stage);
    s' := Step1(cfg, s0, s, OfFleet(F.Deliver(t)));
    DeliverKeepsSoft(cfg, s.f, t, relieved);
  }

  lemma DeliverKeepsSoft(cfg: Config, f: F.Sys, t: nat, relieved: set<Id>)
    requires S.Inv(f) && D.SoftOk(cfg, f, relieved) && F.EnabledAttempt(f, F.Deliver(t))
    ensures var f' := F.NextAttempt(f, F.Deliver(t));
            D.SoftOk(cfg, f', relieved) && f' == f.(attempts := f'.attempts, conns := f'.conns)
  {
    var f' := F.NextAttempt(f, F.Deliver(t));
    D.HarmlessCondemns(f, F.Deliver(t));
    D.CondemningUnbound(f, f', relieved);
    S.SubsetCount(D.Bound(f', relieved), D.Bound(f, relieved));
    SoftOkElse(cfg, f, F.Deliver(t));
  }

  lemma SoftOkElse(cfg: Config, f: F.Sys, e: F.Step)
    requires S.Inv(f) && F.EnabledAttempt(f, e) && e.Deliver? && D.NoneDoomed(f) && D.CanAnnounce(cfg, f)
    ensures var f' := F.NextAttempt(f, e);
            D.NoneDoomed(f') && D.CanAnnounce(cfg, f') && f' == f.(attempts := f'.attempts, conns := f'.conns)
  {
    var f' := F.NextAttempt(f, e);
    S.AttemptTouches(f, e);
    forall i | 0 <= i < |f'.conns|
      ensures !D.Doomed(f'.conns[i]) && (D.Reporter(f.conns[i]) ==> D.Reporter(f'.conns[i]))
    {
      assert !D.Doomed(f.conns[i]);
    }
    if D.SomeReporter(f) {
      var i :| 0 <= i < |f.conns| && D.Reporter(f.conns[i]);
      assert D.Reporter(f'.conns[i]);
    }
  }

  /** An idle worker takes a request from a Push, and so may quit. */
  lemma IdleRelieved(cfg: Config, s0: Sys, s: Sys, q: Id, i: nat, relieved: set<Id>) returns (s': Sys)
    requires Leads(cfg, s0, s) && Inv(s) && Late(s) && !s.f.outClosed && D.SoftOk(cfg, s.f, relieved)
    requires q < |s.f.conns| && s.f.conns[q].work.Idle? && i in Pushing(s.l)
    ensures Leads(cfg, s0, s') && Inv(s') && Late(s') && !s'.f.outClosed
    ensures s'.l.stops == s.l.stops && Pushing(s'.l) == Pushing(s.l) - {i}
    ensures D.SoftOk(cfg, s'.f, relieved - {q})
  {
    s' := Step1(cfg, s0, s, HandOver(q, FromPush(i)));
    TakeFrees(cfg, s.f, q, relieved);
  }

  lemma TakeFrees(cfg: Config, f: F.Sys, q: Id, relieved: set<Id>)
    requires S.Inv(f) && F.EnabledConn(f, F.Step.Take(q)) && D.SoftOk(cfg, f, relieved)
    ensures D.SoftOk(cfg, F.NextConn(f, F.Step.Take(q)), relieved - {q})
  {
    var f' := F.NextConn(f, F.Step.Take(q));
    assert D.MayQuit(f', q) by {
      assert f'.attempts[|f.attempts|].w == q && D.Condemns(f'.attempts[|f.attempts|].stage);
    }
    forall t | t in D.Bound(f', relieved - {q}) ensures t in D.Bound(f, relieved) {
      OthersQuitAlike(f, q, f.attempts[t].w);
    }
    S.SubsetCount(D.Bound(f', relieved - {q}), D.Bound(f, relieved));
    forall i | 0 <= i < |f'.conns|
      ensures !D.Doomed(f'.conns[i]) && (D.Reporter(f.conns[i]) ==> D.Reporter(f'.conns[i]))
    {
      assert !D.Doomed(f.conns[i]);
    }
    if D.SomeReporter(f) {
      var i :| 0 <= i < |f.conns| && D.Reporter(f.conns[i]);
      assert D.Reporter(f'.conns[i]);
    }
  }

  lemma {:induction false} Relieve(cfg: Config, s0: Sys, s: Sys, relieved: set<Id>) returns (s': Sys)
    requires Leads(cfg, s0, s) && Inv(s) && Late(s) && L.SomeAdmitted(s.l) && Relieves(cfg, s, relieved)
    ensures Leads(cfg, s0, s') && Inv(s') && Late(s') && L.SomeAdmitted(s'.l) && D.SoftOk(cfg, s'.f, {})
    decreases |relieved|
  {
    if relieved == {} {
      s' := s;
    } else {
      var q :| q in relieved;
      if !Needed(s.f, q) {
        NotNeeded(cfg, s.f, q, relieved);
        s' := Relieve(cfg, s0, s, relieved - {q});
      } else {
        var s1 := RelieveOne(cfg, s0, s, q, relieved);
        s' := Relieve(cfg, s0, s1, relieved - {q});
      }
    }
  }

  lemma RelieveOne(cfg: Config, s0: Sys, s: Sys, q: Id, relieved: set<Id>) returns (s': Sys)
    requires Leads(cfg, s0, s) && Inv(s) && Late(s) && L.SomeAdmitted(s.l) && Relieves(cfg, s, relieved)
    requires q in relieved && Needed(s.f, q)
    ensures Leads(cfg, s0, s') && Inv(s') && Late(s') && L.SomeAdmitted(s'.l) && Relieves(cfg, s', relieved - {q})
  {
    assert S.ConnOk(s.f, q);
    var s1 := s;
    if s.f.conns[q].work.Busy? {
      s1 := BusyReturns(cfg, s0, s, q, relieved);
    }
    assert Pushing(s.l) != {};
    var i :| i in Pushing(s.l);
    s' := IdleRelieved(cfg, s0, s1, q, i, relieved);
  }

  // ---- The exact condition ---------------------------------------------------------------------

  ghost predicate CanShutDown(cfg: Config, s: Sys) {
    exists s' :: Leads(cfg, s, s') && s'.l.c.cdone > 0
  }

  lemma StoppableShutsDown(cfg: Config, s: Sys) returns (s': Sys)
    requires Inv(s) && Stoppable(cfg, s)
    ensures Leads(cfg, s, s') && s'.l.c.cdone > 0
  {
    LeadsNowhere(cfg, s);
    if s.f.g.stopped {
      s' := StoppedSignals(cfg, s, s);
    } else if s.l.c.gctl > 0 {
      s' := KilledStops(cfg, s, s);
    } else if !L.KillRefused(s.l.c) {
      var s1 := Step1(cfg, s, s, KillAll);
      s' := KilledStops(cfg, s, s1);
    } else {
      var relieved :| Relieves(cfg, s, relieved);
      var s1 := Relieve(cfg, s, s, relieved);
      s' := SoftlyStops(cfg, s, s1);
    }
  }

  /** From any state some continuation brings the governor to its end if and only if it has
      stopped, a Kill was accepted or still would be, or a Stop was admitted and: no worker's
      exit was overtaken or swallowed; the round trips that must send their retries before
      their workers can leave find room on the retry path, apart from those on workers that
      requests of Pushes under way may still make quit; and there is, or a poll can launch, a
      worker to report the closed input. */
  lemma ShutDownIff(cfg: Config, s: Sys)
    requires Inv(s)
    ensures CanShutDown(cfg, s) <==> Stoppable(cfg, s)
  {
    if Stoppable(cfg, s) {
      var s' := StoppableShutsDown(cfg, s);
    }
    if s' :| Leads(cfg, s, s') && s'.l.c.cdone > 0 {
      var es :| ValidRun(cfg, s, es) && Final(cfg, s, es) == s';
      StoppableNeverGained(cfg, s, es);
    }
  }

  /** So a client whose queue was closed first can never be shut down, nor one whose Stop hangs. */
  lemma HopelessCases(cfg: Config, s: Sys)
    requires Inv(s) && (L.Stranded(s.l) || exists k, i, t :: Hanging(s, k, i, t))
    ensures !CanShutDown(cfg, s)
  {
    if L.Stranded(s.l) {
      forall i | 0 <= i < |s.l.stops| ensures !L.Admitted(s.l.stops[i]) {
        assert L.StopOk(s.l, i);
      }
      ShutDownIff(cfg, s);
    } else {
      var k, i, t :| Hanging(s, k, i, t);
      forall es | ValidRun(cfg, s, es) ensures Final(cfg, s, es).l.c.cdone == 0 {
        HangsForever(cfg, s, es, k, i, t);
      }
    }
  }
}
