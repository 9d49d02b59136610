/** The fleet and the client that feeds it as one system.  What they share is stepped
    together: a request handed to a worker, a retry handed back to the submitter, the close
    of the workers' input, the hard stop's channel, and the governor's done signal. */
module Pipeline {
  import BackOff
  import opened Governor
  import opened RetryPath
  import F = Fleet
  import S = FleetSafety
  import T = FleetTermination
  import W = FleetWitness
  import J = JamWitness
  import L = Lifecycle

  datatype Sys = Sys(f: F.Sys, l: L.Sys)

  /** Who sends a request on the channel the workers read. */
  datatype Sender = FromSubmitter | FromPush(i: nat)

  datatype Step =
    | OfFleet(fleet: F.Step)
    | OfClient(client: L.Step)
    | HandOver(w: Id, from: Sender)
    | HandBack
    | CloseInput(i: nat)
    | KillAll
    | SignalDone

  /** Steps of the client that do not concern the fleet; FleetSafety.Internal has the fleet's own. */
  predicate ClientAlone(e: L.Step) {
    !e.StopClosesOut? && !e.Kill? && !e.SubmitterSends? && !e.PushSends? && !e.GovernorStops?
  }

  function Sends(from: Sender): L.Step {
    match from
    case FromSubmitter => L.SubmitterSends
    case FromPush(i) => L.PushSends(i)
  }

  predicate Enabled(s: Sys, e: Step) {
    match e
    case OfFleet(e) => S.Internal(e) && F.Enabled(s.f, e)
    case OfClient(e) => ClientAlone(e) && L.Enabled(s.l, e)
    case HandOver(w, from) => F.Enabled(s.f, F.Step.Take(w)) && L.Enabled(s.l, Sends(from))
    case HandBack => F.Enabled(s.f, F.Requeue) && L.Enabled(s.l, L.SubmitterTakes)
    case CloseInput(i) => F.Enabled(s.f, F.CloseOut) && L.Enabled(s.l, L.StopClosesOut(i))
    case KillAll => true
    case SignalDone => s.f.g.stopped && L.Enabled(s.l, L.GovernorStops)
  }

  /** A refused Kill closes nothing. */
  function Next(cfg: Config, s: Sys, e: Step): Sys
    requires Enabled(s, e)
  {
    match e
    case OfFleet(e) => s.(f := F.Next(cfg, s.f, e))
    case OfClient(e) => s.(l := L.Next(s.l, e))
    case HandOver(w, from) => Sys(F.Next(cfg, s.f, F.Step.Take(w)), L.Next(s.l, Sends(from)))
    case HandBack => Sys(F.Next(cfg, s.f, F.Requeue), L.Next(s.l, L.SubmitterTakes))
    case CloseInput(i) => Sys(F.Next(cfg, s.f, F.CloseOut), L.Next(s.l, L.StopClosesOut(i)))
    case KillAll =>
      Sys(if L.KillRefused(s.l.c) then s.f else F.Next(cfg, s.f, F.Kill), L.Next(s.l, L.Kill))
    case SignalDone => s.(l := L.Next(s.l, L.GovernorStops))
  }

  predicate ValidRun(cfg: Config, s: Sys, es: seq<Step>)
    decreases |es|
  {
    es != [] ==> Enabled(s, es[0]) && ValidRun(cfg, Next(cfg, s, es[0]), es[1..])
  }

  function Final(cfg: Config, s: Sys, es: seq<Step>): Sys
    requires ValidRun(cfg, s, es)
    decreases |es|
  {
    if es == [] then s else Final(cfg, Next(cfg, s, es[0]), es[1..])
  }

  function Begin(cfg: Config, backOff: BackOff.Tracker, now: int): Sys {
    Sys(S.Begin(cfg, backOff, now), L.Begin)
  }

  // ---- What every step keeps ---------------------------------------------------------

  /** Both sides agree on what they share. */
  predicate Linked(s: Sys) {
    && (s.f.outClosed <==> s.l.c.out > 0)
    && (s.f.killed <==> s.l.c.gctl > 0)
    && (s.l.c.cdone > 0 ==> s.f.g.stopped)
  }

  ghost predicate Inv(s: Sys) {
    S.Inv(s.f) && L.Inv(s.l) && Linked(s)
  }

  /** A step of the fleet alone shares nothing, and no step undoes a stop. */
  lemma FleetAloneShares(cfg: Config, f: F.Sys, e: F.Step)
    requires F.Enabled(f, e) && S.Internal(e)
    ensures var f' := F.Next(cfg, f, e);
            f'.outClosed == f.outClosed && f'.killed == f.killed && (f.g.stopped ==> f'.g.stopped)
  {
    if F.EnabledConn(f, e) || F.EnabledAttempt(f, e) {
      T.OnlyReceivesConcernGovernor(f, e);
    }
  }

  lemma ClientAloneShares(l: L.Sys, e: L.Step)
    requires L.Enabled(l, e) && (ClientAlone(e) || e.SubmitterSends? || e.PushSends?)
    ensures var c, c' := l.c, L.Next(l, e).c;
            c'.out == c.out && c'.gctl == c.gctl && c'.cdone == c.cdone && c'.ctl == c.ctl
  {}

  lemma KeepsHandOvers(cfg: Config, s: Sys, e: Step)
    requires Inv(s) && Enabled(s, e) && (e.HandOver? || e.HandBack?)
    ensures Inv(Next(cfg, s, e))
  {
    if e.HandOver? {
      S.KeepsInv(cfg, s.f, F.Step.Take(e.w));
      L.Keeps(s.l, Sends(e.from));
      ClientAloneShares(s.l, Sends(e.from));
    } else {
      S.KeepsInv(cfg, s.f, F.Requeue);
      L.Keeps(s.l, L.SubmitterTakes);
      ClientAloneShares(s.l, L.SubmitterTakes);
    }
  }

  lemma KeepsShutdown(cfg: Config, s: Sys, e: Step)
    requires Inv(s) && Enabled(s, e) && (e.CloseInput? || e.KillAll? || e.SignalDone?)
    ensures Inv(Next(cfg, s, e))
  {
    match e
    case CloseInput(i) =>
      S.KeepsInv(cfg, s.f, F.CloseOut);
      L.Keeps(s.l, L.StopClosesOut(i));
    case KillAll =>
      S.KeepsInv(cfg, s.f, F.Kill);
      L.Keeps(s.l, L.Kill);
    case SignalDone =>
      L.Keeps(s.l, L.GovernorStops);
  }

  lemma Keeps(cfg: Config, s: Sys, e: Step)
    requires Inv(s) && Enabled(s, e)
    ensures Inv(Next(cfg, s, e))
  {
    match e
    case OfFleet(fleet) =>
      S.KeepsInv(cfg, s.f, fleet);
      FleetAloneShares(cfg, s.f, fleet);
    case OfClient(client) =>
      L.Keeps(s.l, client);
      ClientAloneShares(s.l, client);
    case HandOver(_, _) => KeepsHandOvers(cfg, s, e);
    case HandBack => KeepsHandOvers(cfg, s, e);
    case _ => KeepsShutdown(cfg, s, e);
  }

  lemma {:induction false} RunKeeps(cfg: Config, s: Sys, es: seq<Step>)
    requires Inv(s) && ValidRun(cfg, s, es)
    ensures Inv(Final(cfg, s, es))
    decreases |es|
  {
    if es != [] {
      Keeps(cfg, s, es[0]);
      RunKeeps(cfg, Next(cfg, s, es[0]), es[1..]);
    }
  }

  lemma BeginInv(cfg: Config, backOff: BackOff.Tracker, now: int)
    ensures Inv(Begin(cfg, backOff, now))
  {
    S.BeginInv(cfg, backOff, now);
  }

  /** The guards the two sides put on what they share never get in each other's way: an
      admitted Stop can always close the input, and the governor that stopped can signal it. */
  lemma SharedStepsMeet(s: Sys, i: nat)
    requires Inv(s)
    ensures L.Enabled(s.l, L.StopClosesOut(i)) ==> Enabled(s, CloseInput(i))
    ensures s.f.g.stopped && s.l.governing ==> Enabled(s, SignalDone)
  {
    if L.Enabled(s.l, L.StopClosesOut(i)) {
      assert L.StopOk(s.l, i);
    }
  }

  // ---- What some run leads to -------------------------------------------------------------

  ghost predicate Leads(cfg: Config, s0: Sys, s: Sys) {
    exists es :: ValidRun(cfg, s0, es) && Final(cfg, s0, es) == s
  }

  lemma {:induction false} Append(cfg: Config, s0: Sys, es: seq<Step>, e: Step)
    requires ValidRun(cfg, s0, es) && Enabled(Final(cfg, s0, es), e)
    ensures ValidRun(cfg, s0, es + [e])
    ensures Final(cfg, s0, es + [e]) == Next(cfg, Final(cfg, s0, es), e)
    decreases |es|
  {
    if es == [] {
      assert [] + [e] == [e];
      assert ValidRun(cfg, Next(cfg, s0, e), []);
    } else {
      assert (es + [e])[1..] == es[1..] + [e];
      Append(cfg, Next(cfg, s0, es[0]), es[1..], e);
    }
  }

  lemma Then(cfg: Config, s0: Sys, s: Sys, e: Step, s': Sys)
    requires Leads(cfg, s0, s) && Enabled(s, e) && Next(cfg, s, e) == s'
    ensures Leads(cfg, s0, s')
  {
    var es :| ValidRun(cfg, s0, es) && Final(cfg, s0, es) == s;
    Append(cfg, s0, es, e);
  }

  lemma ThenClient(cfg: Config, s0: Sys, s: Sys, e: L.Step, l: L.Sys) returns (s': Sys)
    requires Leads(cfg, s0, s) && ClientAlone(e) && L.Enabled(s.l, e) && L.Next(s.l, e) == l
    ensures s' == s.(l := l) && Leads(cfg, s0, s')
  {
    s' := s.(l := l);
    Then(cfg, s0, s, OfClient(e), s');
  }

  // ---- The callback channel --------------------------------------------------------------

  /** A result that is about to be sent while the client's callback channel is closed. */
  predicate MeetsClosedCallback(s: Sys, t: nat) {
    t < |s.f.attempts| && s.f.attempts[t].w < |s.f.conns| && s.f.attempts[t].stage.Calling? && s.l.c.callback > 0
  }

  /** In every run, a result meets the closed callback channel only on a connection that was
      judged unusable, or after a Kill that was accepted. */
  lemma CallbackOpen(cfg: Config, backOff: BackOff.Tracker, now: int, es: seq<Step>, t: nat)
    requires ValidRun(cfg, Begin(cfg, backOff, now), es)
    ensures var s := Final(cfg, Begin(cfg, backOff, now), es);
            MeetsClosedCallback(s, t) ==> s.f.conns[s.f.attempts[t].w].condemned || s.l.c.ctl > 0
  {
    var s := Final(cfg, Begin(cfg, backOff, now), es);
    BeginInv(cfg, backOff, now);
    RunKeeps(cfg, Begin(cfg, backOff, now), es);
    if MeetsClosedCallback(s, t) && s.l.c.ctl == 0 {
      S.StoppedIsWoundDown(s.f);
    }
  }

  /** An attempt that may still be called back. */
  predicate StillCalls(f: F.Sys, t: nat) {
    F.ValidAttempt(f, t) && (f.attempts[t].stage.Exec? || f.attempts[t].stage.Flight? || f.attempts[t].stage.Calling?)
  }

  ghost predicate NoneCalls(f: F.Sys) {
    forall t :: 0 <= t < |f.attempts| ==> !StillCalls(f, t)
  }

  ghost predicate CanMeetClosedCallback(cfg: Config, s: Sys) {
    exists s', t :: Leads(cfg, s, s') && MeetsClosedCallback(s', t)
  }

  /** Once the input is closed, a fleet in which no attempt may still be called back stays so. */
  lemma NoneCallsAttempt(f: F.Sys, e: F.Step)
    requires S.Inv(f) && NoneCalls(f) && F.EnabledAttempt(f, e)
    ensures NoneCalls(F.NextAttempt(f, e))
  {
    assert S.AttemptOk(f, e.t) && !StillCalls(f, e.t);
    var f' := F.NextAttempt(f, e);
    forall t | 0 <= t < |f'.attempts| ensures !StillCalls(f', t) {
      assert S.AttemptOk(f, t) && !StillCalls(f, t);
    }
  }

  /** Only a request that is taken adds an attempt, and only its own step changes one. */
  lemma AttemptsKept(cfg: Config, f: F.Sys, e: F.Step)
    requires f.outClosed && F.Enabled(f, e) && !F.EnabledAttempt(f, e)
    ensures F.Next(cfg, f, e).attempts == f.attempts && F.Next(cfg, f, e).outClosed
  {}

  lemma NoneCallsFleet(cfg: Config, f: F.Sys, e: F.Step)
    requires S.Inv(f) && f.outClosed && NoneCalls(f) && F.Enabled(f, e)
    ensures NoneCalls(F.Next(cfg, f, e)) && F.Next(cfg, f, e).outClosed
  {
    if F.EnabledAttempt(f, e) {
      NoneCallsAttempt(f, e);
      T.AttemptIsOwn(f, e);
    } else {
      AttemptsKept(cfg, f, e);
      NoneCallsSame(f, F.Next(cfg, f, e));
    }
  }

  lemma NoneCallsSame(f: F.Sys, f': F.Sys)
    requires S.Inv(f) && NoneCalls(f) && f'.attempts == f.attempts
    ensures NoneCalls(f')
  {
    forall t | 0 <= t < |f'.attempts| ensures !StillCalls(f', t) {
      assert S.AttemptOk(f, t) && !StillCalls(f, t);
    }
  }

  lemma NoneCallsStep(cfg: Config, s: Sys, e: Step)
    requires Inv(s) && s.f.outClosed && NoneCalls(s.f) && Enabled(s, e)
    ensures NoneCalls(Next(cfg, s, e).f) && Next(cfg, s, e).f.outClosed
  {
    if e.OfFleet? {
      NoneCallsFleet(cfg, s.f, e.fleet);
    } else if e.KillAll? {
      NoneCallsFleet(cfg, s.f, F.Kill);
    }
  }

  lemma {:induction false} NoneCallsRun(cfg: Config, s: Sys, es: seq<Step>, t: nat)
    requires Inv(s) && s.f.outClosed && NoneCalls(s.f) && ValidRun(cfg, s, es)
    ensures !MeetsClosedCallback(Final(cfg, s, es), t)
    decreases |es|
  {
    if es == [] {
      assert t < |s.f.attempts| ==> !StillCalls(s.f, t);
    } else {
      Keeps(cfg, s, es[0]);
      NoneCallsStep(cfg, s, es[0]);
      NoneCallsRun(cfg, Next(cfg, s, es[0]), es[1..], t);
    }
  }

  /** Once the governor has stopped or a Kill was accepted, the Stop that closed the input returns. */
  lemma StopFinishes(cfg: Config, s0: Sys, s: Sys) returns (s': Sys)
    requires Leads(cfg, s0, s) && Inv(s) && s.f.outClosed && (s.f.g.stopped || s.l.c.ctl > 0)
    ensures Leads(cfg, s0, s') && Inv(s') && s'.f == s.f && s'.l.c.callback > 0
  {
    var i :| 0 <= i < |s.l.stops| && L.Admitted(s.l.stops[i]);
    assert L.StopOk(s.l, i);
    var s1 := s;
    if s.l.governing && s.l.c.ctl == 0 {
      s1 := Next(cfg, s, SignalDone);
      Then(cfg, s0, s, SignalDone, s1);
      Keeps(cfg, s, SignalDone);
    }
    if s1.l.stops[i].Draining? {
      s' := Next(cfg, s1, OfClient(L.StopReturns(i)));
      Then(cfg, s0, s1, OfClient(L.StopReturns(i)), s');
      Keeps(cfg, s1, OfClient(L.StopReturns(i)));
    } else {
      s' := s1;
    }
  }

  lemma AttemptCalls(cfg: Config, s0: Sys, s: Sys, t: nat) returns (s': Sys)
    requires Leads(cfg, s0, s) && Inv(s) && StillCalls(s.f, t)
    ensures Leads(cfg, s0, s') && s'.l == s.l && StillCalls(s'.f, t) && s'.f.attempts[t].stage.Calling?
    ensures !s.f.attempts[t].stage.Calling? ==> s'.f.attempts[t].stage.usable
  {
    s' := s;
    if !s.f.attempts[t].stage.Calling? {
      var e := if s.f.attempts[t].stage.Exec? then F.FailInline(t) else F.Respond(t, true);
      s' := Next(cfg, s, OfFleet(e));
      Then(cfg, s0, s, OfFleet(e), s');
    }
  }

  /** With the input closed, and the governor stopped or a Kill accepted, some result may meet
      the closed callback channel if and only if some attempt has not been called back yet;
      without a Kill that is one on a connection judged unusable. */
  lemma MeetsClosedCallbackIff(cfg: Config, s: Sys)
    requires Inv(s) && s.f.outClosed && (s.f.g.stopped || s.l.c.ctl > 0)
    ensures CanMeetClosedCallback(cfg, s) <==> exists t :: StillCalls(s.f, t)
    ensures s.l.c.ctl == 0 ==> forall t: nat :: StillCalls(s.f, t) ==> s.f.conns[s.f.attempts[t].w].condemned
  {
    if s.l.c.ctl == 0 {
      S.StoppedIsWoundDown(s.f);
      forall t: nat | StillCalls(s.f, t) ensures s.f.conns[s.f.attempts[t].w].condemned {
        assert !S.Accounted(s.f.attempts[t]);
      }
    }
    if t :| StillCalls(s.f, t) {
      assert ValidRun(cfg, s, []);
      var s1 := StopFinishes(cfg, s, s);
      var s' := AttemptCalls(cfg, s, s1, t);
      assert MeetsClosedCallback(s', t);
    } else {
      forall es, t | ValidRun(cfg, s, es) ensures !MeetsClosedCallback(Final(cfg, s, es), t) {
        NoneCallsRun(cfg, s, es, t);
      }
    }
  }

  // An admitted Stop on its way to closing the input

  lemma {:induction false} SubmitterGoes(cfg: Config, s0: Sys, s: Sys) returns (s': Sys)
    requires Leads(cfg, s0, s) && Inv(s) && s.l.c.cctl > 0
    ensures Leads(cfg, s0, s') && Inv(s') && s'.l.submitter.Gone?
    ensures s' == s.(l := s.l.(submitter := s'.l.submitter, c := s.l.c.(state := s'.l.c.state)))
    decreases L.StepsToLeave(s.l.submitter)
  {
    if s.l.submitter.Gone? {
      s' := s;
    } else {
      var e := L.Leaves(s.l);
      L.LeavesStep(s.l);
      var s1 := Next(cfg, s, OfClient(e));
      Then(cfg, s0, s, OfClient(e), s1);
      Keeps(cfg, s, OfClient(e));
      s' := SubmitterGoes(cfg, s0, s1);
    }
  }

  lemma WaiterCloses(cfg: Config, s0: Sys, s: Sys, i: nat) returns (s': Sys)
    requires Leads(cfg, s0, s) && Inv(s) && s.l.submitter.Gone? && i < |s.l.stops| && L.Admitted(s.l.stops[i])
    ensures Leads(cfg, s0, s') && Inv(s') && s'.f == s.f.(outClosed := true) && s'.l.c.ctl == s.l.c.ctl
  {
    assert L.StopOk(s.l, i);
    var s1 := s;
    if s.l.stops[i].Waiting? {
      s1 := Next(cfg, s, OfClient(L.StopWaited(i)));
      Then(cfg, s0, s, OfClient(L.StopWaited(i)), s1);
      Keeps(cfg, s, OfClient(L.StopWaited(i)));
    }
    s' := s1;
    if s1.l.stops[i].Closing? {
      s' := Next(cfg, s1, CloseInput(i));
      Then(cfg, s0, s1, CloseInput(i), s');
      Keeps(cfg, s1, CloseInput(i));
    }
  }

  lemma StopCloses(cfg: Config, s0: Sys, s: Sys) returns (s': Sys)
    requires Leads(cfg, s0, s) && Inv(s) && L.SomeAdmitted(s.l)
    ensures Leads(cfg, s0, s') && Inv(s') && s'.f == s.f.(outClosed := true) && s'.l.c.ctl == s.l.c.ctl
  {
    var i :| 0 <= i < |s.l.stops| && L.Admitted(s.l.stops[i]);
    assert L.StopOk(s.l, i);
    var s1 := SubmitterGoes(cfg, s0, s);
    s' := WaiterCloses(cfg, s0, s1, i);
  }

  /** A Kill accepted while a Stop waits lets that Stop close the callback channel under every
      attempt that has not been called back. */
  lemma KillMeetsCallback(cfg: Config, s: Sys, t: nat)
    requires Inv(s) && L.SomeAdmitted(s.l) && s.l.c.ctl > 0 && StillCalls(s.f, t)
    ensures CanMeetClosedCallback(cfg, s)
  {
    assert ValidRun(cfg, s, []);
    var s1 := StopCloses(cfg, s, s);
    var s2 := StopFinishes(cfg, s, s1);
    var s' := AttemptCalls(cfg, s, s2, t);
    assert MeetsClosedCallback(s', t);
  }

  // ---- The soft drain, as Stop's caller sees it --------------------------------------------

  /** No accepted Kill, no retry, no connection judged unusable. */
  predicate CleanStep(s: Sys, e: Step) {
    (e.KillAll? ==> L.KillRefused(s.l.c)) && (e.OfFleet? ==> S.CleanStep(e.fleet))
  }

  predicate Clean(cfg: Config, s: Sys, es: seq<Step>)
    requires ValidRun(cfg, s, es)
    decreases |es|
  {
    es != [] ==> CleanStep(s, es[0]) && Clean(cfg, Next(cfg, s, es[0]), es[1..])
  }

  lemma UntouchedStep(cfg: Config, s: Sys, e: Step)
    requires Inv(s) && S.Untouched(s.f) && !s.f.killed && Enabled(s, e) && CleanStep(s, e)
    ensures S.Untouched(Next(cfg, s, e).f) && !Next(cfg, s, e).f.killed
  {
    match e
    case OfFleet(fleet) =>
      S.UntouchedStep(cfg, s.f, fleet);
      FleetAloneShares(cfg, s.f, fleet);
    case HandOver(w, _) => S.UntouchedStep(cfg, s.f, F.Step.Take(w));
    case HandBack => S.UntouchedStep(cfg, s.f, F.Requeue);
    case CloseInput(_) => S.UntouchedStep(cfg, s.f, F.CloseOut);
    case _ =>
  }

  lemma {:induction false} CleanRun(cfg: Config, s: Sys, es: seq<Step>)
    requires Inv(s) && S.Untouched(s.f) && !s.f.killed && ValidRun(cfg, s, es) && Clean(cfg, s, es)
    ensures Inv(Final(cfg, s, es)) && S.Untouched(Final(cfg, s, es).f) && !Final(cfg, s, es).f.killed
    decreases |es|
  {
    if es != [] {
      Keeps(cfg, s, es[0]);
      UntouchedStep(cfg, s, es[0]);
      CleanRun(cfg, Next(cfg, s, es[0]), es[1..]);
    }
  }

  predicate Settled(a: F.Attempt) {
    a.calls == 1 && (a.stage == F.Ended(F.Delivered) || a.stage == F.Ended(F.Discarded))
  }

  /** In a clean run a Stop that returns does so only after every request handed to a worker
      has been settled by exactly one callBack, with the submitter gone. */
  lemma StopDrains(cfg: Config, backOff: BackOff.Tracker, now: int, es: seq<Step>, i: nat)
    requires ValidRun(cfg, Begin(cfg, backOff, now), es) && Clean(cfg, Begin(cfg, backOff, now), es)
    requires var l := Final(cfg, Begin(cfg, backOff, now), es).l;
             i < |l.stops| && l.stops[i] == L.Returned(true)
    ensures var s := Final(cfg, Begin(cfg, backOff, now), es);
            && s.l.submitter.Gone? && s.l.c.cdone == 1 && s.f.g.stopped
            && forall a :: a in s.f.attempts ==> Settled(a)
  {
    var s := Final(cfg, Begin(cfg, backOff, now), es);
    BeginInv(cfg, backOff, now);
    CleanRun(cfg, Begin(cfg, backOff, now), es);
    assert L.StopOk(s.l, i);
    S.StoppedIsWoundDown(s.f);
  }

  // ---- A Stop that hangs ---------------------------------------------------------------

  /** Stop number k waits for the governor, no Kill came before the submitter left, and
      worker i waits for round trip t, which is blocked on a jammed retry path. */
  predicate Hanging(s: Sys, k: nat, i: Id, t: nat) {
    && k < |s.l.stops| && s.l.stops[k].Draining? && s.l.c.gctl == 0
    && Jammed(s.f.path) && T.BlockedBehind(s.f, i, t)
  }

  lemma NotDoneWhileHanging(s: Sys, k: nat, i: Id, t: nat)
    requires Inv(s) && Hanging(s, k, i, t)
    ensures s.f.outClosed && !s.f.killed && !s.f.g.stopped && s.l.c.cdone == 0 && s.l.c.ctl == 0
    ensures L.KillRefused(s.l.c)
  {
    assert L.StopOk(s.l, k) && S.ConnOk(s.f, i);
  }

  lemma HangsOn(cfg: Config, s: Sys, e: Step, k: nat, i: Id, t: nat)
    requires Inv(s) && Hanging(s, k, i, t) && Enabled(s, e)
    ensures Hanging(Next(cfg, s, e), k, i, t)
  {
    NotDoneWhileHanging(s, k, i, t);
    if e.OfFleet? {
      T.StaysDrainBlocked(cfg, s.f, e.fleet, i, t);
    } else if e.OfClient? {
      ClientAloneShares(s.l, e.client);
    }
  }

  /** Such a Stop never returns, whatever happens: Kill comes too late. */
  lemma {:induction false} HangsForever(cfg: Config, s: Sys, es: seq<Step>, k: nat, i: Id, t: nat)
    requires Inv(s) && Hanging(s, k, i, t) && ValidRun(cfg, s, es)
    ensures k < |Final(cfg, s, es).l.stops| && Final(cfg, s, es).l.stops[k].Draining?
    ensures Final(cfg, s, es).l.c.cdone == 0
    decreases |es|
  {
    NotDoneWhileHanging(s, k, i, t);
    if es != [] {
      HangsOn(cfg, s, es[0], k, i, t);
      Keeps(cfg, s, es[0]);
      HangsForever(cfg, Next(cfg, s, es[0]), es[1..], k, i, t);
    }
  }

  // ---- Runs of the fleet are runs of the pipeline --------------------------------------------

  const Running := L.Sys(L.Core(L.RUNNING, 0, 0, 0, 0, 0, 0), L.Looping, [], [], true)
  const Stopping := L.Sys(L.Core(L.CLOSED, 1, 0, 0, 1, 0, 0), L.Submitter.Gone, [L.Draining], [], true)

  /** The client has pushed nothing itself, and a single Stop was called to close the input. */
  predicate Matches(s: Sys) {
    s.l == if s.f.outClosed then Stopping else Running
  }

  const Interrupted := L.Core(L.STOPPING, 1, 0, 0, 0, 0, 0)
  const Closed := L.Core(L.CLOSED, 1, 0, 0, 0, 0, 0)

  lemma StopArrives(cfg: Config, s0: Sys, s: Sys) returns (s': Sys)
    requires Leads(cfg, s0, s) && s.l == Running && !s.f.outClosed
    ensures s' == Sys(s.f.(outClosed := true), Stopping) && Leads(cfg, s0, s')
  {
    var s1 := ThenClient(cfg, s0, s, L.CallStop, L.Sys(Running.c, L.Looping, [L.Stopper.Called], [], true));
    var s2 := ThenClient(cfg, s0, s1, L.Stop(0), L.Sys(Interrupted, L.Looping, [L.Waiting], [], true));
    var s3 := ThenClient(cfg, s0, s2, L.SubmitterSeesControl, L.Sys(Interrupted, L.Leaving, [L.Waiting], [], true));
    var s4 := ThenClient(cfg, s0, s3, L.SubmitterLeaves, L.Sys(Closed, L.Left, [L.Waiting], [], true));
    s' := InputCloses(cfg, s0, s4);
  }

  lemma InputCloses(cfg: Config, s0: Sys, s: Sys) returns (s': Sys)
    requires Leads(cfg, s0, s) && s.l == L.Sys(Closed, L.Left, [L.Waiting], [], true) && !s.f.outClosed
    ensures s' == Sys(s.f.(outClosed := true), Stopping) && Leads(cfg, s0, s')
  {
    var s1 := ThenClient(cfg, s0, s, L.SubmitterSignals, L.Sys(Closed, L.Submitter.Gone, [L.Waiting], [], true));
    var s2 := ThenClient(cfg, s0, s1, L.StopWaited(0), L.Sys(Closed, L.Submitter.Gone, [L.Closing], [], true));
    s' := Sys(s.f.(outClosed := true), Stopping);
    Then(cfg, s0, s2, CloseInput(0), s');
  }

  lemma RequestArrives(cfg: Config, s0: Sys, s: Sys, w: Id) returns (s': Sys)
    requires Leads(cfg, s0, s) && s.l == Running && F.Enabled(s.f, F.Step.Take(w))
    ensures s' == s.(f := F.Next(cfg, s.f, F.Step.Take(w))) && Leads(cfg, s0, s')
  {
    var s1 := ThenClient(cfg, s0, s, L.SubmitterTakes, Running.(submitter := L.Sending));
    s' := s.(f := F.Next(cfg, s.f, F.Step.Take(w)));
    Then(cfg, s0, s1, HandOver(w, FromSubmitter), s');
  }

  lemma Realize(cfg: Config, s0: Sys, s: Sys, e: F.Step) returns (s': Sys)
    requires Leads(cfg, s0, s) && Matches(s) && F.Enabled(s.f, e) && !e.Kill? && !e.Requeue?
    ensures Leads(cfg, s0, s') && Matches(s') && s'.f == F.Next(cfg, s.f, e)
  {
    if e.CloseOut? {
      s' := StopArrives(cfg, s0, s);
    } else if e.Take? {
      s' := RequestArrives(cfg, s0, s, e.i);
    } else {
      FleetAloneShares(cfg, s.f, e);
      s' := s.(f := F.Next(cfg, s.f, e));
      Then(cfg, s0, s, OfFleet(e), s');
    }
  }

  lemma {:induction false} RealizeRun(cfg: Config, s0: Sys, s: Sys, es: seq<F.Step>) returns (s': Sys)
    requires Leads(cfg, s0, s) && Matches(s) && W.Quiet(es) && S.ValidRun(cfg, s.f, es)
    ensures Leads(cfg, s0, s') && Matches(s') && s'.f == S.Final(cfg, s.f, es)
    decreases |es|
  {
    if es == [] {
      s' := s;
    } else {
      var s1 := Realize(cfg, s0, s, es[0]);
      s' := RealizeRun(cfg, s0, s1, es[1..]);
    }
  }

  /** Every run of the fleet without a Kill, in which no retry reaches the submitter again, is
      a run of the whole pipeline: some client makes it happen with its queue and one Stop. */
  lemma FleetRunsAreRealized(cfg: Config, backOff: BackOff.Tracker, now: int, es: seq<F.Step>) returns (s: Sys)
    requires W.Quiet(es) && S.ValidRun(cfg, S.Begin(cfg, backOff, now), es)
    ensures Leads(cfg, Begin(cfg, backOff, now), s) && Matches(s)
    ensures s.f == S.Final(cfg, S.Begin(cfg, backOff, now), es)
  {
    var s0 := Begin(cfg, backOff, now);
    assert ValidRun(cfg, s0, []);
    var s1 := ThenClient(cfg, s0, s0, L.SubmitterBegins, Running);
    s := RealizeRun(cfg, s0, s1, es);
  }

  lemma Realized(cfg: Config, backOff: BackOff.Tracker, now: int, f: F.Sys) returns (s: Sys)
    requires W.Reaches(cfg, S.Begin(cfg, backOff, now), f)
    ensures Leads(cfg, Begin(cfg, backOff, now), s) && Matches(s) && s.f == f
  {
    var es :| W.Quiet(es) && S.ValidRun(cfg, S.Begin(cfg, backOff, now), es)
              && S.Final(cfg, S.Begin(cfg, backOff, now), es) == f;
    s := FleetRunsAreRealized(cfg, backOff, now, es);
  }

  // ---- Two such runs ---------------------------------------------------------------------

  /** A Stop that hangs: it is called while 603 requests are in flight that are all retried. */
  lemma StopHangs()
    ensures exists s, t :: Leads(W.UpTo(1), Begin(W.UpTo(1), W.Calm, 0), s) && Hanging(s, 0, 0, t)
  {
    W.OneBegins();
    var f := J.RetriesWedgeFrom(W.UpTo(1), S.Begin(W.UpTo(1), W.Calm, 0));
    var s := Realized(W.UpTo(1), W.Calm, 0, f);
    assert Hanging(s, 0, 0, J.LOAD);
  }

  /** The round trip a quit left behind answers after Stop has returned. */
  lemma AnswersTooLate(cfg: Config, s0: Sys, s: Sys) returns (s': Sys)
    requires Leads(cfg, s0, s) && Matches(s) && s.f.g.stopped && s.f.outClosed
    requires F.ValidAttempt(s.f, 1) && s.f.attempts[1].stage.Flight?
    ensures Leads(cfg, s0, s') && s'.l.stops == [L.Returned(true)] && s'.l.c.ctl == 0 && MeetsClosedCallback(s', 1)
  {
    var s1 := s.(l := L.Next(s.l, L.GovernorStops));
    Then(cfg, s0, s, SignalDone, s1);
    var s2 := ThenClient(cfg, s0, s1, L.StopReturns(0), L.Next(s1.l, L.StopReturns(0)));
    s' := s2.(f := F.Next(cfg, s2.f, F.Respond(1, true)));
    Then(cfg, s0, s2, OfFleet(F.Respond(1, true)), s');
  }

  /** So the condition of CallbackOpen is needed: a Stop returns, without any Kill, and then a
      result meets the closed callback channel. */
  lemma ResultMeetsClosedCallback()
    ensures exists s :: Leads(W.UpTo(1), Begin(W.UpTo(1), W.Calm, 0), s) && s.l.c.ctl == 0 && MeetsClosedCallback(s, 1)
  {
    W.OneBegins();
    var f := W.QuitAbandonsFrom(W.UpTo(1), S.Begin(W.UpTo(1), W.Calm, 0));
    var s := Realized(W.UpTo(1), W.Calm, 0, f);
    var s' := AnswersTooLate(W.UpTo(1), Begin(W.UpTo(1), W.Calm, 0), s);
  }

  lemma KilledWhileStopping(cfg: Config, s0: Sys, s: Sys) returns (s': Sys)
    requires Leads(cfg, s0, s) && s.l == Running
    ensures Leads(cfg, s0, s') && s'.f == s.f.(killed := true) && s'.l.c.ctl > 0 && L.SomeAdmitted(s'.l)
  {
    var s1 := ThenClient(cfg, s0, s, L.CallStop, L.Sys(Running.c, L.Looping, [L.Stopper.Called], [], true));
    var s2 := ThenClient(cfg, s0, s1, L.Stop(0), L.Sys(Interrupted, L.Looping, [L.Waiting], [], true));
    s' := Next(cfg, s2, KillAll);
    Then(cfg, s0, s2, KillAll, s');
    assert L.Admitted(s'.l.stops[0]);
  }

  lemma LedToKeeps(cfg: Config, backOff: BackOff.Tracker, now: int, s: Sys)
    requires Leads(cfg, Begin(cfg, backOff, now), s)
    ensures Inv(s)
  {
    var es :| ValidRun(cfg, Begin(cfg, backOff, now), es) && Final(cfg, Begin(cfg, backOff, now), es) == s;
    BeginInv(cfg, backOff, now);
    RunKeeps(cfg, Begin(cfg, backOff, now), es);
  }

  /** A Kill accepted while a Stop waits: a result meets the callback channel closed by the Stop that
      the Kill released, although no connection was ever judged unusable. */
  lemma KillLosesResults()
    ensures exists s ::
              && Leads(W.UpTo(1), Begin(W.UpTo(1), W.Calm, 0), s) && s.l.c.ctl > 0
              && MeetsClosedCallback(s, 0) && s.f.attempts[0].stage.usable
  {
    W.OneBegins();
    var cfg := W.UpTo(1);
    var s0 := Begin(cfg, W.Calm, 0);
    var f1 := W.OneRunning(cfg, s0.f);
    var f := W.FirstFlight(cfg, s0.f, f1, F.Seen(true));
    var s1 := Realized(cfg, W.Calm, 0, f);
    var s2 := KilledWhileStopping(cfg, s0, s1);
    LedToKeeps(cfg, W.Calm, 0, s2);
    var s3 := StopCloses(cfg, s0, s2);
    var s4 := StopFinishes(cfg, s0, s3);
    var s5 := AttemptCalls(cfg, s0, s4, 0);
  }
}
