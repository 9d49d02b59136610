/** The life of a started client, apns2/client.go: any number of concurrent Stop, Kill and
    Push calls, the submitter goroutine, and a governor that ends at some point. */
module Lifecycle {

  // The states of a client, in the order the source numbers them.
  const INITIAL: nat := 0
  const STARTING: nat := 1
  const RUNNING: nat := 2
  const STOPPING: nat := 3
  const TERMINATING: nat := 4
  const CLOSED: nat := 5

  /** The state, and how often each channel was closed. */
  datatype Core = Core(state: nat, cctl: nat, gctl: nat, ctl: nat, out: nat, cdone: nat, callback: nat)

  /** The part of Start done under the lock: false when the client was started before. */
  function Started(c: Core): Core {
    if c.state >= STARTING then c else c.(state := STARTING)
  }

  predicate StopRefused(c: Core) {
    c.state >= STOPPING
  }

  /** The part of Stop done under the lock. */
  function StopBegun(c: Core): Core {
    if StopRefused(c) then c else c.(state := STOPPING, cctl := c.cctl + 1)
  }

  predicate KillRefused(c: Core) {
    c.state >= TERMINATING
  }

  function Killed(c: Core): Core {
    if KillRefused(c) then c
    else
      c.(state := TERMINATING,
         cctl := if c.state == STOPPING then c.cctl else c.cctl + 1,
         gctl := c.gctl + 1,
         ctl := c.ctl + 1)
  }

  /** The submitter's first critical section. */
  function SubmitterBegun(c: Core): Core {
    if c.state != STARTING then c else c.(state := RUNNING)
  }

  predicate PushRefused(c: Core) {
    c.state < STARTING || c.state > RUNNING
  }

  /** The client's mutable fields; each method is what its namesake does under the lock. */
  class Client {
    var state: nat
    var cctl: nat
    var gctl: nat
    var ctl: nat
    var out: nat
    var cdone: nat
    var callback: nat

    function View(): Core
      reads this
    {
      Core(state, cctl, gctl, ctl, out, cdone, callback)
    }

    constructor ()
      ensures View() == Core(INITIAL, 0, 0, 0, 0, 0, 0)
    {
      state := INITIAL;
      cctl, gctl, ctl, out, cdone, callback := 0, 0, 0, 0, 0, 0;
    }

    method Start() returns (ok: bool)
      modifies this
      ensures View() == Started(old(View())) && ok == (old(state) < STARTING)
      ensures state == if old(state) < STARTING then STARTING else old(state)
      ensures View() == old(View()).(state := state)
    {
      if state >= STARTING {
        return false;
      }
      state := STARTING;
      ok := true;
    }

    method BeginStop() returns (ok: bool)
      modifies this
      ensures View() == StopBegun(old(View())) && ok == !StopRefused(old(View()))
      ensures ok <==> old(state) < STOPPING
      ensures View() == if ok then old(View()).(state := STOPPING, cctl := old(cctl) + 1) else old(View())
    {
      if state >= STOPPING {
        return false;
      }
      state := STOPPING;
      cctl := cctl + 1;
      ok := true;
    }

    method Kill() returns (ok: bool)
      modifies this
      ensures View() == Killed(old(View())) && ok == !KillRefused(old(View()))
      ensures ok <==> old(state) < TERMINATING
      ensures !ok ==> View() == old(View())
      ensures ok ==> state == TERMINATING && gctl == old(gctl) + 1 && ctl == old(ctl) + 1
      ensures ok ==> cctl == old(cctl) + (if old(state) == STOPPING then 0 else 1)
      ensures out == old(out) && cdone == old(cdone) && callback == old(callback)
    {
      if state >= TERMINATING {
        return false;
      }
      var wasStopping := state == STOPPING;
      state := TERMINATING;
      if !wasStopping {
        cctl := cctl + 1;
      }
      gctl := gctl + 1;
      ctl := ctl + 1;
      ok := true;
    }

    method BeginSubmitter() returns (done: bool)
      modifies this
      ensures View() == SubmitterBegun(old(View())) && done == (old(state) != STARTING)
      ensures View() == old(View()).(state := if done then old(state) else RUNNING)
    {
      done := false;
      if state != STARTING {
        done := true;
      } else {
        state := RUNNING;
      }
    }
  }

  // ---- Goroutines -------------------------------------------------------------------

  /** Sending is before, Blocked inside the second select of submit; Left has stored the
      closed state and not yet signalled the wait group. */
  datatype Submitter = Unbegun | Looping | Sending | Blocked | Leaving | Left | Gone

  /** Waiting for the submitter, then for the governor's done signal or for Kill. */
  datatype Stopper = Called | Waiting | Closing | Draining | Returned(ok: bool)

  /** Checked has seen a running client and is about to send. */
  datatype Pusher = Entered | Checked | Parked | Sent | Interrupted | Refused

  datatype Sys = Sys(
    c: Core,
    submitter: Submitter,
    stops: seq<Stopper>,
    pushes: seq<Pusher>,
    governing: bool)

  datatype Step =
    | CallStop
    | CallPush
    | Stop(i: nat)
    | StopWaited(i: nat)
    | StopClosesOut(i: nat)
    | StopReturns(i: nat)
    | Kill
    | SubmitterBegins
    | SubmitterTakes
    | SubmitterSends
    | SubmitterBlocks
    | SubmitterInterrupted
    | SubmitterSeesControl
    | QueueClosed
    | SubmitterLeaves
    | SubmitterSignals
    | GovernorStops
    | PushChecks(i: nat)
    | PushSends(i: nat)
    | PushParks(i: nat)
    | PushInterrupted(i: nat)

  predicate EnabledStop(s: Sys, e: Step) {
    match e
    case Stop(i) => i < |s.stops| && s.stops[i].Called?
    case StopWaited(i) => i < |s.stops| && s.stops[i].Waiting? && s.submitter.Gone?
    case StopClosesOut(i) => i < |s.stops| && s.stops[i].Closing?
    case StopReturns(i) => i < |s.stops| && s.stops[i].Draining? && (s.c.cdone > 0 || s.c.ctl > 0)
    case _ => false
  }

  predicate EnabledSubmitter(s: Sys, e: Step) {
    match e
    case SubmitterBegins => s.submitter.Unbegun?
    case SubmitterTakes => s.submitter.Looping?
    case SubmitterSends => s.submitter.Sending? || s.submitter.Blocked?
    case SubmitterBlocks => s.submitter.Sending?
    case SubmitterInterrupted => s.submitter.Blocked? && s.c.cctl > 0
    case SubmitterSeesControl => s.submitter.Looping? && s.c.cctl > 0
    case QueueClosed => s.submitter.Looping?
    case SubmitterLeaves => s.submitter.Leaving?
    case SubmitterSignals => s.submitter.Left?
    case _ => false
  }

  predicate EnabledPush(s: Sys, e: Step) {
    match e
    case PushChecks(i) => i < |s.pushes| && s.pushes[i].Entered?
    case PushSends(i) => i < |s.pushes| && (s.pushes[i].Checked? || s.pushes[i].Parked?) && s.c.out == 0
    case PushParks(i) => i < |s.pushes| && s.pushes[i].Checked? && s.c.out == 0
    case PushInterrupted(i) => i < |s.pushes| && s.pushes[i].Parked? && s.c.cctl > 0
    case _ => false
  }

  /** The governor ends on a hard stop, or softly after its input was closed. */
  predicate Enabled(s: Sys, e: Step) {
    match e
    case CallStop => true
    case CallPush => true
    case Kill => true
    case GovernorStops => s.governing && (s.c.gctl > 0 || s.c.out > 0)
    case _ => EnabledStop(s, e) || EnabledSubmitter(s, e) || EnabledPush(s, e)
  }

  function NextStop(s: Sys, e: Step): Sys
    requires EnabledStop(s, e)
  {
    match e
    case Stop(i) =>
      s.(c := StopBegun(s.c), stops := s.stops[i := if StopRefused(s.c) then Returned(false) else Waiting])
    case StopWaited(i) => s.(stops := s.stops[i := Closing])
    case StopClosesOut(i) => s.(c := s.c.(out := s.c.out + 1), stops := s.stops[i := Draining])
    case StopReturns(i) => s.(c := s.c.(callback := s.c.callback + 1), stops := s.stops[i := Returned(true)])
  }

  function NextSubmitter(s: Sys, e: Step): Sys
    requires EnabledSubmitter(s, e)
  {
    match e
    case SubmitterBegins =>
      s.(c := SubmitterBegun(s.c), submitter := if s.c.state != STARTING then Leaving else Looping)
    case SubmitterTakes => s.(submitter := Sending)
    case SubmitterSends => s.(submitter := Looping)
    case SubmitterBlocks => s.(submitter := Blocked)
    case SubmitterInterrupted => s.(submitter := Looping)
    case SubmitterSeesControl => s.(submitter := Leaving)
    case QueueClosed => s.(submitter := Leaving)
    case SubmitterLeaves => s.(c := s.c.(state := CLOSED), submitter := Left)
    case SubmitterSignals => s.(submitter := Gone)
  }

  function NextPush(s: Sys, e: Step): Sys
    requires EnabledPush(s, e)
  {
    match e
    case PushChecks(i) => s.(pushes := s.pushes[i := if PushRefused(s.c) then Refused else Checked])
    case PushSends(i) => s.(pushes := s.pushes[i := Sent])
    case PushParks(i) => s.(pushes := s.pushes[i := Parked])
    case PushInterrupted(i) => s.(pushes := s.pushes[i := Interrupted])
  }

  function Next(s: Sys, e: Step): Sys
    requires Enabled(s, e)
  {
    match e
    case CallStop => s.(stops := s.stops + [Called])
    case CallPush => s.(pushes := s.pushes + [Entered])
    case Kill => s.(c := Killed(s.c))
    case GovernorStops => s.(c := s.c.(cdone := s.c.cdone + 1), governing := false)
    case _ =>
      if EnabledStop(s, e) then NextStop(s, e)
      else if EnabledSubmitter(s, e) then NextSubmitter(s, e)
      else NextPush(s, e)
  }

  // ---- What every step keeps -----------------------------------------------------------

  /** A Stop that got past its check. */
  predicate Admitted(p: Stopper) {
    p.Waiting? || p.Closing? || p.Draining? || p == Returned(true)
  }

  predicate OutClosedBy(p: Stopper) {
    p.Draining? || p == Returned(true)
  }

  predicate CoreOk(s: Sys) {
    var c := s.c;
    && STARTING <= c.state <= CLOSED
    && c.cctl <= 1 && c.gctl <= 1 && c.ctl == c.gctl && c.out <= 1 && c.cdone <= 1 && c.callback <= 1
    && (c.state < STOPPING ==> c.cctl == 0)
    && (c.state == STOPPING || c.state == TERMINATING ==> c.cctl == 1)
    && (c.state < TERMINATING ==> c.gctl == 0)
    && (c.state == TERMINATING ==> c.gctl == 1)
    && (c.gctl > 0 ==> c.cctl == 1)
    && (c.cdone == 0 <==> s.governing) && (c.callback > 0 ==> c.out > 0)
    && (c.cdone > 0 ==> c.gctl > 0 || c.out > 0)
    && (c.callback > 0 ==> c.cdone > 0 || c.ctl > 0)
  }

  predicate SubmitterOk(s: Sys) {
    && (s.submitter.Left? || s.submitter.Gone? <==> s.c.state == CLOSED)
    && (s.submitter.Unbegun? ==> s.c.state != RUNNING)
    && (!s.submitter.Unbegun? ==> s.c.state != STARTING)
    && (s.c.out > 0 ==> s.submitter.Gone? && s.c.cctl > 0)
  }

  predicate StopOk(s: Sys, i: nat)
    requires i < |s.stops|
  {
    var p := s.stops[i];
    && (Admitted(p) ==> s.c.state >= STOPPING && s.c.cctl == 1)
    && (p.Closing? || OutClosedBy(p) ==> s.submitter.Gone?)
    && (OutClosedBy(p) ==> s.c.out == 1)
    && (p.Waiting? || p.Closing? ==> s.c.out == 0 && s.c.callback == 0)
    && (p.Draining? ==> s.c.callback == 0)
    && (p == Returned(true) ==> s.c.callback == 1 && (s.c.cdone == 1 || s.c.ctl == 1))
  }

  /** At most one Stop gets past its check. */
  predicate OneAdmitted(s: Sys) {
    forall i, j :: 0 <= i < j < |s.stops| ==> !Admitted(s.stops[i]) || !Admitted(s.stops[j])
  }

  predicate SomeAdmitted(s: Sys) {
    exists i :: 0 <= i < |s.stops| && Admitted(s.stops[i])
  }

  predicate Inv(s: Sys) {
    && CoreOk(s) && SubmitterOk(s) && OneAdmitted(s)
    && (s.c.cctl > 0 ==> s.c.gctl > 0 || SomeAdmitted(s))
    && (s.c.out > 0 ==> SomeAdmitted(s))
    && (forall i :: 0 <= i < |s.stops| ==> StopOk(s, i))
  }

  /** An admitted Stop stays admitted. */
  lemma AdmittedStays(s: Sys, e: Step)
    requires Enabled(s, e) && SomeAdmitted(s)
    ensures SomeAdmitted(Next(s, e))
  {
    var i :| 0 <= i < |s.stops| && Admitted(s.stops[i]);
    assert Admitted(Next(s, e).stops[i]);
  }

  lemma KeepsStop(s: Sys, e: Step)
    requires Inv(s) && EnabledStop(s, e)
    ensures Inv(NextStop(s, e))
  {
    assert StopOk(s, e.i);
    var s' := NextStop(s, e);
    if e.Stop? && !StopRefused(s.c) {
      forall j | 0 <= j < |s.stops| ensures !Admitted(s.stops[j]) {
        assert StopOk(s, j);
      }
    }
    if SomeAdmitted(s) {
      AdmittedStays(s, e);
    }
    assert !e.Stop? || !StopRefused(s.c) ==> Admitted(s'.stops[e.i]);
    forall j | 0 <= j < |s'.stops| ensures StopOk(s', j) {
      assert StopOk(s, j);
    }
  }

  lemma KeepsSubmitter(s: Sys, e: Step)
    requires Inv(s) && EnabledSubmitter(s, e)
    ensures Inv(NextSubmitter(s, e))
  {
    var s' := NextSubmitter(s, e);
    forall j | 0 <= j < |s'.stops| ensures StopOk(s', j) {
      assert StopOk(s, j);
    }
  }

  lemma KeepsElse(s: Sys, e: Step)
    requires Inv(s) && Enabled(s, e) && !EnabledStop(s, e) && !EnabledSubmitter(s, e)
    ensures Inv(Next(s, e))
  {
    var s' := Next(s, e);
    if SomeAdmitted(s) {
      AdmittedStays(s, e);
    }
    forall j | 0 <= j < |s'.stops| ensures StopOk(s', j) {
      assert j < |s.stops| ==> StopOk(s, j);
    }
  }

  lemma Keeps(s: Sys, e: Step)
    requires Inv(s) && Enabled(s, e)
    ensures Inv(Next(s, e))
  {
    if EnabledStop(s, e) {
      KeepsStop(s, e);
    } else if EnabledSubmitter(s, e) {
      KeepsSubmitter(s, e);
    } else {
      KeepsElse(s, e);
    }
  }

  // ---- Runs ---------------------------------------------------------------------

  predicate ValidRun(s: Sys, es: seq<Step>)
    decreases |es|
  {
    es != [] ==> Enabled(s, es[0]) && ValidRun(Next(s, es[0]), es[1..])
  }

  function Final(s: Sys, es: seq<Step>): Sys
    requires ValidRun(s, es)
    decreases |es|
  {
    if es == [] then s else Final(Next(s, es[0]), es[1..])
  }

  /** Start has returned. */
  const Begin := Sys(Core(STARTING, 0, 0, 0, 0, 0, 0), Unbegun, [], [], true)

  /** The first Start of a new client leads to the state in which its runs begin; any other Start
      changes nothing. */
  lemma StartBegins(c: Core)
    ensures Started(Core(INITIAL, 0, 0, 0, 0, 0, 0)) == Begin.c
    ensures c.state != INITIAL ==> Started(c) == c
  {}

  lemma {:induction false} RunKeeps(s: Sys, es: seq<Step>)
    requires Inv(s) && ValidRun(s, es)
    ensures Inv(Final(s, es)) && Final(s, es).c.state >= s.c.state
    decreases |es|
  {
    if es != [] {
      Keeps(s, es[0]);
      RunKeeps(Next(s, es[0]), es[1..]);
    }
  }

  /** In every run after Start no channel is closed twice, the state never goes back, and the
      submitter has an open channel to send on. */
  lemma LifecycleSafe(es: seq<Step>, more: seq<Step>)
    requires ValidRun(Begin, es) && ValidRun(Final(Begin, es), more)
    ensures var s, s' := Final(Begin, es), Final(Final(Begin, es), more);
            && s.c.state <= s'.c.state
            && s'.c.cctl <= 1 && s'.c.gctl <= 1 && s'.c.ctl <= 1
            && s'.c.out <= 1 && s'.c.cdone <= 1 && s'.c.callback <= 1
            && (s'.submitter.Sending? || s'.submitter.Blocked? ==> s'.c.out == 0)
  {
    RunKeeps(Begin, es);
    RunKeeps(Final(Begin, es), more);
  }

  // ---- What the shutdown calls achieve ---------------------------------------------

  /** A Stop that returns has closed the callback channel.  Unless a Kill was accepted it did
      so after the governor signalled done, the governor after the input of the workers was
      closed, and that after the submitter left. */
  lemma StopReturnsAfterDone(es: seq<Step>, i: nat)
    requires ValidRun(Begin, es) && i < |Final(Begin, es).stops|
    requires Final(Begin, es).stops[i] == Returned(true)
    ensures var s := Final(Begin, es);
            && s.c.callback == 1 && s.c.out == 1 && s.submitter.Gone?
            && (s.c.ctl == 0 ==> s.c.cdone == 1 && s.c.gctl == 0 && !s.governing)
  {
    RunKeeps(Begin, es);
    assert StopOk(Final(Begin, es), i);
  }

  /** Without a Kill the governor is done only after the input of the workers was closed. */
  lemma DoneAfterClose(es: seq<Step>)
    requires ValidRun(Begin, es)
    ensures var s := Final(Begin, es);
            s.c.cdone == 1 && s.c.gctl == 0 ==> s.c.out == 1 && s.c.cctl == 1 && s.submitter.Gone?
  {
    RunKeeps(Begin, es);
  }

  /** A Stop that waits for the governor can no longer be helped: by then the submitter has
      stored the closed state, so every Kill is refused and closes nothing.  Kill is in time
      exactly while the submitter has not left. */
  lemma KillInTimeIff(s: Sys)
    requires Inv(s) && s.c.gctl == 0
    ensures Next(s, Kill).c.gctl == 1 <==> !s.submitter.Left? && !s.submitter.Gone?
    ensures (exists i :: 0 <= i < |s.stops| && s.stops[i].Draining?) ==> Next(s, Kill) == s
  {
    if i :| 0 <= i < |s.stops| && s.stops[i].Draining? {
      assert StopOk(s, i);
    }
  }

  /** The submitter left because its queue was closed, with no Stop or Kill before that. */
  predicate Stranded(s: Sys) {
    s.c.state == CLOSED && s.c.cctl == 0 && s.c.cdone == 0
  }

  lemma StrandedStep(s: Sys, e: Step)
    requires Inv(s) && Stranded(s) && Enabled(s, e)
    ensures Stranded(Next(s, e)) && Next(s, e).c == s.c
  {
    if EnabledStop(s, e) {
      assert StopOk(s, e.i);
    }
  }

  /** From then on nothing can shut the pipeline down: every Stop and Kill is refused, the
      input of the workers stays open and the governor runs on. */
  lemma {:induction false} StrandedForever(s: Sys, es: seq<Step>)
    requires Inv(s) && Stranded(s) && ValidRun(s, es)
    ensures Final(s, es).c == s.c && s.c.out == 0 && s.c.gctl == 0 && Final(s, es).governing
    decreases |es|
  {
    if es != [] {
      StrandedStep(s, es[0]);
      Keeps(s, es[0]);
      StrandedForever(Next(s, es[0]), es[1..]);
    }
  }

  /** Some run leads from s0 to s. */
  ghost predicate Leads(s0: Sys, s: Sys) {
    exists es :: ValidRun(s0, es) && Final(s0, es) == s
  }

  lemma LeadsNowhere(s: Sys)
    ensures Leads(s, s)
  {
    assert ValidRun(s, []);
  }

  lemma {:induction false} Append(s: Sys, es: seq<Step>, e: Step)
    requires ValidRun(s, es) && Enabled(Final(s, es), e)
    ensures ValidRun(s, es + [e]) && Final(s, es + [e]) == Next(Final(s, es), e)
    decreases |es|
  {
    if es == [] {
      assert [] + [e] == [e];
      assert ValidRun(Next(s, e), []);
    } else {
      assert (es + [e])[1..] == es[1..] + [e];
      Append(Next(s, es[0]), es[1..], e);
    }
  }

  lemma Then(s0: Sys, s: Sys, e: Step, s': Sys)
    requires Leads(s0, s) && Enabled(s, e) && Next(s, e) == s'
    ensures Leads(s0, s')
  {
    var es :| ValidRun(s0, es) && Final(s0, es) == s;
    Append(s0, es, e);
  }

  /** The submitter's next step on its way out. */
  function Leaves(s: Sys): Step
    requires !s.submitter.Gone?
  {
    match s.submitter
    case Unbegun => SubmitterBegins
    case Looping => SubmitterSeesControl
    case Sending => SubmitterBlocks
    case Blocked => SubmitterInterrupted
    case Leaving => SubmitterLeaves
    case Left => SubmitterSignals
  }

  function StepsToLeave(p: Submitter): nat {
    match p
    case Unbegun => 3
    case Looping => 3
    case Sending => 5
    case Blocked => 4
    case Leaving => 2
    case Left => 1
    case Gone => 0
  }

  lemma LeavesStep(s: Sys)
    requires Inv(s) && s.c.cctl > 0 && !s.submitter.Gone?
    ensures Enabled(s, Leaves(s))
    ensures var s' := Next(s, Leaves(s));
            && Inv(s') && s' == s.(submitter := s'.submitter, c := s.c.(state := s'.c.state))
            && StepsToLeave(s'.submitter) < StepsToLeave(s.submitter)
  {
    Keeps(s, Leaves(s));
  }

  /** Once its control channel is closed the submitter can leave, whatever else happened. */
  lemma {:induction false} SubmitterCanLeave(s0: Sys, s: Sys) returns (s': Sys)
    requires Leads(s0, s) && Inv(s) && s.c.cctl > 0
    ensures Leads(s0, s') && Inv(s') && s'.submitter.Gone?
    ensures s' == s.(submitter := Gone, c := s.c.(state := CLOSED))
    decreases StepsToLeave(s.submitter)
  {
    if s.submitter.Gone? {
      s' := s;
    } else {
      LeavesStep(s);
      Then(s0, s, Leaves(s), Next(s, Leaves(s)));
      s' := SubmitterCanLeave(s0, Next(s, Leaves(s)));
    }
  }

  /** An admitted Stop can get as far as closing the input of the workers. */
  lemma StopCanClose(s0: Sys, s: Sys) returns (s': Sys)
    requires Leads(s0, s) && Inv(s) && SomeAdmitted(s)
    ensures Leads(s0, s') && Inv(s') && s'.c.out == 1
    ensures s'.pushes == s.pushes && s'.governing == s.governing && s'.c.gctl == s.c.gctl
  {
    var i :| 0 <= i < |s.stops| && Admitted(s.stops[i]);
    assert StopOk(s, i);
    var s1 := SubmitterCanLeave(s0, s);
    assert StopOk(s1, i);
    if s1.stops[i].Waiting? {
      var s2 := Next(s1, StopWaited(i));
      Then(s0, s1, StopWaited(i), s2);
      Keeps(s1, StopWaited(i));
      s' := Closes(s0, s2, i);
    } else if s1.stops[i].Closing? {
      s' := Closes(s0, s1, i);
    } else {
      s' := s1;
    }
  }

  lemma Closes(s0: Sys, s: Sys, i: nat) returns (s': Sys)
    requires Leads(s0, s) && Inv(s) && i < |s.stops| && s.stops[i].Closing?
    ensures Leads(s0, s') && Inv(s') && s'.c.out == 1
    ensures s'.pushes == s.pushes && s'.governing == s.governing && s'.c.gctl == s.c.gctl
  {
    assert StopOk(s, i);
    s' := Next(s, StopClosesOut(i));
    Then(s0, s, StopClosesOut(i), s');
    Keeps(s, StopClosesOut(i));
  }

  /** Some continuation closes the governor's control channel or the input of the workers. */
  ghost predicate CanClose(s: Sys) {
    exists s' :: Leads(s, s') && (s'.c.gctl > 0 || s'.c.out > 0)
  }

  /** What still has to happen for a client that is not stranded. */
  lemma EventuallyCloses(s: Sys) returns (s': Sys)
    requires Inv(s) && !Stranded(s)
    ensures Leads(s, s') && (s'.c.gctl > 0 || s'.c.out > 0)
  {
    LeadsNowhere(s);
    s' := s;
    if s.c.cctl == 0 {
      s' := Next(s, Kill);
      Then(s, s, Kill, s');
    } else if s.c.gctl == 0 {
      s' := StopCanClose(s, s);
    }
  }

  /** From any state the governor can still be told to end, hard or softly, exactly when the
      client is not stranded.  PipelineShutdown.ShutDownIff says when it then can. */
  lemma CloseIff(s: Sys)
    requires Inv(s)
    ensures CanClose(s) <==> !Stranded(s)
  {
    if Stranded(s) {
      forall es | ValidRun(s, es) ensures Final(s, es).c.gctl == 0 && Final(s, es).c.out == 0 {
        StrandedForever(s, es);
      }
    } else {
      var s' := EventuallyCloses(s);
    }
  }

  /** Closing the queue of a running client strands it. */
  lemma QueueCloseStrands()
    ensures exists s :: Leads(Begin, s) && Stranded(s)
  {
    var s1 := Begin.(c := Core(RUNNING, 0, 0, 0, 0, 0, 0), submitter := Looping);
    var s2 := s1.(submitter := Leaving);
    var s3 := s1.(c := Core(CLOSED, 0, 0, 0, 0, 0, 0), submitter := Left);
    LeadsNowhere(Begin);
    Then(Begin, Begin, SubmitterBegins, s1);
    Then(Begin, s1, QueueClosed, s2);
    Then(Begin, s2, SubmitterLeaves, s3);
  }

  // ---- Push against a closing channel ------------------------------------------------

  /** Past its check, with a select statement still to evaluate. */
  predicate InFlight(p: Pusher) {
    p.Checked? || p.Parked?
  }

  /** Such a Push may find its send on the closed channel chosen, which panics. */
  predicate PushPanics(s: Sys, i: nat) {
    i < |s.pushes| && InFlight(s.pushes[i]) && s.c.out > 0
  }

  predicate NoneInFlight(s: Sys) {
    forall i :: 0 <= i < |s.pushes| ==> !InFlight(s.pushes[i])
  }

  /** Pushes that check after Stop or Kill took effect are refused, so if none was in flight
      at that time none ever meets a closed channel. */
  lemma {:induction false} QuietStopIsSafe(s: Sys, es: seq<Step>, i: nat)
    requires Inv(s) && s.c.state >= STOPPING && NoneInFlight(s) && ValidRun(s, es)
    ensures NoneInFlight(Final(s, es)) && !PushPanics(Final(s, es), i)
    decreases |es|
  {
    if es != [] {
      Keeps(s, es[0]);
      NoneNewlyInFlight(s, es[0]);
      QuietStopIsSafe(Next(s, es[0]), es[1..], i);
    }
  }

  lemma NoneNewlyInFlight(s: Sys, e: Step)
    requires Inv(s) && s.c.state >= STOPPING && NoneInFlight(s) && Enabled(s, e)
    ensures NoneInFlight(Next(s, e)) && Next(s, e).c.state >= STOPPING
  {}

  /** A Push that blocks is released by Stop or Kill: once the control channel is closed it may
      return as interrupted, after which it can meet no closed channel. */
  lemma PushReleased(s: Sys, i: nat)
    requires Inv(s) && i < |s.pushes| && s.pushes[i].Checked? && s.c.cctl > 0 && s.c.out == 0
    ensures var s1 := s.(pushes := s.pushes[i := Parked]);
            && Enabled(s, PushParks(i)) && Next(s, PushParks(i)) == s1
            && Enabled(s1, PushInterrupted(i)) && Next(s1, PushInterrupted(i)).pushes[i] == Interrupted
            && !PushPanics(Next(s1, PushInterrupted(i)), i)
  {}

  /** Without an admitted Stop a client past running never closes the input of the workers. */
  lemma {:induction false} NeverCloses(s: Sys, es: seq<Step>)
    requires Inv(s) && s.c.state >= STOPPING && !SomeAdmitted(s) && ValidRun(s, es)
    ensures Final(s, es).c.out == 0
    decreases |es|
  {
    if es != [] {
      Keeps(s, es[0]);
      NoneNewlyAdmitted(s, es[0]);
      NeverCloses(Next(s, es[0]), es[1..]);
    }
  }

  lemma NoneNewlyAdmitted(s: Sys, e: Step)
    requires Inv(s) && s.c.state >= STOPPING && !SomeAdmitted(s) && Enabled(s, e)
    ensures !SomeAdmitted(Next(s, e)) && Next(s, e).c.state >= STOPPING
  {
    forall i | 0 <= i < |Next(s, e).stops| ensures !Admitted(Next(s, e).stops[i]) {
      assert i < |s.stops| ==> !Admitted(s.stops[i]);
    }
  }

  ghost predicate CanPanic(s: Sys) {
    exists s', i :: Leads(s, s') && PushPanics(s', i)
  }

  /** Before Stop and Kill, a Push may still check, and a Stop may follow it. */
  lemma PushThenStop(s0: Sys, s: Sys) returns (s': Sys)
    requires Leads(s0, s) && Inv(s) && s.c.state < STOPPING
    ensures Leads(s0, s') && Inv(s') && SomeAdmitted(s') && !NoneInFlight(s') && s'.c.gctl == s.c.gctl
  {
    var s1 := PushChecked(s0, s);
    s' := StopBegins(s0, s1);
  }

  lemma PushChecked(s0: Sys, s: Sys) returns (s': Sys)
    requires Leads(s0, s) && Inv(s) && s.c.state < STOPPING
    ensures Leads(s0, s') && Inv(s') && s'.c.state < STOPPING && !NoneInFlight(s') && s'.c.gctl == s.c.gctl
  {
    var i := |s.pushes|;
    var s1 := Next(s, CallPush);
    Then(s0, s, CallPush, s1);
    Keeps(s, CallPush);
    s' := Next(s1, PushChecks(i));
    Then(s0, s1, PushChecks(i), s');
    Keeps(s1, PushChecks(i));
    assert InFlight(s'.pushes[i]);
  }

  lemma StopBegins(s0: Sys, s: Sys) returns (s': Sys)
    requires Leads(s0, s) && Inv(s) && s.c.state < STOPPING
    ensures Leads(s0, s') && Inv(s') && SomeAdmitted(s') && s'.pushes == s.pushes && s'.c.gctl == s.c.gctl
  {
    var i := |s.stops|;
    var s1 := Next(s, CallStop);
    Then(s0, s, CallStop, s1);
    Keeps(s, CallStop);
    s' := Next(s1, Stop(i));
    Then(s0, s1, Stop(i), s');
    Keeps(s1, Stop(i));
    assert Admitted(s'.stops[i]);
  }

  /** Some Push can still meet a closed channel exactly when the client is not stopping yet,
      or a Stop was admitted while a Push is past its check. */
  lemma PushPanicsIff(s: Sys)
    requires Inv(s)
    ensures CanPanic(s) <==> s.c.state < STOPPING || (SomeAdmitted(s) && !NoneInFlight(s))
  {
    LeadsNowhere(s);
    if s.c.state < STOPPING {
      var s1 := PushThenStop(s, s);
      var s' := StopCanClose(s, s1);
      var i :| 0 <= i < |s'.pushes| && InFlight(s'.pushes[i]);
      assert PushPanics(s', i);
    } else if SomeAdmitted(s) && !NoneInFlight(s) {
      var s' := StopCanClose(s, s);
      var i :| 0 <= i < |s'.pushes| && InFlight(s'.pushes[i]);
      assert PushPanics(s', i);
    } else {
      forall es, i | ValidRun(s, es) ensures !PushPanics(Final(s, es), i) {
        if NoneInFlight(s) {
          QuietStopIsSafe(s, es, i);
        } else {
          NeverCloses(s, es);
        }
      }
    }
  }

  /** So a Push that checked before a Stop may meet the channel that Stop closes, without any Kill. */
  lemma PushRacesClose()
    ensures exists s, i :: Leads(Begin, s) && s.c.gctl == 0 && PushPanics(s, i)
  {
    LeadsNowhere(Begin);
    var s1 := PushThenStop(Begin, Begin);
    var s := StopCanClose(Begin, s1);
    var i :| 0 <= i < |s.pushes| && InFlight(s.pushes[i]);
    assert PushPanics(s, i);
  }
}
