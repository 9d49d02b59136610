/** The HTTP/2 stream reservation of apns2/http.go: a semaphore on a condition variable
    whose capacity moves while callers sleep and whose callers may be cancelled. */
module Reservation {
  import opened Words
  import opened Options

  // ---- The gate ------------------------------------------------------------------

  datatype Gate = Gate(cfgCap: u32, actCap: u32, effCap: u32, cnt: u32)

  /** The wait condition, cancellation aside. */
  predicate Full(g: Gate) {
    g.effCap > 0 && g.cnt >= g.effCap
  }

  /** None: the connection pool is missing or did not yield a connection. */
  function Refreshed(g: Gate, reported: Option<u32>): Gate {
    match reported
    case None => g
    case Some(v) => g.(actCap := v, effCap := Min(v, g.cfgCap))
  }

  predicate RefreshWakes(g: Gate, reported: Option<u32>) {
    reported.Some? &&
    var v := Min(reported.value, g.cfgCap);
    g.effCap < v || (g.effCap > 0 && v == 0)
  }

  function Taken(g: Gate): Gate {
    g.(cnt := Add32(g.cnt, 1))
  }

  function Released(g: Gate): Gate {
    if g.cnt > 0 then g.(cnt := g.cnt - 1) else g
  }

  predicate ReleaseWakes(g: Gate) {
    g.cnt > 0 && g.cnt - 1 < g.effCap
  }

  /** The client's own fields; each method is the part of its namesake done under the lock,
      and says whether it broadcasts. */
  class HTTPClient {
    const cfgCap: u32
    var actCap: u32
    var effCap: u32
    var cnt: u32

    function View(): Gate
      reads this
    {
      Gate(cfgCap, actCap, effCap, cnt)
    }

    constructor (cfgCap: u32)
      ensures View() == Gate(cfgCap, 0, 1, 0)
    {
      this.cfgCap := cfgCap;
      actCap, effCap, cnt := 0, 1, 0;
    }

    method RefreshCapLocked(reported: Option<u32>) returns (broadcast: bool)
      modifies this
      ensures View() == Refreshed(old(View()), reported) && broadcast == RefreshWakes(old(View()), reported)
      ensures cnt == old(cnt)
      ensures reported.None? ==> actCap == old(actCap) && effCap == old(effCap) && !broadcast
      ensures reported.Some? ==>
                && actCap == reported.value && effCap <= actCap && effCap <= cfgCap
                && (effCap == actCap || effCap == cfgCap)
                && (broadcast <==> effCap > old(effCap) || (effCap == 0 && old(effCap) > 0))
    {
      if reported.None? {
        return false;
      }
      actCap := reported.value;
      var v := actCap;
      if v > cfgCap {
        v := cfgCap;
      }
      broadcast := effCap < v || (effCap > 0 && v == 0);
      effCap := v;
    }

    /** One pass of the loop test in ReservedStream: sleep, fail, or take a stream. */
    method TryReserve(canceled: bool) returns (sleep: bool, reserved: bool)
      modifies this
      ensures sleep == (Full(old(View())) && !canceled)
      ensures reserved == (!sleep && !canceled)
      ensures View() == if reserved then Taken(old(View())) else old(View())
      ensures sleep <==> !canceled && old(effCap) > 0 && old(cnt) >= old(effCap)
      ensures effCap == old(effCap) && actCap == old(actCap)
      ensures cnt == if reserved then (old(cnt) + 1) % TWO32 else old(cnt)
    {
      sleep, reserved := false, false;
      if effCap > 0 && cnt >= effCap && !canceled {
        return true, false;
      }
      if canceled {
        return;
      }
      cnt := Add32(cnt, 1);
      reserved := true;
    }

    method Release() returns (broadcast: bool)
      modifies this
      ensures View() == Released(old(View())) && broadcast == ReleaseWakes(old(View()))
      ensures effCap == old(effCap) && actCap == old(actCap)
      ensures cnt == if old(cnt) > 0 then old(cnt) - 1 else 0
      ensures broadcast <==> old(cnt) > 0 && cnt < effCap
    {
      broadcast := false;
      if cnt > 0 {
        cnt := cnt - 1;
        if cnt < effCap {
          broadcast := true;
        }
      }
    }
  }

  // ---- Callers --------------------------------------------------------------------

  datatype Phase = Outside | Asleep | Woken | Holding | Failed | Closed

  /** The goroutine that waits for a caller's context: Failing has an error in hand, Stored
      has stored it and has yet to broadcast. */
  datatype Watch = NoCancel | Unlaunched | Watching | Failing | Stored | Ended

  datatype Caller = Caller(phase: Phase, watch: Watch, cerr: bool)

  datatype Sys = Sys(g: Gate, callers: seq<Caller>)

  datatype Step =
    | Arrive(cancelable: bool)
    | Enter(t: nat, reported: Option<u32>)
    | Recheck(t: nat)
    | Close(t: nat)
    | Refresh(reported: Option<u32>)
    | CancelFires(t: nat)
    | CancelStores(t: nat)
    | CancelBroadcasts(t: nat)
    | CancelEnds(t: nat)

  function Woke(c: Caller): Caller {
    if c.phase.Asleep? then c.(phase := Woken) else c
  }

  function Broadcast(cs: seq<Caller>, yes: bool): seq<Caller> {
    if yes then seq(|cs|, i requires 0 <= i < |cs| => Woke(cs[i])) else cs
  }

  function Holders(cs: seq<Caller>): set<nat> {
    set i | 0 <= i < |cs| && cs[i].phase.Holding?
  }

  predicate Returned(p: Phase) {
    p.Holding? || p.Failed? || p.Closed?
  }

  /** A caller takes up memory, so fewer than 2^32 can hold a stream at once. */
  predicate Room(s: Sys) {
    |Holders(s.callers)| + 1 < TWO32
  }

  predicate Enabled(s: Sys, e: Step) {
    match e
    case Arrive(_) => true
    case Enter(t, _) => t < |s.callers| && s.callers[t].phase.Outside? && Room(s)
    case Recheck(t) => t < |s.callers| && s.callers[t].phase.Woken? && Room(s)
    case Close(t) => t < |s.callers| && s.callers[t].phase.Holding?
    case Refresh(_) => true
    case CancelFires(t) => t < |s.callers| && s.callers[t].watch.Watching?
    case CancelStores(t) => t < |s.callers| && s.callers[t].watch.Failing?
    case CancelBroadcasts(t) => t < |s.callers| && s.callers[t].watch.Stored?
    case CancelEnds(t) => t < |s.callers| && s.callers[t].watch.Watching? && Returned(s.callers[t].phase)
  }

  /** Under the lock: sleep, give up or take a stream.  The first sleep launches the watch. */
  function Attempt(s: Sys, t: nat): Sys
    requires t < |s.callers|
  {
    var c := s.callers[t];
    if Full(s.g) && !c.cerr then
      s.(callers := s.callers[t := c.(phase := Asleep, watch := if c.watch.Unlaunched? then Watching else c.watch)])
    else if c.cerr then s.(callers := s.callers[t := c.(phase := Failed)])
    else Sys(Taken(s.g), s.callers[t := c.(phase := Holding)])
  }

  function WithRefresh(s: Sys, reported: Option<u32>): Sys {
    Sys(Refreshed(s.g, reported), Broadcast(s.callers, RefreshWakes(s.g, reported)))
  }

  function Next(s: Sys, e: Step): Sys
    requires Enabled(s, e)
  {
    match e
    case Arrive(cancelable) =>
      s.(callers := s.callers + [Caller(Outside, if cancelable then Unlaunched else NoCancel, false)])
    case Enter(t, reported) => Attempt(WithRefresh(s, reported), t)
    case Recheck(t) => Attempt(s, t)
    case Close(t) =>
      Sys(Released(s.g), Broadcast(s.callers[t := s.callers[t].(phase := Closed)], ReleaseWakes(s.g)))
    case Refresh(reported) => WithRefresh(s, reported)
    case CancelFires(t) => s.(callers := s.callers[t := s.callers[t].(watch := Failing)])
    case CancelStores(t) => s.(callers := s.callers[t := s.callers[t].(watch := Stored, cerr := true)])
    case CancelBroadcasts(t) => s.(callers := Broadcast(s.callers[t := s.callers[t].(watch := Ended)], true))
    case CancelEnds(t) => s.(callers := s.callers[t := s.callers[t].(watch := Ended)])
  }

  // ---- What every step keeps --------------------------------------------------------

  /** A sleeper still has to wait, or the broadcast of its cancellation is still to come. */
  predicate RightlyAsleep(g: Gate, c: Caller) {
    c.phase.Asleep? ==> Full(g) && (c.cerr ==> c.watch.Stored?)
  }

  predicate NoLostWakeup(s: Sys) {
    forall t :: 0 <= t < |s.callers| ==> RightlyAsleep(s.g, s.callers[t])
  }

  predicate CountExact(s: Sys) {
    |Holders(s.callers)| == s.g.cnt
  }

  predicate Inv(s: Sys) {
    NoLostWakeup(s) && CountExact(s) && s.g.effCap <= Max(1, s.g.cfgCap)
  }

  lemma BroadcastKeepsHolders(cs: seq<Caller>, yes: bool)
    ensures Holders(Broadcast(cs, yes)) == Holders(cs) && |Broadcast(cs, yes)| == |cs|
  {}

  lemma RefreshKeeps(s: Sys, reported: Option<u32>)
    requires Inv(s)
    ensures Inv(WithRefresh(s, reported))
  {
    BroadcastKeepsHolders(s.callers, RefreshWakes(s.g, reported));
    var s' := WithRefresh(s, reported);
    forall t | 0 <= t < |s'.callers| ensures RightlyAsleep(s'.g, s'.callers[t]) {
      assert RightlyAsleep(s.g, s.callers[t]);
    }
  }

  lemma AttemptKeeps(s: Sys, t: nat)
    requires Inv(s) && t < |s.callers| && (s.callers[t].phase.Outside? || s.callers[t].phase.Woken?) && Room(s)
    ensures Inv(Attempt(s, t))
  {
    var s' := Attempt(s, t);
    if s'.callers[t].phase.Holding? {
      assert Holders(s'.callers) == Holders(s.callers) + {t};
    } else {
      assert Holders(s'.callers) == Holders(s.callers);
    }
    forall u | 0 <= u < |s'.callers| ensures RightlyAsleep(s'.g, s'.callers[u]) {
      assert RightlyAsleep(s.g, s.callers[u]);
    }
  }

  lemma CloseKeeps(s: Sys, t: nat)
    requires Inv(s) && Enabled(s, Close(t))
    ensures Inv(Next(s, Close(t)))
  {
    var s' := Next(s, Close(t));
    var cs := s.callers[t := s.callers[t].(phase := Closed)];
    BroadcastKeepsHolders(cs, ReleaseWakes(s.g));
    assert Holders(cs) == Holders(s.callers) - {t};
    assert t in Holders(s.callers);
    forall u | 0 <= u < |s'.callers| ensures RightlyAsleep(s'.g, s'.callers[u]) {
      assert RightlyAsleep(s.g, s.callers[u]);
    }
  }

  lemma CancelKeeps(s: Sys, e: Step)
    requires Inv(s) && Enabled(s, e) && (e.CancelFires? || e.CancelStores? || e.CancelEnds? || e.CancelBroadcasts?)
    ensures Inv(Next(s, e))
  {
    var s' := Next(s, e);
    var cs := s.callers[e.t := s'.callers[e.t]];
    if e.CancelBroadcasts? {
      BroadcastKeepsHolders(s.callers[e.t := s.callers[e.t].(watch := Ended)], true);
    }
    assert Holders(s'.callers) == Holders(s.callers);
    forall u | 0 <= u < |s'.callers| ensures RightlyAsleep(s'.g, s'.callers[u]) {
      assert RightlyAsleep(s.g, s.callers[u]);
    }
  }

  lemma Keeps(s: Sys, e: Step)
    requires Inv(s) && Enabled(s, e)
    ensures Inv(Next(s, e))
  {
    match e
    case Arrive(_) =>
      assert Holders(Next(s, e).callers) == Holders(s.callers);
      forall u | 0 <= u < |s.callers| ensures RightlyAsleep(s.g, s.callers[u]) {
      }
    case Enter(t, reported) =>
      RefreshKeeps(s, reported);
      BroadcastKeepsHolders(s.callers, RefreshWakes(s.g, reported));
      AttemptKeeps(WithRefresh(s, reported), t);
    case Recheck(t) => AttemptKeeps(s, t);
    case Close(t) => CloseKeeps(s, t);
    case Refresh(reported) => RefreshKeeps(s, reported);
    case _ => CancelKeeps(s, e);
  }

  // ---- Runs ---------------------------------------------------------------------

  predicate ValidRun(s: Sys, es: seq<Step>)
    decreases |es|
  {
    es != [] ==> Enabled(s, es[0]) && ValidRun(Next(s, es[0]), es[1..])
  }

  function Final(s: Sys, es: seq<Step>): Sys
    requires ValidRun(s, es)
    decreases |es|
  {
    if es == [] then s else Final(Next(s, es[0]), es[1..])
  }

  function Initial(cfgCap: u32): Sys {
    Sys(Gate(cfgCap, 0, 1, 0), [])
  }

  lemma {:induction false} RunKeeps(s: Sys, es: seq<Step>)
    requires Inv(s) && ValidRun(s, es)
    ensures Inv(Final(s, es))
    decreases |es|
  {
    if es != [] {
      Keeps(s, es[0]);
      RunKeeps(Next(s, es[0]), es[1..]);
    }
  }

  /** In every run, whoever sleeps still has to: capacity is positive and used up, and a
      cancellation already stored has yet to broadcast.  The count is exactly the number of
      streams reserved and not yet closed. */
  lemma NoWakeupIsLost(cfgCap: u32, es: seq<Step>)
    requires ValidRun(Initial(cfgCap), es)
    ensures NoLostWakeup(Final(Initial(cfgCap), es)) && CountExact(Final(Initial(cfgCap), es))
  {
    assert Holders([]) == {};
    RunKeeps(Initial(cfgCap), es);
  }

  /** A sleeper is never alone: somebody holds a stream, and closing it wakes the sleepers
      as soon as there is room. */
  lemma SleeperHasHolder(s: Sys, t: nat)
    requires Inv(s) && t < |s.callers| && s.callers[t].phase.Asleep?
    ensures exists h :: 0 <= h < |s.callers| && s.callers[h].phase.Holding?
    ensures forall h :: Enabled(s, Close(h)) && s.g.cnt == s.g.effCap ==> Next(s, Close(h)).callers[t].phase.Woken?
  {
    assert RightlyAsleep(s.g, s.callers[t]);
    assert Holders(s.callers) != {};
    var h :| h in Holders(s.callers);
  }

  /** A caller that gives up leaves the count alone; so does every step but taking and closing. */
  lemma GivingUpKeepsCount(s: Sys, e: Step)
    requires Inv(s) && Enabled(s, e)
    ensures var s' := Next(s, e);
            && (s'.g.cnt > s.g.cnt ==> (e.Enter? || e.Recheck?) && s'.callers[e.t].phase.Holding?)
            && (s'.g.cnt < s.g.cnt ==> e.Close?)
            && ((e.Enter? || e.Recheck?) && s'.callers[e.t].phase.Failed? ==> s'.g.cnt == s.g.cnt)
  {
    if e.Enter? {
      BroadcastKeepsHolders(s.callers, RefreshWakes(s.g, e.reported));
    }
  }

  /** The capacity was positive in every state of the run. */
  predicate NeverZero(s: Sys, es: seq<Step>)
    requires ValidRun(s, es)
    decreases |es|
  {
    s.g.effCap > 0 && (es != [] ==> NeverZero(Next(s, es[0]), es[1..]))
  }

  lemma BoundStep(s: Sys, e: Step)
    requires Inv(s) && Enabled(s, e) && s.g.cnt <= Max(1, s.g.cfgCap) && Next(s, e).g.effCap > 0
    ensures Next(s, e).g.cnt <= Max(1, s.g.cfgCap) && Next(s, e).g.cfgCap == s.g.cfgCap
  {
    if e.Enter? {
      RefreshKeeps(s, e.reported);
    }
  }

  lemma {:induction false} BoundRun(s: Sys, es: seq<Step>)
    requires Inv(s) && s.g.cnt <= Max(1, s.g.cfgCap) && ValidRun(s, es) && NeverZero(s, es)
    ensures Final(s, es).g.cnt <= Max(1, s.g.cfgCap)
    decreases |es|
  {
    if es != [] {
      BoundStep(s, es[0]);
      Keeps(s, es[0]);
      BoundRun(Next(s, es[0]), es[1..]);
    }
  }

  /** While the capacity has never been zero, no more streams are open than configured, or
      one: the concurrency limit of section 5.1.2 of RFC 7540. */
  lemma StreamBound(cfgCap: u32, es: seq<Step>)
    requires ValidRun(Initial(cfgCap), es) && NeverZero(Initial(cfgCap), es)
    ensures |Holders(Final(Initial(cfgCap), es).callers)| <= Max(1, cfgCap)
  {
    assert Holders([]) == {};
    BoundRun(Initial(cfgCap), es);
    RunKeeps(Initial(cfgCap), es);
  }

  /** The effective capacity is the smaller of what the server reports and what is configured;
      without a report it stays. */
  lemma RefreshExact(g: Gate, reported: Option<u32>)
    ensures var h := Refreshed(g, reported);
            && h.cfgCap == g.cfgCap && h.cnt == g.cnt
            && (reported.None? ==> h == g)
            && (reported.Some? ==>
                  && h.actCap == reported.value && h.effCap <= reported.value && h.effCap <= g.cfgCap
                  && (h.effCap == reported.value || h.effCap == g.cfgCap))
  {}

  /** A caller is let through at once exactly when fewer streams are held than the server
      reports and the configuration allows, or one of these is zero: a zero capacity admits
      everybody.  Without a report that is so for the capacity as it was.  Otherwise it
      sleeps. */
  lemma AdmittedIff(s: Sys, t: nat, reported: Option<u32>)
    requires Inv(s) && Enabled(s, Enter(t, reported)) && !s.callers[t].cerr
    ensures var p := Next(s, Enter(t, reported)).callers[t].phase;
            && (p.Holding? || p.Asleep?)
            && (reported.Some? ==>
                  var v := reported.value;
                  p.Holding? <==> v == 0 || s.g.cfgCap == 0 || (s.g.cnt < v && s.g.cnt < s.g.cfgCap))
            && (reported.None? ==> (p.Holding? <==> s.g.effCap == 0 || s.g.cnt < s.g.effCap))
    ensures var c, c' := s.callers[t], Next(s, Enter(t, reported)).callers[t];
            c'.watch == if c'.phase.Asleep? && c.watch.Unlaunched? then Watching else c.watch
  {}

  /** A caller whose context ends while it sleeps gives up without a stream: its watch stores the
      error and wakes it, and it finds that when it looks again. */
  lemma CancelledGivesUp(s: Sys, t: nat)
    requires Inv(s) && t < |s.callers| && s.callers[t].phase.Asleep? && s.callers[t].watch.Watching? && Room(s)
    ensures var es := [CancelFires(t), CancelStores(t), CancelBroadcasts(t), Recheck(t)];
            && ValidRun(s, es)
            && t < |Final(s, es).callers| && Final(s, es).callers[t].phase.Failed? && Final(s, es).g == s.g
  {
    var s1 := Next(s, CancelFires(t));
    assert Holders(s1.callers) == Holders(s.callers);
    var s2 := Next(s1, CancelStores(t));
    assert Holders(s2.callers) == Holders(s1.callers);
    var s3 := Next(s2, CancelBroadcasts(t));
    BroadcastKeepsHolders(s2.callers[t := s2.callers[t].(watch := Ended)], true);
    assert Holders(s2.callers[t := s2.callers[t].(watch := Ended)]) == Holders(s2.callers);
    RunTwo(s2, CancelBroadcasts(t), Recheck(t));
    var es := [CancelFires(t), CancelStores(t), CancelBroadcasts(t), Recheck(t)];
    assert es[1..][1..] == [CancelBroadcasts(t), Recheck(t)];
    RunStep(s1, es[1..]);
    RunStep(s, es);
  }

  /** A caller that wakes looks again: it gives up exactly if its cancellation was stored, and
      otherwise takes a stream exactly if there is one by then. */
  lemma RecheckIff(s: Sys, t: nat)
    requires Inv(s) && Enabled(s, Recheck(t))
    ensures var s' := Next(s, Recheck(t));
            var p := s'.callers[t].phase;
            && (p.Failed? <==> s.callers[t].cerr)
            && (p.Holding? <==> !s.callers[t].cerr && (s.g.effCap == 0 || s.g.cnt < s.g.effCap))
            && (p.Failed? || p.Holding? || p.Asleep?) && s'.g.effCap == s.g.effCap
  {}

  /** A step passes the configured limit exactly when the limit is used up and a caller that is
      not cancelled enters, or checks again, while the capacity it then finds is zero. */
  lemma BoundBreaksIff(s: Sys, e: Step)
    requires Inv(s) && Enabled(s, e) && s.g.cnt <= Max(1, s.g.cfgCap)
    ensures var s' := Next(s, e);
            s'.g.cnt > Max(1, s.g.cfgCap) <==>
              && (e.Enter? || e.Recheck?) && !s.callers[e.t].cerr
              && s'.g.effCap == 0 && s.g.cnt == Max(1, s.g.cfgCap)
  {
    if e.Enter? {
      RefreshKeeps(s, e.reported);
      assert WithRefresh(s, e.reported).callers[e.t] == s.callers[e.t];
    }
  }

  /** So the bound needs its condition: with a maximum of one stream, a reported capacity of
      zero lets two callers in. */
  lemma ZeroCapacityBreaksBound()
    ensures var es := [Arrive(false), Arrive(false), Refresh(Some(0)), Enter(0, None), Enter(1, None)];
            ValidRun(Initial(1), es) && |Holders(Final(Initial(1), es).callers)| == 2
  {
    var c := Caller(Outside, NoCancel, false);
    var h := Caller(Holding, NoCancel, false);
    var zero := Gate(1, 0, 0, 0);
    var s3 := Sys(zero, [c, c]);
    var s4 := Sys(zero.(cnt := 1), [h, c]);
    var s5 := Sys(zero.(cnt := 2), [h, h]);
    assert Holders([c, c]) == {} && Holders([h, c]) == {0} && Holders([h, h]) == {0, 1};
    assert Next(s4, Enter(1, None)) == s5;
    assert Next(s3, Enter(0, None)) == s4;
    RunTwo(s3, Enter(0, None), Enter(1, None));
    var s1 := Sys(Gate(1, 0, 1, 0), [c]);
    var s2 := Sys(Gate(1, 0, 1, 0), [c, c]);
    assert Next(Initial(1), Arrive(false)) == s1 && Next(s1, Arrive(false)) == s2;
    assert Next(s2, Refresh(Some(0))) == s3;
    var es := [Arrive(false), Arrive(false), Refresh(Some(0)), Enter(0, None), Enter(1, None)];
    assert es[1..][1..][1..] == [Enter(0, None), Enter(1, None)];
    RunStep(s2, es[1..][1..]);
    RunStep(s1, es[1..]);
    RunStep(Initial(1), es);
  }

  lemma RunStep(s: Sys, es: seq<Step>)
    requires es != [] && Enabled(s, es[0]) && ValidRun(Next(s, es[0]), es[1..])
    ensures ValidRun(s, es) && Final(s, es) == Final(Next(s, es[0]), es[1..])
  {}

  lemma RunTwo(s: Sys, e1: Step, e2: Step)
    requires Enabled(s, e1) && Enabled(Next(s, e1), e2)
    ensures ValidRun(s, [e1, e2]) && Final(s, [e1, e2]) == Next(Next(s, e1), e2)
  {
    var s2 := Next(Next(s, e1), e2);
    assert ValidRun(s2, []) && Final(s2, []) == s2;
    assert [e1, e2][1..] == [e2] && [e2][1..] == [];
    RunStep(Next(s, e1), [e2]);
    RunStep(s, [e1, e2]);
  }
}
