/** The way of a request through submitter, worker, round trip and retry forwarders:
    apns2/client.go, apns2/streamer.go and apns2/dispatch.go.  Every place a request can be
    in is kept as what it is in the source: a goroutine's hands, or a buffered channel. */
module Retries {
  import opened Words
  import opened Options
  import opened RetryPath

  // ---- What a round trip decides -------------------------------------------------------

  /** The results of submit: no response (from the request itself or from the transport), a
      response that could not be decoded, or a decoded one. */
  datatype Outcome = NoResponse(requestError: bool) | Undecodable | Answer(status: nat, reason: string)

  const REASON_IDLE_TIMEOUT := "IdleTimeout"
  const REASON_BAD_CERTIFICATE := "BadCertificate"
  const REASON_BAD_CERTIFICATE_ENVIRONMENT := "BadCertificateEnvironment"

  function HasError(o: Outcome): bool {
    !o.Answer?
  }

  function HasResponse(o: Outcome): bool {
    !o.NoResponse?
  }

  /** RetryEval is absent, or gives its opinion. */
  predicate IsRetriable(o: Outcome, eval: Option<bool>) {
    if !HasResponse(o) && HasError(o) then false
    else if eval.Some? then eval.value
    else false
  }

  predicate Retried(o: Outcome, attempts: nat, maxRetries: u32, eval: Option<bool>) {
    HasError(o) && attempts % TWO32 < maxRetries && IsRetriable(o, eval)
  }

  /** The status of an undecodable response is never set. */
  predicate IsConnUsable(o: Outcome) {
    if !HasResponse(o) && HasError(o) then o.requestError
    else
      var status := if o.Answer? then o.status else 0;
      if status == 503 || status == 405 then true
      else if status == 400 then o.reason != REASON_IDLE_TIMEOUT
      else if status == 403 then
        o.reason != REASON_BAD_CERTIFICATE && o.reason != REASON_BAD_CERTIFICATE_ENVIRONMENT
      else true
  }

  /** Only a response that could not be decoded is ever retried; a transport failure costs
      the connection and is not. */
  lemma RetriedIff(o: Outcome, attempts: nat, maxRetries: u32, eval: Option<bool>)
    requires attempts < TWO32
    ensures Retried(o, attempts, maxRetries, eval) <==> o.Undecodable? && attempts < maxRetries && eval == Some(true)
    ensures Retried(o, attempts, maxRetries, eval) ==> IsConnUsable(o)
    ensures o == NoResponse(false) ==> !IsConnUsable(o) && !Retried(o, attempts, maxRetries, eval)
  {}

  /** Which answers leave a connection usable. */
  lemma UsableIff(o: Outcome)
    ensures IsConnUsable(o) <==>
              && o != NoResponse(false)
              && !(o.Answer? && o.status == 400 && o.reason == "IdleTimeout")
              && !(o.Answer? && o.status == 403 &&
                   (o.reason == "BadCertificate" || o.reason == "BadCertificateEnvironment"))
  {}

  // ---- The pipeline ------------------------------------------------------------------

  /** attempts is the request's own counter; sends and calls count round trips and callBacks. */
  datatype Log = Log(attempts: nat, sends: nat, calls: nat)

  /** Left: the submitter's loop has ended. */
  datatype Submitter = Ready | Sending(r: Rid) | Left

  /** interrupt and closed are the submitter's and the governor's control channels. */
  datatype Pipe = Pipe(
    log: map<Rid, Log>,
    pushing: multiset<Rid>,
    submitter: Submitter,
    working: multiset<Rid>,
    flights: multiset<Rid>,
    retrying: multiset<Rid>,
    path: Path,
    calling: multiset<Rid>,
    settled: multiset<Rid>,
    dropped: multiset<Rid>,
    interrupt: bool,
    closed: bool)

  datatype Step =
    | Stop
    | Kill
    | SubmitterLeaves
    | Push(r: Rid)
    | QueueTake(r: Rid)
    | RetryTake
    | PushSent(r: Rid)
    | PushInterrupted(r: Rid)
    | SubmitSent
    | SubmitInterrupted
    | FailInline(r: Rid)
    | Dispatch(r: Rid)
    | Retry(r: Rid)
    | RetrySent(r: Rid)
    | Forward(m: Move)
    | Respond(r: Rid)
    | Settle(r: Rid)

  predicate Enabled(p: Pipe, max: u32, e: Step) {
    match e
    case Stop => true
    case Kill => true
    case SubmitterLeaves => p.submitter.Ready?
    case Push(r) => r !in p.log
    case QueueTake(r) => r !in p.log && p.submitter.Ready?
    case RetryTake => p.submitter.Ready? && p.path.feeder.Holds?
    case PushSent(r) => r in p.pushing
    case PushInterrupted(r) => r in p.pushing && p.interrupt
    case SubmitSent => p.submitter.Sending?
    case SubmitInterrupted => p.submitter.Sending? && p.interrupt
    case FailInline(r) => r in p.working && r in p.log
    case Dispatch(r) => r in p.working && r in p.log
    case Retry(r) => r in p.flights && r in p.log && p.log[r].attempts % TWO32 < max
    case RetrySent(r) => r in p.retrying && Accepts(p.path)
    case Forward(m) => CanMove(p.path, m, p.closed)
    case Respond(r) => r in p.flights && r in p.log
    case Settle(r) => r in p.calling
  }

  function Next(p: Pipe, max: u32, e: Step): Pipe
    requires Enabled(p, max, e)
  {
    match e
    case Stop => p.(interrupt := true)
    case Kill => p.(interrupt := true, closed := true)
    case SubmitterLeaves => p.(submitter := Left)
    case Push(r) => p.(log := p.log[r := Log(0, 0, 0)], pushing := p.pushing + multiset{r})
    case QueueTake(r) => p.(log := p.log[r := Log(0, 0, 0)], submitter := Sending(r))
    case RetryTake => p.(submitter := Sending(p.path.feeder.r), path := HandedOver(p.path))
    case PushSent(r) => p.(pushing := p.pushing - multiset{r}, working := p.working + multiset{r})
    case PushInterrupted(r) => p.(pushing := p.pushing - multiset{r}, dropped := p.dropped + multiset{r})
    case SubmitSent => p.(submitter := Ready, working := p.working + multiset{p.submitter.r})
    case SubmitInterrupted => p.(submitter := Ready, dropped := p.dropped + multiset{p.submitter.r})
    case FailInline(r) =>
      p.(working := p.working - multiset{r}, calling := p.calling + multiset{r},
         log := p.log[r := p.log[r].(calls := p.log[r].calls + 1)])
    case Dispatch(r) =>
      p.(working := p.working - multiset{r}, flights := p.flights + multiset{r},
         log := p.log[r := p.log[r].(sends := p.log[r].sends + 1)])
    case Retry(r) =>
      p.(flights := p.flights - multiset{r}, retrying := p.retrying + multiset{r},
         log := p.log[r := p.log[r].(attempts := p.log[r].attempts + 1)])
    case RetrySent(r) => p.(retrying := p.retrying - multiset{r}, path := Offered(p.path, r))
    case Forward(m) =>
      p.(path := Moved(p.path, m),
         dropped := if m.EndFeeder? && p.path.feeder.Holds? then p.dropped + multiset{p.path.feeder.r} else p.dropped)
    case Respond(r) =>
      p.(flights := p.flights - multiset{r}, calling := p.calling + multiset{r},
         log := p.log[r := p.log[r].(calls := p.log[r].calls + 1)])
    case Settle(r) => p.(calling := p.calling - multiset{r}, settled := p.settled + multiset{r})
  }

  function Submitting(s: Submitter, r: Rid): nat {
    if s == Sending(r) then 1 else 0
  }

  /** Before this attempt's send. */
  function Before(p: Pipe, r: Rid): nat {
    p.pushing[r] + Submitting(p.submitter, r) + p.working[r] + p.retrying[r] + OnPath(p.path, r)
  }

  function CalledBack(p: Pipe, r: Rid): nat {
    p.calling[r] + p.settled[r]
  }

  /** The number of places request r is in. */
  function Places(p: Pipe, r: Rid): nat {
    Before(p, r) + p.flights[r] + CalledBack(p, r) + p.dropped[r]
  }

  /** A request that entered is in exactly one place, and its log fits that place. */
  predicate Placed(p: Pipe, max: u32, r: Rid) {
    && Places(p, r) == (if r in p.log then 1 else 0)
    && (r in p.log ==>
          var l := p.log[r];
          && l.attempts <= max && l.sends <= l.attempts + 1
          && (Before(p, r) == 1 || p.dropped[r] == 1 ==> l.sends <= l.attempts)
          && l.calls == CalledBack(p, r))
  }

  ghost predicate Inv(p: Pipe, max: u32) {
    PathOk(p.path, p.closed) && forall r :: Placed(p, max, r)
  }

  /** Hand-overs that leave every log alone. */
  predicate HandsOver(e: Step) {
    !e.Push? && !e.QueueTake? && !e.FailInline? && !e.Dispatch? && !e.Retry? && !e.Respond?
  }

  predicate OnTheWayBack(e: Step) {
    e.RetrySent? || e.Forward? || e.RetryTake?
  }

  lemma KeepsForward(p: Pipe, max: u32, m: Move, r: Rid)
    requires Inv(p, max) && Enabled(p, max, Forward(m))
    ensures Placed(Next(p, max, Forward(m)), max, r)
  {
    assert Placed(p, max, r);
    MovedConserves(p.path, m, r);
  }

  lemma KeepsWayBack(p: Pipe, max: u32, e: Step, r: Rid)
    requires Inv(p, max) && Enabled(p, max, e) && (e.RetrySent? || e.RetryTake?)
    ensures Placed(Next(p, max, e), max, r)
  {
    assert Placed(p, max, r);
    if e.RetrySent? {
      OfferedConserves(p.path, e.r, r);
    }
  }

  lemma KeepsHandOver(p: Pipe, max: u32, e: Step, r: Rid)
    requires Inv(p, max) && Enabled(p, max, e) && HandsOver(e) && !OnTheWayBack(e)
    ensures Placed(Next(p, max, e), max, r)
  {
    assert Placed(p, max, r);
  }

  predicate Enters(e: Step) {
    e.Push? || e.QueueTake?
  }

  lemma KeepsEntry(p: Pipe, max: u32, e: Step, r: Rid)
    requires Inv(p, max) && Enabled(p, max, e) && Enters(e)
    ensures Placed(Next(p, max, e), max, r)
  {
    assert Placed(p, max, r);
  }

  lemma KeepsExec(p: Pipe, max: u32, e: Step, r: Rid)
    requires Inv(p, max) && Enabled(p, max, e) && (e.FailInline? || e.Dispatch?)
    ensures Placed(Next(p, max, e), max, r)
  {
    assert Placed(p, max, r);
  }

  lemma KeepsFlight(p: Pipe, max: u32, e: Step, r: Rid)
    requires Inv(p, max) && Enabled(p, max, e) && (e.Retry? || e.Respond?)
    ensures Placed(Next(p, max, e), max, r)
  {
    assert Placed(p, max, r);
  }

  lemma Keeps(p: Pipe, max: u32, e: Step)
    requires Inv(p, max) && Enabled(p, max, e)
    ensures Inv(Next(p, max, e), max)
  {
    if e.Forward? {
      MovedKeeps(p.path, e.m, p.closed);
    }
    forall r ensures Placed(Next(p, max, e), max, r) {
      if e.Forward? {
        KeepsForward(p, max, e.m, r);
      } else if OnTheWayBack(e) {
        KeepsWayBack(p, max, e, r);
      } else if HandsOver(e) {
        KeepsHandOver(p, max, e, r);
      } else if Enters(e) {
        KeepsEntry(p, max, e, r);
      } else if e.FailInline? || e.Dispatch? {
        KeepsExec(p, max, e, r);
      } else {
        KeepsFlight(p, max, e, r);
      }
    }
  }

  predicate ValidRun(p: Pipe, max: u32, es: seq<Step>)
    decreases |es|
  {
    es != [] ==> Enabled(p, max, es[0]) && ValidRun(Next(p, max, es[0]), max, es[1..])
  }

  function Final(p: Pipe, max: u32, es: seq<Step>): Pipe
    requires ValidRun(p, max, es)
    decreases |es|
  {
    if es == [] then p else Final(Next(p, max, es[0]), max, es[1..])
  }

  const Empty := Pipe(map[], multiset{}, Ready, multiset{}, multiset{}, multiset{}, EmptyPath,
                      multiset{}, multiset{}, multiset{}, false, false)

  lemma {:induction false} RunKeeps(p: Pipe, max: u32, es: seq<Step>)
    requires Inv(p, max) && ValidRun(p, max, es)
    ensures Inv(Final(p, max, es), max)
    decreases |es|
  {
    if es != [] {
      Keeps(p, max, es[0]);
      RunKeeps(Next(p, max, es[0]), max, es[1..]);
    }
  }

  /** In every run each request that entered is in exactly one place: on its way, in flight,
      called back, or dropped.  It is called back at most once, and only if it is in no
      other place, and it is sent at most MaxRetries + 1 times. */
  lemma SettledOnce(max: u32, es: seq<Step>, r: Rid)
    requires ValidRun(Empty, max, es)
    ensures var p := Final(Empty, max, es);
            && Places(p, r) == (if r in p.log then 1 else 0)
            && (r in p.log ==>
                  && p.log[r].calls <= 1 && p.log[r].sends <= max + 1
                  && (p.log[r].calls == 1 <==> r in p.calling || r in p.settled))
  {
    RunKeeps(Empty, max, es);
    assert Placed(Final(Empty, max, es), max, r);
  }

  // ---- All attempts can be used ------------------------------------------------------------

  ghost predicate Leads(max: u32, p: Pipe) {
    exists es :: ValidRun(Empty, max, es) && Final(Empty, max, es) == p
  }

  lemma {:induction false} Append(p: Pipe, max: u32, es: seq<Step>, e: Step)
    requires ValidRun(p, max, es) && Enabled(Final(p, max, es), max, e)
    ensures ValidRun(p, max, es + [e]) && Final(p, max, es + [e]) == Next(Final(p, max, es), max, e)
    decreases |es|
  {
    if es == [] {
      assert [] + [e] == [e];
      assert ValidRun(Next(p, max, e), max, []);
    } else {
      assert (es + [e])[1..] == es[1..] + [e];
      Append(Next(p, max, es[0]), max, es[1..], e);
    }
  }

  lemma Then(max: u32, p: Pipe, e: Step, p': Pipe)
    requires Leads(max, p) && Enabled(p, max, e) && Next(p, max, e) == p'
    ensures Leads(max, p')
  {
    var es :| ValidRun(Empty, max, es) && Final(Empty, max, es) == p;
    Append(Empty, max, es, e);
  }

  /** Request 0 has been retried k times and is in flight again. */
  function InFlight(k: nat): Pipe {
    Empty.(log := map[0 := Log(k, k + 1, 0)], flights := multiset{0},
           path := if k == 0 then EmptyPath else Path([], Free, [], Free))
  }

  /** Request 0 is taken and sent. */
  lemma Sends(max: u32, p: Pipe, p': Pipe)
    requires Leads(max, p) && p.submitter == Sending(0) && 0 in p.log
    requires p.working == multiset{} && p.flights == multiset{}
    requires p' == p.(submitter := Ready, flights := multiset{0},
                      log := p.log[0 := p.log[0].(sends := p.log[0].sends + 1)])
    ensures Leads(max, p')
  {
    var p1 := p.(submitter := Ready, working := multiset{0});
    Then(max, p, SubmitSent, p1);
    Then(max, p1, Dispatch(0), p');
  }

  lemma FirstSend(max: u32)
    ensures Leads(max, InFlight(0))
  {
    assert ValidRun(Empty, max, []);
    var p1 := Empty.(log := map[0 := Log(0, 0, 0)], submitter := Sending(0));
    Then(max, Empty, QueueTake(0), p1);
    Sends(max, p1, InFlight(0));
  }

  lemma ThenForward(max: u32, p: Pipe, m: Move, path: Path)
    requires Leads(max, p) && !m.EndFeeder? && CanMove(p.path, m, p.closed) && path == Moved(p.path, m)
    ensures Leads(max, p.(path := path))
  {
    Then(max, p, Forward(m), p.(path := path));
  }

  /** It goes all the way back to the submitter. */
  lemma ComesBack(max: u32, p: Pipe)
    requires Leads(max, p) && (p.path == EmptyPath.(ch := [0]) || p.path == Path([0], Free, [], Free))
    requires p.submitter.Ready?
    ensures Leads(max, p.(path := Path([], Free, [], Free), submitter := Sending(0)))
  {
    var p1 := p.(path := Path([], Holds(0), [], p.path.feeder));
    ThenForward(max, p, Fetch, p1.path);
    var p2 := p.(path := Path([], Free, [0], Free));
    ThenForward(max, p1, Put, p2.path);
    var p3 := p.(path := Path([], Free, [], Holds(0)));
    ThenForward(max, p2, Feed, p3.path);
    Then(max, p3, RetryTake, p.(path := Path([], Free, [], Free), submitter := Sending(0)));
  }

  lemma Offers(max: u32, k: nat, p': Pipe)
    requires Leads(max, InFlight(k)) && k < max
    requires p' == InFlight(k).(log := map[0 := Log(k + 1, k + 1, 0)], flights := multiset{},
                                path := Offered(InFlight(k).path, 0))
    ensures Leads(max, p')
  {
    var p1 := p'.(retrying := multiset{0}, path := InFlight(k).path);
    Then(max, InFlight(k), Retry(0), p1);
    Then(max, p1, RetrySent(0), p');
  }

  lemma SendsAgain(max: u32, k: nat)
    requires Leads(max, InFlight(k)) && k < max
    ensures Leads(max, InFlight(k + 1))
  {
    var p := InFlight(k).(log := map[0 := Log(k + 1, k + 1, 0)], flights := multiset{},
                          path := Offered(InFlight(k).path, 0));
    Offers(max, k, p);
    ComesBack(max, p);
    Sends(max, p.(path := Path([], Free, [], Free), submitter := Sending(0)), InFlight(k + 1));
  }

  lemma {:induction false} ManySends(max: u32, k: nat)
    requires k <= max
    ensures Leads(max, InFlight(k))
  {
    if k == 0 {
      FirstSend(max);
    } else {
      ManySends(max, k - 1);
      SendsAgain(max, k - 1);
    }
  }

  /** The bound on attempts is reached: whatever MaxRetries is, some run sends a request once
      more than that and then settles it with one callBack. */
  lemma AllAttemptsUsed(max: u32)
    ensures exists p :: Leads(max, p) && p.log == map[0 := Log(max, max + 1, 1)] && p.settled == multiset{0}
  {
    ManySends(max, max);
    var p := InFlight(max).(log := map[0 := Log(max, max + 1, 1)], flights := multiset{});
    var p1 := p.(calling := multiset{0});
    Then(max, InFlight(max), Respond(0), p1);
    var p2 := p.(settled := multiset{0});
    Then(max, p1, Settle(0), p2);
  }

  // ---- A round trip blocked on its retry -------------------------------------------------

  /** A send on the retry channel blocks, and nobody is left to make room: either the
      forwarder has ended, or it waits for room in a full buffer whose reader has ended or
      waits for a submitter that has left. */
  predicate Wedged(p: Pipe) {
    && !Accepts(p.path)
    && (p.path.forwarder.Gone? ||
        (p.path.forwarder.Holds? && |p.path.buffer| >= BUF_SIZE &&
         (p.path.feeder.Gone? || (p.path.feeder.Holds? && p.submitter.Left?))))
  }

  lemma WedgedStep(p: Pipe, max: u32, r: Rid, e: Step)
    requires Wedged(p) && r in p.retrying && Enabled(p, max, e)
    ensures Wedged(Next(p, max, e)) && r in Next(p, max, e).retrying
  {}

  lemma {:induction false} StaysWedged(p: Pipe, max: u32, r: Rid, es: seq<Step>)
    requires Wedged(p) && r in p.retrying && ValidRun(p, max, es)
    ensures r in Final(p, max, es).retrying
    decreases |es|
  {
    if es != [] {
      WedgedStep(p, max, r, es[0]);
      StaysWedged(Next(p, max, es[0]), max, r, es[1..]);
    }
  }

  /** What frees the path next. */
  function Unjams(p: Pipe, r: Rid): Step
    requires !Wedged(p)
  {
    if Accepts(p.path) then RetrySent(r)
    else if p.path.forwarder.Free? then Forward(Fetch)
    else if |p.path.buffer| < BUF_SIZE then Forward(Put)
    else if p.path.feeder.Free? then Forward(Feed)
    else if p.submitter.Ready? then RetryTake
    else SubmitSent
  }

  /** How many such steps it takes. */
  function ToGo(p: Pipe): nat {
    if Accepts(p.path) then 0
    else if p.path.forwarder.Free? then 1
    else if |p.path.buffer| < BUF_SIZE then 2
    else if p.path.feeder.Free? then 3
    else if p.submitter.Ready? then 4
    else 5
  }

  lemma UnjamsStep(p: Pipe, max: u32, r: Rid)
    requires Inv(p, max) && !Wedged(p) && r in p.retrying && !Accepts(p.path)
    ensures var e := Unjams(p, r);
            && Enabled(p, max, e)
            && var p' := Next(p, max, e);
            && Inv(p', max) && !Wedged(p') && r in p'.retrying && ToGo(p') < ToGo(p)
  {
    Keeps(p, max, Unjams(p, r));
  }

  lemma {:induction false} CanBeSent(p: Pipe, max: u32, r: Rid) returns (es: seq<Step>)
    requires Inv(p, max) && !Wedged(p) && r in p.retrying
    ensures ValidRun(p, max, es) && r !in Final(p, max, es).retrying
    decreases ToGo(p)
  {
    var e := Unjams(p, r);
    if Accepts(p.path) {
      assert Placed(p, max, r);
      var p' := Next(p, max, e);
      assert ValidRun(p', max, []);
      es := [e];
    } else {
      UnjamsStep(p, max, r);
      var rest := CanBeSent(Next(p, max, e), max, r);
      es := [e] + rest;
      assert es[1..] == rest;
    }
  }

  /** A round trip that waits to send its retry can never do so, in any continuation, exactly
      when the path is wedged. */
  lemma RetryBlocksIff(p: Pipe, max: u32, r: Rid)
    requires Inv(p, max) && r in p.retrying
    ensures Wedged(p) <==> forall es :: ValidRun(p, max, es) ==> r in Final(p, max, es).retrying
  {
    if Wedged(p) {
      forall es | ValidRun(p, max, es) ensures r in Final(p, max, es).retrying {
        StaysWedged(p, max, r, es);
      }
    } else {
      var es := CanBeSent(p, max, r);
    }
  }

  /** Without a Kill that takes a submitter that has left and the path's full load. */
  lemma WedgedAtFullLoad(p: Pipe, max: u32)
    requires Inv(p, max) && !p.closed
    ensures Wedged(p) <==> p.submitter.Left? && Load(p.path) == RETRY_CAPACITY + BUF_SIZE + 2
  {
    JammedIff(p.path);
  }
}
