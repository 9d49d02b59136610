/** The governor together with its launcher, worker and round-trip goroutines:
    apns2/dispatch.go and apns2/streamer.go as one step system in which every
    goroutine moves on its own. */
module Fleet {
  import opened Words
  import opened Governor
  import opened RetryPath

  // ---- State -------------------------------------------------------------

  /** A launcher goroutine: dialing, then offering its completion to the governor
      until that is received, or until the governor closes its control channel. */
  datatype Launch = Dialing | Ready(ok: bool) | Seen(ok: bool) | Aborted(ok: bool)

  /** A worker goroutine.  Busy carries the attempt its own goroutine is executing;
      early marks an exit that was received before its launcher's completion. */
  datatype Work =
    | Unborn
    | Idle
    | Busy(t: nat)
    | Draining
    | AtExit(didQuit: bool, inClosed: bool)
    | Reported(didQuit: bool, inClosed: bool, early: bool)
    | Vanished

  /** used: a request was taken; condemned: a round trip judged the connection unusable;
      cap: the effective capacity of streams, where 0 admits everybody. */
  datatype Conn = Conn(launch: Launch, work: Work, used: bool, condemned: bool, cap: nat)

  datatype Fate = Delivered | Discarded | CutOff | Requeued

  /** Where one attempt at a request is.  An inline call runs on the worker's own
      goroutine, the other calls run on a round trip's goroutine. */
  datatype Stage =
    | Exec
    | Flight
    | Retrying
    | Calling(inline: bool, blocked: bool, usable: bool)
    | Called(usable: bool, result: Fate)
    | Ended(fate: Fate)

  datatype Attempt = Attempt(w: Id, stage: Stage, calls: nat)

  /** path: requests to be retried, each by the number of its attempt; killed: the control
      channel shared by governor and forwarders is closed; hard: the governor has seen that. */
  datatype Sys = Sys(
    g: Gov,
    conns: seq<Conn>,
    attempts: seq<Attempt>,
    path: Path,
    outClosed: bool,
    killed: bool,
    hard: bool)

  /** Who receives the non-blocking quit signal a round trip sends on the worker's control channel. */
  datatype Receiver = MainLoop | ExitSelect | BlockedCall(t: nat) | Nobody

  datatype Step =
    | Receive(e: Event)
    | CloseOut
    | Kill
    | Forward(m: Move)
    | Requeue
    | DialOk(i: Id)
    | DialFail(i: Id)
    | LauncherAborts(i: Id)
    | Take(i: Id)
    | SeeClosedInput(i: Id)
    | Drained(i: Id)
    | SeeClosedControl(i: Id)
    | AbandonExit(i: Id)
    | Refresh(i: Id, cap: nat)
    | FailInline(t: nat)
    | Dispatch(t: nat)
    | Retry(t: nat)
    | RetryTaken(t: nat)
    | Respond(t: nat, usable: bool)
    | Deliver(t: nat)
    | Discard(t: nat)
    | Block(t: nat)
    | CutByClose(t: nat)
    | Finish(t: nat)
    | Signal(t: nat, to: Receiver)

  // ---- Reading the state ---------------------------------------------------

  const Fresh := Conn(Dialing, Unborn, false, false, 1)

  predicate Started(l: Launch) {
    !l.Dialing? && l.ok
  }

  predicate OnWorker(s: Stage) {
    s.Exec? || (s.Calling? && s.inline)
  }

  /** Counted by the worker's wait group, and keeping its stream until it ends. */
  predicate InWaitGroup(s: Stage) {
    s.Flight? || s.Retrying? || (s.Calling? && !s.inline) || s.Called?
  }

  /** The attempts that hold a stream of connection i. */
  function Holders(s: Sys, i: Id): set<nat> {
    set t | 0 <= t < |s.attempts| && s.attempts[t].w == i && InWaitGroup(s.attempts[t].stage)
  }

  /** A reservation goes through: see Reservation.Full and Reservation.NoWakeupIsLost. */
  predicate HasStream(s: Sys, i: Id)
    requires i < |s.conns|
  {
    s.conns[i].cap == 0 || |Holders(s, i)| < s.conns[i].cap
  }

  predicate BlockedCalling(s: Stage) {
    s.Calling? && s.blocked
  }

  /** A governor that stopped closed the control channels of the connections it still knew. */
  predicate WorkerControlClosed(s: Sys, i: Id) {
    s.g.stopped && i in s.g.streamers
  }

  predicate LauncherControlClosed(s: Sys, i: Id) {
    s.g.stopped && i in s.g.launchers
  }

  predicate WaitGroupEmpty(s: Sys, i: Id) {
    forall t :: 0 <= t < |s.attempts| && s.attempts[t].w == i ==> !InWaitGroup(s.attempts[t].stage)
  }

  // ---- Transitions ---------------------------------------------------------

  predicate ValidAttempt(s: Sys, t: nat) {
    t < |s.attempts| && s.attempts[t].w < |s.conns|
  }

  predicate EnabledGov(s: Sys, e: Event) {
    && !s.g.stopped && Draws(s.g, e)
    && match e
       case LauncherDone(l, started, _, _) => l < |s.conns| && s.conns[l].launch == Ready(started)
       case WorkerDone(w, q, c) => w < |s.conns| && s.conns[w].work == AtExit(q, c)
       // a streamer occupies memory, so their number fits the 32-bit count taken of it
       case Poll(_, _) => |s.g.streamers| < TWO32
       case HardStop => s.killed
  }

  predicate EnabledSignal(s: Sys, t: nat, to: Receiver)
    requires ValidAttempt(s, t)
  {
    var i := s.attempts[t].w;
    && s.attempts[t].stage.Called? && !s.attempts[t].stage.usable && !WorkerControlClosed(s, i)
    && match to
       case MainLoop => s.conns[i].work.Idle?
       case ExitSelect => s.conns[i].work.AtExit?
       case BlockedCall(u) => ValidAttempt(s, u) && s.attempts[u].w == i && BlockedCalling(s.attempts[u].stage)
       // a worker on its way to its select statement receives nothing yet
       case Nobody => true
  }

  predicate EnabledConn(s: Sys, e: Step) {
    match e
    case DialOk(i) => i < |s.conns| && s.conns[i].launch.Dialing?
    case DialFail(i) => i < |s.conns| && s.conns[i].launch.Dialing?
    case LauncherAborts(i) => i < |s.conns| && s.conns[i].launch.Ready? && LauncherControlClosed(s, i)
    case Take(i) => i < |s.conns| && s.conns[i].work.Idle? && !s.outClosed
    case SeeClosedInput(i) => i < |s.conns| && s.conns[i].work.Idle? && s.outClosed
    case Drained(i) => i < |s.conns| && s.conns[i].work.Draining? && WaitGroupEmpty(s, i)
    case SeeClosedControl(i) => i < |s.conns| && s.conns[i].work.Idle? && WorkerControlClosed(s, i)
    case AbandonExit(i) => i < |s.conns| && s.conns[i].work.AtExit? && WorkerControlClosed(s, i)
    case Refresh(i, _) => i < |s.conns|
    case _ => false
  }

  predicate EnabledAttempt(s: Sys, e: Step) {
    match e
    case FailInline(t) => ValidAttempt(s, t) && s.attempts[t].stage.Exec?
    case Dispatch(t) => ValidAttempt(s, t) && s.attempts[t].stage.Exec? && HasStream(s, s.attempts[t].w)
    case Retry(t) => ValidAttempt(s, t) && s.attempts[t].stage.Flight?
    case RetryTaken(t) => ValidAttempt(s, t) && s.attempts[t].stage.Retrying? && Accepts(s.path)
    case Respond(t, _) => ValidAttempt(s, t) && s.attempts[t].stage.Flight?
    case Deliver(t) => ValidAttempt(s, t) && s.attempts[t].stage.Calling?
    case Discard(t) => ValidAttempt(s, t) && s.attempts[t].stage.Calling? && !s.attempts[t].stage.blocked
    case Block(t) => ValidAttempt(s, t) && s.attempts[t].stage.Calling? && !s.attempts[t].stage.blocked
    case CutByClose(t) =>
      ValidAttempt(s, t) && BlockedCalling(s.attempts[t].stage) && WorkerControlClosed(s, s.attempts[t].w)
    case Finish(t) => ValidAttempt(s, t) && s.attempts[t].stage.Called? && s.attempts[t].stage.usable
    case Signal(t, to) => ValidAttempt(s, t) && EnabledSignal(s, t, to)
    case _ => false
  }

  /** The submitter takes retries only while it runs, and it has left before the input is closed. */
  predicate Enabled(s: Sys, e: Step) {
    match e
    case Receive(ev) => EnabledGov(s, ev)
    case CloseOut => !s.outClosed
    case Kill => true
    case Forward(m) => CanMove(s.path, m, s.killed)
    case Requeue => s.path.feeder.Holds? && !s.outClosed
    case _ => EnabledConn(s, e) || EnabledAttempt(s, e)
  }

  function WithWork(s: Sys, i: Id, w: Work): Sys
    requires i < |s.conns|
  {
    s.(conns := s.conns[i := s.conns[i].(work := w)])
  }

  function WithLaunch(s: Sys, i: Id, l: Launch): Sys
    requires i < |s.conns|
  {
    s.(conns := s.conns[i := s.conns[i].(launch := l)])
  }

  function WithStage(s: Sys, t: nat, stage: Stage): Sys
    requires t < |s.attempts|
  {
    s.(attempts := s.attempts[t := s.attempts[t].(stage := stage)])
  }

  /** Entering callBack. */
  function Called(s: Sys, t: nat, inline: bool, usable: bool): Sys
    requires t < |s.attempts|
  {
    s.(attempts := s.attempts[t := Attempt(s.attempts[t].w, Calling(inline, false, usable), s.attempts[t].calls + 1)])
  }

  /** Leaving callBack: an inline call frees the worker, a round trip goes on to judge the connection. */
  function CallReturns(s: Sys, t: nat, fate: Fate): Sys
    requires ValidAttempt(s, t) && s.attempts[t].stage.Calling?
  {
    var st := s.attempts[t].stage;
    if st.inline then WithWork(WithStage(s, t, Ended(fate)), s.attempts[t].w, Idle)
    else WithStage(s, t, Stage.Called(st.usable, fate))
  }

  function Extended(conns: seq<Conn>, n: nat): seq<Conn> {
    conns + seq(n, _ => Fresh)
  }

  /** The governor handles one message; each launch starts a launcher goroutine. */
  function NextGov(cfg: Config, s: Sys, e: Event): Sys
    requires EnabledGov(s, e)
  {
    var g := Handled(cfg, s.g, e);
    var conns := match e
      case LauncherDone(l, started, _, _) => s.conns[l := s.conns[l].(launch := Seen(started))]
      case WorkerDone(w, q, c) => s.conns[w := s.conns[w].(work := Reported(q, c, !s.conns[w].launch.Seen?))]
      case Poll(_, _) => s.conns
      case HardStop => s.conns;
    s.(g := g, conns := Extended(conns, g.nextId - s.g.nextId), hard := s.hard || e.HardStop?)
  }

  function NextSignal(s: Sys, t: nat, to: Receiver): Sys
    requires ValidAttempt(s, t) && EnabledSignal(s, t, to)
  {
    var i := s.attempts[t].w;
    var s1 := WithStage(s, t, Ended(s.attempts[t].stage.result));
    match to
    case MainLoop => WithWork(s1, i, AtExit(true, false))
    case ExitSelect => WithWork(s1, i, Vanished)
    case BlockedCall(u) => CallReturns(s1, u, CutOff)
    case Nobody => s1
  }

  function NextConn(s: Sys, e: Step): Sys
    requires EnabledConn(s, e)
  {
    match e
    case DialOk(i) => s.(conns := s.conns[i := s.conns[i].(launch := Ready(true), work := Idle)])
    case DialFail(i) => WithLaunch(s, i, Ready(false))
    case LauncherAborts(i) => WithLaunch(s, i, Aborted(s.conns[i].launch.ok))
    case Take(i) =>
      s.(attempts := s.attempts + [Attempt(i, Exec, 0)],
         conns := s.conns[i := s.conns[i].(work := Busy(|s.attempts|), used := true)])
    case SeeClosedInput(i) => WithWork(s, i, Draining)
    case Drained(i) => WithWork(s, i, AtExit(false, true))
    case SeeClosedControl(i) => WithWork(s, i, AtExit(false, false))
    case AbandonExit(i) => WithWork(s, i, Vanished)
    case Refresh(i, cap) => s.(conns := s.conns[i := s.conns[i].(cap := cap)])
  }

  function NextAttempt(s: Sys, e: Step): Sys
    requires EnabledAttempt(s, e)
  {
    match e
    case FailInline(t) => Called(s, t, true, true)
    case Dispatch(t) => WithWork(WithStage(s, t, Flight), s.attempts[t].w, Idle)
    case Retry(t) => WithStage(s, t, Retrying)
    case RetryTaken(t) => WithStage(s, t, Ended(Requeued)).(path := Offered(s.path, t))
    case Respond(t, usable) =>
      var i := s.attempts[t].w;
      var s1 := Called(s, t, false, usable);
      s1.(conns := s.conns[i := s.conns[i].(condemned := s.conns[i].condemned || !usable)])
    case Deliver(t) => CallReturns(s, t, Delivered)
    case Discard(t) => CallReturns(s, t, Discarded)
    case Block(t) => WithStage(s, t, s.attempts[t].stage.(blocked := true))
    case CutByClose(t) => CallReturns(s, t, CutOff)
    case Finish(t) => WithStage(s, t, Ended(s.attempts[t].stage.result))
    case Signal(t, to) => NextSignal(s, t, to)
  }

  function Next(cfg: Config, s: Sys, e: Step): Sys
    requires Enabled(s, e)
  {
    match e
    case Receive(ev) => NextGov(cfg, s, ev)
    case CloseOut => s.(outClosed := true)
    case Kill => s.(killed := true)
    case Forward(m) => s.(path := Moved(s.path, m))
    case Requeue => s.(path := HandedOver(s.path))
    case _ => if EnabledConn(s, e) then NextConn(s, e) else NextAttempt(s, e)
  }
}
