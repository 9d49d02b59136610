/** The way back of a request that is to be retried, apns2/dispatch.go: the governor's retry
    channel, the forwarder that reads it, the one buffer the forwarder fills, and the
    buffered forwarder that feeds the buffer back to the submitter. */
module RetryPath {

  type Rid = nat

  const RETRY_CAPACITY := 100
  const BUF_SIZE := 500

  /** What a forwarding goroutine is doing; a Gone one has seen its control channel closed. */
  datatype Hand = Unstarted | Free | Holds(r: Rid) | Gone

  datatype Path = Path(ch: seq<Rid>, forwarder: Hand, buffer: seq<Rid>, feeder: Hand)

  const EmptyPath := Path([], Free, [], Unstarted)

  /** The goroutines' own steps; the ends of the path move together with whoever sends or receives there. */
  datatype Move = Fetch | Put | Feed | EndForwarder | EndFeeder

  /** A send on the retry channel does not block. */
  predicate Accepts(p: Path) {
    |p.ch| < RETRY_CAPACITY
  }

  /** A forwarder with a request in hand waits for room in the buffer and nothing else. */
  predicate CanMove(p: Path, m: Move, closed: bool) {
    match m
    case Fetch => p.forwarder.Free? && p.ch != []
    case Put => p.forwarder.Holds? && |p.buffer| < BUF_SIZE
    case Feed => p.feeder.Free? && p.buffer != []
    case EndForwarder => closed && p.forwarder.Free?
    case EndFeeder => closed && (p.feeder.Free? || p.feeder.Holds?)
  }

  /** The first request put into the buffer starts the buffered forwarder. */
  function Moved(p: Path, m: Move): Path
    requires CanMove(p, m, true)
  {
    match m
    case Fetch => p.(ch := p.ch[1..], forwarder := Holds(p.ch[0]))
    case Put =>
      p.(forwarder := Free, buffer := p.buffer + [p.forwarder.r],
         feeder := if p.feeder.Unstarted? then Free else p.feeder)
    case Feed => p.(buffer := p.buffer[1..], feeder := Holds(p.buffer[0]))
    case EndForwarder => p.(forwarder := Gone)
    case EndFeeder => p.(feeder := Gone)
  }

  function Offered(p: Path, r: Rid): Path {
    p.(ch := p.ch + [r])
  }

  /** The submitter takes what the buffered forwarder holds out to it. */
  function HandedOver(p: Path): Path {
    p.(feeder := Free)
  }

  /** Room and starting order; only a closed control channel ends a goroutine. */
  predicate PathOk(p: Path, closed: bool) {
    && |p.ch| <= RETRY_CAPACITY && |p.buffer| <= BUF_SIZE
    && !p.forwarder.Unstarted? && (p.feeder.Unstarted? ==> p.buffer == [])
    && (!closed ==> !p.forwarder.Gone? && !p.feeder.Gone?)
  }

  lemma MovedKeeps(p: Path, m: Move, closed: bool)
    requires PathOk(p, closed) && CanMove(p, m, closed)
    ensures PathOk(Moved(p, m), closed)
  {}

  function InHand(h: Hand, r: Rid): nat {
    if h == Holds(r) then 1 else 0
  }

  /** How often request r is on the path. */
  function OnPath(p: Path, r: Rid): nat {
    multiset(p.ch)[r] + InHand(p.forwarder, r) + multiset(p.buffer)[r] + InHand(p.feeder, r)
  }

  lemma Pop(s: seq<Rid>, r: Rid)
    requires s != []
    ensures multiset(s)[r] == multiset(s[1..])[r] + (if s[0] == r then 1 else 0)
  {
    assert s == [s[0]] + s[1..];
  }

  lemma Append(s: seq<Rid>, x: Rid, r: Rid)
    ensures multiset(s + [x])[r] == multiset(s)[r] + (if x == r then 1 else 0)
  {}

  /** The path neither loses nor doubles a request, except that a buffered forwarder that
      ends drops the one it holds. */
  lemma MovedConserves(p: Path, m: Move, r: Rid)
    requires CanMove(p, m, true)
    ensures OnPath(Moved(p, m), r) == OnPath(p, r) - (if m == EndFeeder then InHand(p.feeder, r) else 0)
  {
    match m
    case Fetch => Pop(p.ch, r);
    case Put => Append(p.buffer, p.forwarder.r, r);
    case Feed => Pop(p.buffer, r);
    case _ =>
  }

  lemma OfferedConserves(p: Path, x: Rid, r: Rid)
    ensures OnPath(Offered(p, x), r) == OnPath(p, r) + (if x == r then 1 else 0)
  {
    Append(p.ch, x, r);
  }

  function Carried(h: Hand): seq<Rid> {
    if h.Holds? then [h.r] else []
  }

  /** Everything on the path, the next to be taken by the submitter first. */
  function Queued(p: Path): seq<Rid> {
    Carried(p.feeder) + p.buffer + Carried(p.forwarder) + p.ch
  }

  /** Requests come back in the order in which they were sent: the forwarders' moves change
      nothing about it, a new request goes to the end, and the submitter takes the first. */
  lemma KeepsOrder(p: Path, m: Move, r: Rid)
    ensures CanMove(p, m, true) && m != EndFeeder ==> Queued(Moved(p, m)) == Queued(p)
    ensures Queued(Offered(p, r)) == Queued(p) + [r]
    ensures p.feeder.Holds? ==> Queued(p) == [p.feeder.r] + Queued(HandedOver(p))
  {
    if CanMove(p, m, true) && m != EndFeeder {
      MovedKeepsOrder(p, m);
    }
  }

  lemma MovedKeepsOrder(p: Path, m: Move)
    requires CanMove(p, m, true) && m != EndFeeder
    ensures Queued(Moved(p, m)) == Queued(p)
  {
    match m
    case Fetch => assert p.ch == [p.ch[0]] + p.ch[1..];
    case Put =>
    case Feed => assert p.buffer == [p.buffer[0]] + p.buffer[1..];
    case EndForwarder =>
  }

  /** No room for another request, nor will there be any while nobody takes what the
      buffered forwarder holds. */
  predicate Jammed(p: Path) {
    && !Accepts(p)
    && (p.forwarder.Gone? || (p.forwarder.Holds? && |p.buffer| >= BUF_SIZE && (p.feeder.Gone? || p.feeder.Holds?)))
  }

  /** Requests on the path. */
  function Load(p: Path): nat {
    |p.ch| + |p.buffer| + (if p.forwarder.Holds? then 1 else 0) + (if p.feeder.Holds? then 1 else 0)
  }

  /** With the control channel open the path is jammed exactly when it refuses a request and
      cannot move, and that is at its full load of 602 requests. */
  lemma JammedIff(p: Path)
    requires PathOk(p, false)
    ensures Jammed(p) <==> !Accepts(p) && forall m: Move :: !CanMove(p, m, false)
    ensures Jammed(p) <==> Load(p) == 602
    ensures Load(p) == |Queued(p)| <= 602
  {
    if Jammed(p) {
      forall m: Move ensures !CanMove(p, m, false) {
      }
    } else if !Accepts(p) {
      assert CanMove(p, Fetch, false) || CanMove(p, Put, false) || CanMove(p, Feed, false);
    }
  }

  // ---- The forwarder's buffers ---------------------------------------------------------

  /** The buffers the forwarder made, and the two ends of the last one. */
  class RetryForwarder {
    var buffers: seq<seq<Rid>>
    var cnt: nat

    /** The count is never raised, so the first buffer is the only one. */
    ghost predicate Valid()
      reads this
    {
      |buffers| <= 1 && cnt == 0
    }

    function Held(): seq<Rid>
      reads this
    {
      if buffers == [] then [] else buffers[|buffers| - 1]
    }

    constructor ()
      ensures Valid() && Held() == []
    {
      buffers, cnt := [], 0;
    }

    /** Blocks without room, so it only proceeds with some. */
    method Forward(req: Rid)
      requires Valid() && |Held()| < BUF_SIZE
      modifies this
      ensures Valid() && |buffers| == 1 && Held() == old(Held()) + [req]
    {
      if buffers == [] || cnt >= BUF_SIZE {
        buffers := buffers + [[]];
        cnt := 0;
      }
      var k := |buffers| - 1;
      buffers := buffers[k := buffers[k] + [req]];
    }

    /** What the buffered forwarder receives. */
    method Drain() returns (req: Rid)
      requires Valid() && Held() != []
      modifies this
      ensures Valid() && |buffers| == 1 && [req] + Held() == old(Held())
    {
      var k := |buffers| - 1;
      req := buffers[k][0];
      buffers := buffers[k := buffers[k][1..]];
    }
  }
}
