/** The client of client.cc as an interleaved machine: picking connections, performing requests, draining queues.

  A step is one atomic access: a compare-and-swap on a connection's state, one operation under a
  lock, or an access to a connection by the thread or the request that owns it. `owner` and `loc`
  are bookkeeping: who owns a connection, and where a request is.
 */
module ClientMachine {
  import opened Options

  /** Capacity of a domain queue. */
  const CAPACITY := 2048

  datatype Reason = Response | Failure | Timeout | QueueFull

  /** What can arrive from the reactor. */
  type Arrival = r: Reason | !r.QueueFull? witness Response

  datatype Settlement = Settlement(req: nat, reason: Reason)

  /** `state_`, `connectionState_`, `transport_`, `requestEntry` and `requestsQueue` of a connection. */
  datatype Conn = Conn(domain: nat, used: bool, connected: bool, transport: bool, entry: Option<nat>, queue: seq<nat>)

  datatype Owner = Free | ByThread(tid: nat) | ByRequest(req: nat)

  datatype Loc = Hand(tid: nat) | InQueue(domain: nat) | InConn(conn: nat) | InEntry(conn: nat) | Settled

  /** Where a thread stands: in `doRequest` up to Overflow, in `onDone` and the client's
      `processRequestQueue` up to DrainLoad, then in the connection's own. `ds` are the domains left to drain. */
  datatype Pc =
    | Rest
    | Open(req: nat)
    | Seek(req: nat, i: nat)
    | Won(req: nat, conn: nat)
    | Overflow(req: nat)
    | Freed(conn: nat)
    | DrainLock
    | DrainOpen(ds: seq<nat>)
    | DrainSeek(ds: seq<nat>, i: nat)
    | DrainWon(ds: seq<nat>, conn: nat)
    | DrainLoad(ds: seq<nat>, conn: nat, req: nat)
    | ConnPop(conn: nat)
    | ConnLoad(conn: nat, req: nat)

  datatype State = State(
    perHost: nat,
    conns: seq<Conn>,
    pools: map<nat, seq<nat>>,
    queues: map<nat, seq<nat>>,
    lock: Option<nat>,
    stopping: bool,
    crashed: bool,
    pcs: seq<Pc>,
    domains: seq<nat>,
    loc: seq<Loc>,
    owner: seq<Owner>,
    settled: seq<Settlement>)

  /** What starts at a resting thread: a call by the user, or an event that the reactor delivers. `Go` continues. */
  datatype Choice =
    | Go
    | Submit(domain: nat)
    | Arrive(conn: nat, reason: Arrival)
    | Connected(conn: nat)
    | Lost(conn: nat)
    | Shutdown
    | Order(ds: seq<nat>)

  function Init(perHost: nat, threads: nat): State {
    State(perHost, [], map[], map[], None, false, false, seq(threads, _ => Rest), [], [], [], [])
  }

  function At(s: State, i: nat, pc: Pc): State
    requires i < |s.pcs|
  {
    s.(pcs := s.pcs[i := pc])
  }

  function FreshConns(domain: nat, n: nat): seq<Conn> {
    seq(n, _ => Conn(domain, false, false, false, None, []))
  }

  /** `pickConnection` before its loop: the domain's connections, made on first use. */
  function OpenPool(s: State, d: nat): State {
    if d in s.pools then s
    else s.(conns := s.conns + FreshConns(d, s.perHost),
            owner := s.owner + seq(s.perHost, _ => Free),
            pools := s.pools[d := seq(s.perHost, k requires 0 <= k => |s.conns| + k)])
  }

  /** `tryUse` on connection `c`. */
  function Take(s: State, i: nat, c: nat, won: Pc, lost: Pc): State
    requires i < |s.pcs|
  {
    if c < |s.conns| && !s.conns[c].used then
      At(s, i, won).(conns := s.conns[c := s.conns[c].(used := true)], owner := Put(s.owner, c, ByThread(i)))
    else At(s, i, lost)
  }

  /** `releaseConnection`. */
  function Release(s: State, i: nat, c: nat, next: Pc): State
    requires i < |s.pcs|
  {
    if c < |s.conns| then
      At(s, i, next).(conns := s.conns[c := s.conns[c].(used := false)], owner := Put(s.owner, c, Free))
    else At(s, i, next)
  }

  /** `performImpl`: the slot is overwritten whatever it held, then the transport is used. */
  function Perform(s: State, i: nat, c: nat, r: nat, next: Pc): State
    requires i < |s.pcs|
  {
    if c >= |s.conns| then s
    else At(s, i, next).(conns := s.conns[c := s.conns[c].(entry := Some(r))],
                         owner := Put(s.owner, c, ByRequest(r)), loc := Put(s.loc, r, InEntry(c)),
                         crashed := !s.conns[c].transport)
  }

  /** `asyncPerform`. */
  function Defer(s: State, i: nat, c: nat, r: nat): State
    requires i < |s.pcs| && c < |s.conns|
  {
    At(s, i, Rest).(conns := s.conns[c := s.conns[c].(queue := s.conns[c].queue + [r])],
                    owner := Put(s.owner, c, ByRequest(r)), loc := Put(s.loc, r, InConn(c)))
  }

  /** A finished, failed or timed out request leaves its slot; what follows is its `onDone`. */
  function Finish(s: State, i: nat, c: nat, reason: Reason): State
    requires i < |s.pcs|
  {
    if c < |s.conns| && s.conns[c].entry.Some? then
      var r := s.conns[c].entry.value;
      At(s, i, Freed(c)).(conns := s.conns[c := s.conns[c].(entry := None)],
                          owner := Put(s.owner, c, ByThread(i)), loc := Put(s.loc, r, Settled),
                          settled := s.settled + [Settlement(r, reason)])
    else s
  }

  function Domain(s: State, r: nat): nat {
    if r < |s.domains| then s.domains[r] else 0
  }

  function QueueOf(s: State, d: nat): seq<nat> {
    if d in s.queues then s.queues[d] else []
  }

  /** The branch of `doRequest` that found no connection, under `queuesLock`. */
  function Enqueue(s: State, i: nat, r: nat): State
    requires i < |s.pcs|
  {
    var d := Domain(s, r);
    var q := QueueOf(s, d);
    if |q| < CAPACITY then At(s, i, Rest).(queues := s.queues[d := q + [r]], loc := Put(s.loc, r, InQueue(d)))
    else At(s, i, Rest).(queues := s.queues[d := q], loc := Put(s.loc, r, Settled),
                         settled := s.settled + [Settlement(r, QueueFull)])
  }

  /** `queue.dequeue` for the first domain of `ds`, with connection `k` in hand. */
  function Dequeue(s: State, i: nat, ds: seq<nat>, k: nat): State
    requires i < |s.pcs| && ds != [] && QueueOf(s, ds[0]) != []
  {
    var q := QueueOf(s, ds[0]);
    At(s, i, DrainLoad(ds, k, q[0])).(queues := s.queues[ds[0] := q[1..]], loc := Put(s.loc, q[0], Hand(i)))
  }

  /** `requestsQueue.popSafe` of connection `k`. */
  function PopConn(s: State, i: nat, k: nat): State
    requires i < |s.pcs| && k < |s.conns| && s.conns[k].queue != []
  {
    var q := s.conns[k].queue;
    At(s, i, ConnLoad(k, q[0])).(conns := s.conns[k := s.conns[k].(queue := q[1..])],
                                 owner := Put(s.owner, k, ByThread(i)), loc := Put(s.loc, q[0], Hand(i)))
  }

  function Begin(s: State, i: nat, c: Choice): State
    requires i < |s.pcs|
  {
    match c
    case Submit(d) => At(s, i, Open(|s.loc|)).(loc := s.loc + [Hand(i)], domains := s.domains + [d])
    case Arrive(k, reason) => Finish(s, i, k, reason)
    case Connected(k) =>
      if k < |s.conns| then At(s, i, ConnPop(k)).(conns := s.conns[k := s.conns[k].(connected := true)]) else s
    case Lost(k) =>
      if k < |s.conns| then s.(conns := s.conns[k := s.conns[k].(connected := false)]) else s
    case Shutdown => s.(stopping := true)
    case _ => s
  }

  function PoolAt(s: State, d: nat): seq<nat> {
    if d in s.pools then s.pools[d] else []
  }

  /** `ds` names every domain that has a queue, once. */
  predicate Lists(s: State, ds: seq<nat>) {
    && (forall d :: d in ds ==> d in s.queues)
    && (forall d :: d in s.queues ==> d in ds)
    && (forall j, k :: 0 <= j < k < |ds| ==> ds[j] != ds[k])
  }

  function Step(s: State, i: nat, c: Choice): (s': State)
    requires i < |s.pcs|
    ensures |s'.pcs| == |s.pcs|
  {
    if s.crashed then s else
    match s.pcs[i]
    case Rest => Begin(s, i, c)
    case Open(r) => At(OpenPool(s, Domain(s, r)), i, Seek(r, 0))
    case Seek(r, n) =>
      var pool := PoolAt(s, Domain(s, r));
      if n >= |pool| then At(s, i, Overflow(r)) else Take(s, i, pool[n], Won(r, pool[n]), Seek(r, n + 1))
    case Won(r, k) =>
      if k >= |s.conns| then s
      else
        var s1 := s.(conns := s.conns[k := s.conns[k].(transport := true)]);
        if s.conns[k].connected then Perform(s1, i, k, r, Rest) else Defer(s1, i, k, r)
    case Overflow(r) => if s.lock.Some? then s else Enqueue(s, i, r)
    case Freed(k) => Release(s, i, k, DrainLock)
    case DrainLock =>
      if s.stopping then At(s, i, Rest)
      else if s.lock.Some? || !c.Order? || !Lists(s, c.ds) then s
      else At(s, i, DrainOpen(c.ds)).(lock := Some(i))
    case DrainOpen(ds) =>
      if ds == [] then At(s, i, Rest).(lock := None) else At(OpenPool(s, ds[0]), i, DrainSeek(ds, 0))
    case DrainSeek(ds, n) =>
      if ds == [] then s
      else
        var pool := PoolAt(s, ds[0]);
        if n >= |pool| then At(s, i, DrainOpen(ds[1..]))
        else Take(s, i, pool[n], DrainWon(ds, pool[n]), DrainSeek(ds, n + 1))
    case DrainWon(ds, k) =>
      if ds == [] then s
      else
        if QueueOf(s, ds[0]) == [] then Release(s, i, k, DrainOpen(ds[1..])) else Dequeue(s, i, ds, k)
    case DrainLoad(ds, k, r) => Perform(s, i, k, r, DrainOpen(ds))
    case ConnPop(k) =>
      if k >= |s.conns| || s.conns[k].queue == [] then At(s, i, Rest) else PopConn(s, i, k)
    case ConnLoad(k, r) => Perform(s, i, k, r, ConnPop(k))
  }

  // ---------------------------------------------------------------------------------------------
  // The inductive invariant
  // ---------------------------------------------------------------------------------------------

  /** The request in a thread's hand. */
  function HandOf(pc: Pc): Option<nat> {
    match pc
    case Open(r) => Some(r)
    case Seek(r, _) => Some(r)
    case Won(r, _) => Some(r)
    case Overflow(r) => Some(r)
    case DrainLoad(_, _, r) => Some(r)
    case ConnLoad(_, r) => Some(r)
    case _ => None
  }

  /** The connection a thread has to itself. */
  function HoldOf(pc: Pc): Option<nat> {
    match pc
    case Won(_, c) => Some(c)
    case Freed(c) => Some(c)
    case DrainWon(_, c) => Some(c)
    case DrainLoad(_, c, _) => Some(c)
    case ConnLoad(c, _) => Some(c)
    case _ => None
  }

  predicate Locking(pc: Pc) {
    pc.DrainOpen? || pc.DrainSeek? || pc.DrainWon? || pc.DrainLoad?
  }

  ghost predicate Sized(s: State) {
    |s.owner| == |s.conns| && |s.domains| == |s.loc|
  }

  ghost predicate ConnOk(s: State, c: nat)
    requires Sized(s) && c < |s.conns|
  {
    var k := s.conns[c];
    match s.owner[c]
    case Free => !k.used && k.entry.None? && k.queue == []
    case ByThread(i) => k.used && k.entry.None? && k.queue == [] && i < |s.pcs| && HoldOf(s.pcs[i]) == Some(c)
    case ByRequest(r) =>
      && k.used && r < |s.loc| && s.domains[r] == k.domain
      && if k.entry.Some? then k.entry == Some(r) && k.queue == [] && s.loc[r] == InEntry(c)
         else k.queue == [r] && s.loc[r] == InConn(c) && k.transport
  }

  /** The domains that a draining thread has before it. */
  ghost predicate Listed(s: State, ds: seq<nat>) {
    forall d :: d in ds ==> d in s.queues
  }

  ghost predicate ThreadOk(s: State, i: nat)
    requires Sized(s) && i < |s.pcs|
  {
    var pc := s.pcs[i];
    && (HandOf(pc).Some? ==> HandOf(pc).value < |s.loc| && s.loc[HandOf(pc).value] == Hand(i))
    && (HoldOf(pc).Some? ==> HoldOf(pc).value < |s.conns| && s.owner[HoldOf(pc).value] == ByThread(i))
    && (Locking(pc) <==> s.lock == Some(i))
    && (HandOf(pc).Some? && HoldOf(pc).Some? ==> s.domains[HandOf(pc).value] == s.conns[HoldOf(pc).value].domain)
    && (Locking(pc) ==> Listed(s, pc.ds))
    && (pc.DrainSeek? || pc.DrainWon? || pc.DrainLoad? ==> pc.ds != [])
    && (pc.DrainWon? ==> s.conns[pc.conn].domain == pc.ds[0])
    && (pc.ConnPop? ==> pc.conn < |s.conns|)
    && (pc.ConnLoad? ==> s.conns[pc.conn].transport)
  }

  ghost predicate RequestOk(s: State, r: nat)
    requires Sized(s) && r < |s.loc|
  {
    match s.loc[r]
    case Hand(i) => i < |s.pcs| && HandOf(s.pcs[i]) == Some(r)
    case InQueue(d) => d == s.domains[r] && r in QueueOf(s, d)
    case InConn(c) => c < |s.conns| && s.owner[c] == ByRequest(r) && s.conns[c].entry.None?
    case InEntry(c) => c < |s.conns| && s.owner[c] == ByRequest(r) && s.conns[c].entry == Some(r)
    case Settled => exists k :: 0 <= k < |s.settled| && s.settled[k].req == r
  }

  ghost predicate QueueOk(s: State, d: nat)
    requires Sized(s) && d in s.queues
  {
    var q := s.queues[d];
    && |q| <= CAPACITY
    && (forall k :: 0 <= k < |q| ==> q[k] < |s.loc| && s.loc[q[k]] == InQueue(d))
    && (forall j, k :: 0 <= j < k < |q| ==> q[j] != q[k])
  }

  ghost predicate PoolOk(s: State, d: nat)
    requires d in s.pools
  {
    forall n :: 0 <= n < |s.pools[d]| ==> s.pools[d][n] < |s.conns| && s.conns[s.pools[d][n]].domain == d
  }

  ghost predicate SettledOk(s: State) {
    && (forall k :: 0 <= k < |s.settled| ==> s.settled[k].req < |s.loc| && s.loc[s.settled[k].req] == Settled)
    && (forall j, k :: 0 <= j < k < |s.settled| ==> s.settled[j].req != s.settled[k].req)
  }

  ghost predicate Inv(s: State) {
    && Sized(s) && SettledOk(s)
    && (forall c :: 0 <= c < |s.conns| ==> ConnOk(s, c))
    && (forall i :: 0 <= i < |s.pcs| ==> ThreadOk(s, i))
    && (forall r :: 0 <= r < |s.loc| ==> RequestOk(s, r))
    && (forall d :: d in s.queues ==> QueueOk(s, d))
    && (forall d :: d in s.pools ==> PoolOk(s, d))
    && (s.lock.Some? ==> s.lock.value < |s.pcs|)
  }

  lemma SizedIs(s: State)
    requires Inv(s)
    ensures Sized(s)
  {
  }

  lemma ThreadIs(s: State, i: nat)
    requires Inv(s) && i < |s.pcs|
    ensures Sized(s) && ThreadOk(s, i)
  {
  }

  lemma ConnIs(s: State, c: nat)
    requires Inv(s) && c < |s.conns|
    ensures Sized(s) && ConnOk(s, c)
  {
  }

  lemma PoolIs(s: State, d: nat)
    requires Inv(s) && d in s.pools
    ensures Sized(s) && PoolOk(s, d)
  {
  }

  lemma InitInv(perHost: nat, threads: nat)
    ensures Inv(Init(perHost, threads))
  {
  }

  // ---------------------------------------------------------------------------------------------
  // Every step keeps it
  // ---------------------------------------------------------------------------------------------

  /** A step that moves thread `i` to `pc`, and nothing else but what its callers say. */
  lemma MoveInv(s: State, i: nat, pc: Pc)
    requires Inv(s) && i < |s.pcs|
    requires HandOf(pc) == HandOf(s.pcs[i]) && HoldOf(pc) == HoldOf(s.pcs[i]) && (Locking(pc) <==> Locking(s.pcs[i]))
    requires ThreadOk(At(s, i, pc), i)
    ensures Inv(At(s, i, pc))
  {
    var s' := At(s, i, pc);
    forall j | 0 <= j < |s'.pcs| ensures ThreadOk(s', j) {
      hide ConnOk, RequestOk, QueueOk, PoolOk;
      assert ThreadOk(s, j);
    }
    forall c | 0 <= c < |s'.conns| ensures ConnOk(s', c) {
      hide RequestOk, QueueOk, PoolOk;
      assert ConnOk(s, c);
    }
    forall r | 0 <= r < |s'.loc| ensures RequestOk(s', r) {
      hide PoolOk;
      assert RequestOk(s, r);
    }
    forall d | d in s'.queues ensures QueueOk(s', d) {
      hide ConnOk, PoolOk, ThreadOk;
      assert QueueOk(s, d);
    }
  }

  lemma SubmitInv(s: State, i: nat, d: nat)
    requires Inv(s) && i < |s.pcs| && s.pcs[i].Rest?
    ensures Inv(Begin(s, i, Submit(d)))
  {
    var s' := Begin(s, i, Submit(d));
    forall j | 0 <= j < |s'.pcs| ensures ThreadOk(s', j) {
      hide ConnOk, RequestOk, QueueOk, PoolOk;
      assert ThreadOk(s, j);
    }
    forall c | 0 <= c < |s'.conns| ensures ConnOk(s', c) {
      hide RequestOk, QueueOk, PoolOk;
      assert ConnOk(s, c);
    }
    forall r | 0 <= r < |s'.loc| ensures RequestOk(s', r) {
      hide PoolOk;
      if r < |s.loc| {
        assert RequestOk(s, r);
      }
    }
    forall d | d in s'.queues ensures QueueOk(s', d) {
      hide ConnOk, PoolOk, ThreadOk;
      assert QueueOk(s, d);
    }
  }

  lemma FinishInv(s: State, i: nat, c: nat, reason: Reason)
    requires Inv(s) && i < |s.pcs| && s.pcs[i].Rest?
    ensures Inv(Finish(s, i, c, reason))
  {
    var s' := Finish(s, i, c, reason);
    if c < |s.conns| && s.conns[c].entry.Some? {
      FinishConns(s, i, c, reason);
      FinishRequests(s, i, c, reason);
      forall d | d in s'.queues ensures QueueOk(s', d) {
        hide ConnOk, PoolOk, ThreadOk;
        assert QueueOk(s, d) && ConnOk(s, c);
      }
    }
  }

  lemma FinishConns(s: State, i: nat, c: nat, reason: Reason)
    requires Inv(s) && i < |s.pcs| && s.pcs[i].Rest? && c < |s.conns| && s.conns[c].entry.Some?
    ensures var s' := Finish(s, i, c, reason);
            && Sized(s') && (forall k :: 0 <= k < |s'.conns| ==> ConnOk(s', k))
            && (forall j :: 0 <= j < |s'.pcs| ==> ThreadOk(s', j)) && (forall d :: d in s'.pools ==> PoolOk(s', d))
  {
    var s' := Finish(s, i, c, reason);
    assert ConnOk(s, c);
    forall j | 0 <= j < |s'.pcs| ensures ThreadOk(s', j) {
      hide ConnOk, RequestOk, QueueOk, PoolOk;
      assert ThreadOk(s, j);
    }
    forall k | 0 <= k < |s'.conns| ensures ConnOk(s', k) {
      hide RequestOk, QueueOk, PoolOk;
      assert ConnOk(s, k);
    }
    forall d | d in s'.pools ensures PoolOk(s', d) {
      hide ConnOk, ThreadOk, RequestOk, QueueOk;
      assert PoolOk(s, d);
    }
  }

  lemma FinishRequests(s: State, i: nat, c: nat, reason: Reason)
    requires Inv(s) && i < |s.pcs| && s.pcs[i].Rest? && c < |s.conns| && s.conns[c].entry.Some?
    ensures var s' := Finish(s, i, c, reason);
            Sized(s') && SettledOk(s') && forall r :: 0 <= r < |s'.loc| ==> RequestOk(s', r)
  {
    var s', r0 := Finish(s, i, c, reason), s.conns[c].entry.value;
    assert ConnOk(s, c);
    forall r | 0 <= r < |s'.loc| ensures RequestOk(s', r) {
      hide PoolOk;
      assert RequestOk(s, r);
      if s.loc[r].Settled? || r == r0 {
        SettledSnoc(s.settled, Settlement(r0, reason), r);
      }
    }
  }

  /** Connecting, losing or associating a connection concerns no owner. */
  function Flagged(s: State, c: nat, connected: bool, transport: bool): State
    requires c < |s.conns|
  {
    s.(conns := s.conns[c := s.conns[c].(connected := connected, transport := s.conns[c].transport || transport)])
  }

  lemma FlagInv(s: State, c: nat, connected: bool, transport: bool)
    requires Inv(s) && c < |s.conns|
    ensures Inv(Flagged(s, c, connected, transport))
  {
    var s' := Flagged(s, c, connected, transport);
    forall j | 0 <= j < |s'.pcs| ensures ThreadOk(s', j) {
      hide ConnOk, RequestOk, QueueOk, PoolOk;
      assert ThreadOk(s, j);
    }
    forall k | 0 <= k < |s'.conns| ensures ConnOk(s', k) {
      hide RequestOk, QueueOk, PoolOk;
      assert ConnOk(s, k);
    }
    forall r | 0 <= r < |s'.loc| ensures RequestOk(s', r) {
      hide PoolOk;
      assert RequestOk(s, r);
    }
    forall d | d in s'.queues ensures QueueOk(s', d) {
      hide ConnOk, PoolOk, ThreadOk;
      assert QueueOk(s, d);
    }
    forall d | d in s'.pools ensures PoolOk(s', d) {
      hide ConnOk, ThreadOk, RequestOk, QueueOk;
      assert PoolOk(s, d);
    }
  }

  lemma OpenPoolInv(s: State, d: nat)
    requires Inv(s)
    ensures Inv(OpenPool(s, d)) && d in OpenPool(s, d).pools && OpenPool(s, d).pcs == s.pcs
  {
    if d !in s.pools {
      var s' := OpenPool(s, d);
      forall j | 0 <= j < |s'.pcs| ensures ThreadOk(s', j) {
        hide ConnOk, RequestOk, QueueOk, PoolOk;
        assert ThreadOk(s, j);
      }
      forall k | 0 <= k < |s'.conns| ensures ConnOk(s', k) {
        hide RequestOk, QueueOk, PoolOk;
        if k < |s.conns| {
          assert ConnOk(s, k);
        }
      }
      forall r | 0 <= r < |s'.loc| ensures RequestOk(s', r) {
        hide PoolOk;
        assert RequestOk(s, r);
      }
      forall e | e in s'.queues ensures QueueOk(s', e) {
        hide ConnOk, PoolOk, ThreadOk;
        assert QueueOk(s, e);
      }
      forall e | e in s'.pools ensures PoolOk(s', e) {
        hide ConnOk, ThreadOk, RequestOk, QueueOk;
        if e != d {
          assert PoolOk(s, e);
        }
      }
    }
  }

  /** A thread that has no connection wins the compare-and-swap on one. */
  lemma TakeInv(s: State, i: nat, c: nat, won: Pc)
    requires Inv(s) && i < |s.pcs| && c < |s.conns| && !s.conns[c].used
    requires HoldOf(s.pcs[i]).None? && HoldOf(won) == Some(c) && HandOf(won) == HandOf(s.pcs[i])
    requires (won.Won? && won.req < |s.domains| && s.domains[won.req] == s.conns[c].domain && s.pcs[i].Seek?) ||
             (won.DrainWon? && s.pcs[i].DrainSeek? && won.ds == s.pcs[i].ds && won.ds != [] && s.conns[c].domain == won.ds[0])
    ensures Inv(Take(s, i, c, won, won))
  {
    var s' := Take(s, i, c, won, won);
    assert ConnOk(s, c) && ThreadOk(s, i);
    forall j | 0 <= j < |s'.pcs| ensures ThreadOk(s', j) {
      hide ConnOk, RequestOk, QueueOk, PoolOk;
      assert ThreadOk(s, j);
    }
    forall k | 0 <= k < |s'.conns| ensures ConnOk(s', k) {
      hide RequestOk, QueueOk, PoolOk;
      assert ConnOk(s, k);
    }
    forall r | 0 <= r < |s'.loc| ensures RequestOk(s', r) {
      hide PoolOk;
      assert RequestOk(s, r);
    }
    forall d | d in s'.queues ensures QueueOk(s', d) {
      hide ConnOk, PoolOk, ThreadOk;
      assert QueueOk(s, d);
    }
    forall d | d in s'.pools ensures PoolOk(s', d) {
      hide ConnOk, ThreadOk, RequestOk, QueueOk;
      assert PoolOk(s, d);
    }
  }

  lemma ReleaseRequest(s: State, i: nat, c: nat, next: Pc, r: nat)
    requires Inv(s) && i < |s.pcs| && HoldOf(s.pcs[i]) == Some(c) && HandOf(s.pcs[i]).None? && HandOf(next).None?
    requires r < |s.loc|
    ensures Sized(Release(s, i, c, next)) && RequestOk(Release(s, i, c, next), r)
  {
    hide QueueOk, PoolOk;
    assert ThreadOk(s, i) && ConnOk(s, c) && RequestOk(s, r);
  }

  lemma ReleaseInv(s: State, i: nat, c: nat, next: Pc)
    requires Inv(s) && i < |s.pcs| && HoldOf(s.pcs[i]) == Some(c) && HandOf(s.pcs[i]).None?
    requires HoldOf(next).None? && HandOf(next).None? && (Locking(next) <==> Locking(s.pcs[i]))
    requires (next.DrainLock? || (next.DrainOpen? && Listed(s, next.ds)))
    ensures Inv(Release(s, i, c, next))
  {
    var s' := Release(s, i, c, next);
    assert ThreadOk(s, i) && ConnOk(s, c);
    forall j | 0 <= j < |s'.pcs| ensures ThreadOk(s', j) {
      hide ConnOk, RequestOk, QueueOk, PoolOk;
      assert ThreadOk(s, j);
    }
    forall k | 0 <= k < |s'.conns| ensures ConnOk(s', k) {
      hide RequestOk, QueueOk, PoolOk;
      assert ConnOk(s, k);
    }
    forall r | 0 <= r < |s'.loc| ensures RequestOk(s', r) {
      hide Inv, ConnOk, ThreadOk, QueueOk, PoolOk, RequestOk;
      ReleaseRequest(s, i, c, next, r);
    }
    forall d | d in s'.queues ensures QueueOk(s', d) {
      hide ConnOk, PoolOk, ThreadOk;
      assert QueueOk(s, d);
    }
    forall d | d in s'.pools ensures PoolOk(s', d) {
      hide ConnOk, ThreadOk, RequestOk, QueueOk;
      assert PoolOk(s, d);
    }
  }

  /** Thread `i` holds connection `c` and request `r`, and goes on at `next` when the request is performed. */
  ghost predicate Performs(s: State, i: nat, c: nat, r: nat, next: Pc) {
    && Inv(s) && i < |s.pcs| && HoldOf(s.pcs[i]) == Some(c) && HandOf(s.pcs[i]) == Some(r)
    && match s.pcs[i]
       case Won(_, _) => next == Rest
       case ConnLoad(_, _) => next == ConnPop(c)
       case DrainLoad(ds, _, _) => next == DrainOpen(ds)
       case _ => false
  }

  /** The request in hand moves into the slot of the connection held. */
  lemma PerformInv(s: State, i: nat, c: nat, r: nat, next: Pc)
    requires Performs(s, i, c, r, next)
    ensures Inv(Perform(s, i, c, r, next))
  {
    var s' := Perform(s, i, c, r, next);
    assert ThreadOk(s, i) && ConnOk(s, c) && RequestOk(s, r);
    PerformConns(s, i, c, r, next);
    forall j | 0 <= j < |s'.pcs| ensures ThreadOk(s', j) {
      hide ConnOk, RequestOk, QueueOk, PoolOk;
      assert ThreadOk(s, j);
    }
    forall q | 0 <= q < |s'.loc| ensures RequestOk(s', q) {
      hide PoolOk;
      assert RequestOk(s, q);
    }
    forall d | d in s'.queues ensures QueueOk(s', d) {
      hide ConnOk, PoolOk, ThreadOk;
      assert QueueOk(s, d);
    }
  }

  lemma PerformConns(s: State, i: nat, c: nat, r: nat, next: Pc)
    requires Performs(s, i, c, r, next)
    ensures var s' := Perform(s, i, c, r, next);
            && Sized(s') && (forall k :: 0 <= k < |s'.conns| ==> ConnOk(s', k)) && (forall d :: d in s'.pools ==> PoolOk(s', d))
  {
    var s' := Perform(s, i, c, r, next);
    assert ThreadOk(s, i) && ConnOk(s, c) && RequestOk(s, r);
    forall k | 0 <= k < |s'.conns| ensures ConnOk(s', k) {
      hide RequestOk, QueueOk, PoolOk;
      assert ConnOk(s, k);
    }
    forall d | d in s'.pools ensures PoolOk(s', d) {
      hide ConnOk, ThreadOk, RequestOk, QueueOk;
      assert PoolOk(s, d);
    }
  }

  lemma DeferInv(s: State, i: nat, c: nat, r: nat)
    requires Inv(s) && i < |s.pcs| && s.pcs[i] == Won(r, c) && c < |s.conns| && s.conns[c].transport
    ensures Inv(Defer(s, i, c, r))
  {
    var s' := Defer(s, i, c, r);
    assert ThreadOk(s, i) && ConnOk(s, c) && RequestOk(s, r);
    forall j | 0 <= j < |s'.pcs| ensures ThreadOk(s', j) {
      hide ConnOk, RequestOk, QueueOk, PoolOk;
      assert ThreadOk(s, j);
    }
    forall k | 0 <= k < |s'.conns| ensures ConnOk(s', k) {
      hide RequestOk, QueueOk, PoolOk;
      assert ConnOk(s, k);
    }
    forall q | 0 <= q < |s'.loc| ensures RequestOk(s', q) {
      hide PoolOk;
      assert RequestOk(s, q);
    }
    forall d | d in s'.queues ensures QueueOk(s', d) {
      hide ConnOk, PoolOk, ThreadOk;
      assert QueueOk(s, d);
    }
    forall d | d in s'.pools ensures PoolOk(s', d) {
      hide ConnOk, ThreadOk, RequestOk, QueueOk;
      assert PoolOk(s, d);
    }
  }

  lemma PopConnInv(s: State, i: nat, c: nat)
    requires Inv(s) && i < |s.pcs| && s.pcs[i] == ConnPop(c) && c < |s.conns| && s.conns[c].queue != []
    ensures Inv(PopConn(s, i, c))
  {
    var s', r := PopConn(s, i, c), s.conns[c].queue[0];
    assert ThreadOk(s, i) && ConnOk(s, c) && RequestOk(s, r);
    assert s.conns[c].queue == [r] && s.conns[c].queue[1..] == [];
    forall j | 0 <= j < |s'.pcs| ensures ThreadOk(s', j) {
      hide ConnOk, RequestOk, QueueOk, PoolOk;
      assert ThreadOk(s, j);
    }
    forall k | 0 <= k < |s'.conns| ensures ConnOk(s', k) {
      hide RequestOk, QueueOk, PoolOk;
      assert ConnOk(s, k);
    }
    forall q | 0 <= q < |s'.loc| ensures RequestOk(s', q) {
      hide PoolOk;
      assert RequestOk(s, q);
    }
    forall d | d in s'.queues ensures QueueOk(s', d) {
      hide ConnOk, PoolOk, ThreadOk;
      assert QueueOk(s, d);
    }
    forall d | d in s'.pools ensures PoolOk(s', d) {
      hide ConnOk, ThreadOk, RequestOk, QueueOk;
      assert PoolOk(s, d);
    }
  }

  /** A draining thread holds connection `c`, and its first domain has a queue. */
  ghost predicate Dequeues(s: State, i: nat, ds: seq<nat>, c: nat) {
    Inv(s) && i < |s.pcs| && s.pcs[i] == DrainWon(ds, c) && ds != [] && QueueOf(s, ds[0]) != []
  }

  lemma DequeueHead(s: State, i: nat, ds: seq<nat>, c: nat)
    requires Dequeues(s, i, ds, c)
    ensures Sized(s) && ds[0] in s.queues && ThreadOk(s, i) && QueueOk(s, ds[0])
    ensures var r := s.queues[ds[0]][0]; r < |s.loc| && s.loc[r] == InQueue(ds[0]) && s.domains[r] == ds[0]
  {
    hide ConnOk, PoolOk;
    assert RequestOk(s, s.queues[ds[0]][0]);
  }

  lemma DequeueRequest(s: State, i: nat, ds: seq<nat>, c: nat, r: nat)
    requires Dequeues(s, i, ds, c) && r < |s.loc|
    ensures Sized(Dequeue(s, i, ds, c)) && RequestOk(Dequeue(s, i, ds, c), r)
  {
    hide PoolOk, ConnOk, QueueOk, ThreadOk;
    DequeueHead(s, i, ds, c);
    var q := s.queues[ds[0]];
    assert q == [q[0]] + q[1..];
    assert RequestOk(s, r);
  }

  lemma DequeueThread(s: State, i: nat, ds: seq<nat>, c: nat, j: nat)
    requires Dequeues(s, i, ds, c) && j < |s.pcs|
    ensures Sized(Dequeue(s, i, ds, c)) && ThreadOk(Dequeue(s, i, ds, c), j)
  {
    hide PoolOk, ConnOk, QueueOk, RequestOk;
    DequeueHead(s, i, ds, c);
    assert ThreadOk(s, j);
  }

  lemma DequeueConn(s: State, i: nat, ds: seq<nat>, c: nat, k: nat)
    requires Dequeues(s, i, ds, c) && k < |s.conns|
    ensures Sized(Dequeue(s, i, ds, c)) && ConnOk(Dequeue(s, i, ds, c), k)
  {
    hide PoolOk, ThreadOk, QueueOk, RequestOk;
    DequeueHead(s, i, ds, c);
    assert ConnOk(s, k);
  }

  lemma DequeueQueue(s: State, i: nat, ds: seq<nat>, c: nat, d: nat)
    requires Dequeues(s, i, ds, c) && d in s.queues
    ensures var s' := Dequeue(s, i, ds, c); Sized(s') && d in s'.queues && QueueOk(s', d)
  {
    hide PoolOk, ThreadOk, ConnOk, RequestOk;
    DequeueHead(s, i, ds, c);
    assert QueueOk(s, d);
  }

  lemma DequeueRest(s: State, i: nat, ds: seq<nat>, c: nat)
    requires Dequeues(s, i, ds, c)
    ensures var s' := Dequeue(s, i, ds, c);
            && Sized(s') && SettledOk(s') && s'.conns == s.conns && s'.pools == s.pools && s'.lock == s.lock
            && |s'.pcs| == |s.pcs| && |s'.loc| == |s.loc| && s'.queues.Keys == s.queues.Keys
  {
    hide PoolOk, ThreadOk, ConnOk, RequestOk, QueueOk;
    DequeueHead(s, i, ds, c);
  }

  /** The head of a domain queue comes into a draining thread's hand. */
  lemma DequeueInv(s: State, i: nat, ds: seq<nat>, c: nat)
    requires Inv(s) && i < |s.pcs| && s.pcs[i] == DrainWon(ds, c) && ds != [] && QueueOf(s, ds[0]) != []
    ensures Inv(Dequeue(s, i, ds, c))
  {
    hide ConnOk, ThreadOk, QueueOk, PoolOk, RequestOk, Dequeue;
    var s' := Dequeue(s, i, ds, c);
    DequeueRest(s, i, ds, c);
    forall j | 0 <= j < |s'.pcs| ensures ThreadOk(s', j) {
      DequeueThread(s, i, ds, c, j);
    }
    forall k | 0 <= k < |s'.conns| ensures ConnOk(s', k) {
      DequeueConn(s, i, ds, c, k);
    }
    forall r | 0 <= r < |s'.loc| ensures RequestOk(s', r) {
      DequeueRequest(s, i, ds, c, r);
    }
    forall e | e in s'.queues ensures QueueOk(s', e) {
      DequeueQueue(s, i, ds, c, e);
    }
    forall e | e in s'.pools ensures PoolOk(s', e) {
      SamePool(s, s', e);
    }
  }

  lemma SamePool(s: State, s': State, d: nat)
    requires Inv(s) && d in s.pools && s'.conns == s.conns && s'.pools == s.pools
    ensures PoolOk(s', d)
  {
    assert PoolOk(s, d);
  }

  lemma EnqueueInv(s: State, i: nat, r: nat)
    requires Inv(s) && i < |s.pcs| && s.pcs[i] == Overflow(r)
    ensures Inv(Enqueue(s, i, r))
  {
    if |QueueOf(s, Domain(s, r))| < CAPACITY {
      EnqueueRoom(s, i, r);
    } else {
      EnqueueFull(s, i, r);
    }
  }

  lemma EnqueueRequest(s: State, i: nat, r: nat, x: nat)
    requires Inv(s) && i < |s.pcs| && s.pcs[i] == Overflow(r) && |QueueOf(s, Domain(s, r))| < CAPACITY && x < |s.loc|
    ensures Sized(Enqueue(s, i, r)) && RequestOk(Enqueue(s, i, r), x)
  {
    hide PoolOk, QueueOk;
    var q := QueueOf(s, Domain(s, r));
    assert ThreadOk(s, i) && RequestOk(s, x);
    assert (q + [r])[|q|] == r;
    assert forall k :: 0 <= k < |q| ==> (q + [r])[k] == q[k];
  }

  lemma EnqueueRoom(s: State, i: nat, r: nat)
    requires Inv(s) && i < |s.pcs| && s.pcs[i] == Overflow(r) && |QueueOf(s, Domain(s, r))| < CAPACITY
    ensures Inv(Enqueue(s, i, r))
  {
    var d := Domain(s, r);
    var q, s' := QueueOf(s, d), Enqueue(s, i, r);
    assert ThreadOk(s, i) && RequestOk(s, r);
    forall j | 0 <= j < |s'.pcs| ensures ThreadOk(s', j) {
      hide ConnOk, RequestOk, QueueOk, PoolOk;
      assert ThreadOk(s, j);
    }
    forall k | 0 <= k < |s'.conns| ensures ConnOk(s', k) {
      hide RequestOk, QueueOk, PoolOk;
      assert ConnOk(s, k);
    }
    forall x | 0 <= x < |s'.loc| ensures RequestOk(s', x) {
      hide Inv, ConnOk, ThreadOk, QueueOk, PoolOk, RequestOk;
      EnqueueRequest(s, i, r, x);
    }
    forall e | e in s'.queues ensures QueueOk(s', e) {
      hide ConnOk, PoolOk, ThreadOk;
      assert e in s.queues ==> QueueOk(s, e);
    }
  }

  /** A thread stands before a full queue. */
  ghost predicate Refuses(s: State, i: nat, r: nat) {
    Inv(s) && i < |s.pcs| && s.pcs[i] == Overflow(r) && |QueueOf(s, Domain(s, r))| >= CAPACITY
  }

  lemma FullHand(s: State, i: nat, r: nat)
    requires Refuses(s, i, r)
    ensures Sized(s) && r < |s.loc| && s.loc[r] == Hand(i)
    ensures var s' := Enqueue(s, i, r);
            s' == At(s, i, Rest).(loc := s.loc[r := Settled], settled := s.settled + [Settlement(r, QueueFull)])
  {
    assert ThreadOk(s, i);
    assert s.queues[Domain(s, r) := s.queues[Domain(s, r)]] == s.queues;
  }

  lemma FullRequest(s: State, i: nat, r: nat, x: nat)
    requires Refuses(s, i, r) && x < |s.loc|
    ensures Sized(Enqueue(s, i, r)) && RequestOk(Enqueue(s, i, r), x)
  {
    hide PoolOk, ConnOk, QueueOk, ThreadOk, Enqueue;
    FullHand(s, i, r);
    assert RequestOk(s, x);
    if s.loc[x].Settled? || x == r {
      SettledSnoc(s.settled, Settlement(r, QueueFull), x);
    }
  }

  lemma FullThread(s: State, i: nat, r: nat, j: nat)
    requires Refuses(s, i, r) && j < |s.pcs|
    ensures Sized(Enqueue(s, i, r)) && ThreadOk(Enqueue(s, i, r), j)
  {
    hide PoolOk, ConnOk, QueueOk, RequestOk, Enqueue;
    FullHand(s, i, r);
    assert ThreadOk(s, i) && ThreadOk(s, j);
  }

  lemma FullConn(s: State, i: nat, r: nat, k: nat)
    requires Refuses(s, i, r) && k < |s.conns|
    ensures Sized(Enqueue(s, i, r)) && ConnOk(Enqueue(s, i, r), k)
  {
    hide PoolOk, ThreadOk, QueueOk, RequestOk, Enqueue;
    FullHand(s, i, r);
    assert ConnOk(s, k);
  }

  lemma FullQueue(s: State, i: nat, r: nat, d: nat)
    requires Refuses(s, i, r) && d in s.queues
    ensures Sized(Enqueue(s, i, r)) && d in Enqueue(s, i, r).queues && QueueOk(Enqueue(s, i, r), d)
  {
    hide PoolOk, ThreadOk, ConnOk, RequestOk, Enqueue;
    FullHand(s, i, r);
    assert QueueOk(s, d);
  }

  lemma FullSettled(s: State, i: nat, r: nat)
    requires Refuses(s, i, r)
    ensures SettledOk(Enqueue(s, i, r))
  {
    hide PoolOk, ThreadOk, ConnOk, RequestOk, QueueOk, Enqueue;
    FullHand(s, i, r);
  }

  lemma EnqueueFull(s: State, i: nat, r: nat)
    requires Inv(s) && i < |s.pcs| && s.pcs[i] == Overflow(r) && |QueueOf(s, Domain(s, r))| >= CAPACITY
    ensures Inv(Enqueue(s, i, r))
  {
    hide ConnOk, ThreadOk, QueueOk, PoolOk, RequestOk, SettledOk, Enqueue;
    FullHand(s, i, r);
    FullSettled(s, i, r);
    var s' := Enqueue(s, i, r);
    forall j | 0 <= j < |s'.pcs| ensures ThreadOk(s', j) {
      FullThread(s, i, r, j);
    }
    forall k | 0 <= k < |s'.conns| ensures ConnOk(s', k) {
      FullConn(s, i, r, k);
    }
    forall x | 0 <= x < |s'.loc| ensures RequestOk(s', x) {
      FullRequest(s, i, r, x);
    }
    forall e | e in s'.queues ensures QueueOk(s', e) {
      FullQueue(s, i, r, e);
    }
    forall e | e in s'.pools ensures PoolOk(s', e) {
      SamePool(s, s', e);
    }
  }

  lemma SettledSnoc(log: seq<Settlement>, x: Settlement, r: nat)
    requires x.req == r || exists k :: 0 <= k < |log| && log[k].req == r
    ensures exists k :: 0 <= k < |log| + 1 && (log + [x])[k].req == r
  {
    if x.req == r {
      assert (log + [x])[|log|].req == r;
    } else {
      var k :| 0 <= k < |log| && log[k].req == r;
      assert (log + [x])[k].req == r;
    }
  }

  /** `queuesLock` is taken. */
  lemma LockInv(s: State, i: nat, ds: seq<nat>)
    requires Inv(s) && i < |s.pcs| && s.pcs[i].DrainLock? && s.lock.None? && Listed(s, ds)
    ensures Inv(At(s, i, DrainOpen(ds)).(lock := Some(i)))
  {
    var s' := At(s, i, DrainOpen(ds)).(lock := Some(i));
    forall j | 0 <= j < |s'.pcs| ensures ThreadOk(s', j) {
      hide ConnOk, RequestOk, QueueOk, PoolOk;
      assert ThreadOk(s, j) && ThreadOk(s, i);
    }
    RestInv(s, s', i);
  }

  /** `queuesLock` is given back. */
  lemma UnlockInv(s: State, i: nat)
    requires Inv(s) && i < |s.pcs| && s.pcs[i].DrainOpen?
    ensures Inv(At(s, i, Rest).(lock := None))
  {
    var s' := At(s, i, Rest).(lock := None);
    forall j | 0 <= j < |s'.pcs| ensures ThreadOk(s', j) {
      hide ConnOk, RequestOk, QueueOk, PoolOk;
      assert ThreadOk(s, j) && ThreadOk(s, i);
    }
    RestInv(s, s', i);
  }

  lemma RestInv(s: State, s': State, i: nat)
    requires Inv(s) && i < |s.pcs| && i < |s'.pcs| && s' == s.(pcs := s.pcs[i := s'.pcs[i]], lock := s'.lock)
    requires HandOf(s.pcs[i]) == HandOf(s'.pcs[i]) && HoldOf(s.pcs[i]) == HoldOf(s'.pcs[i])
    requires (forall j :: 0 <= j < |s'.pcs| ==> ThreadOk(s', j)) && (s'.lock.Some? ==> s'.lock.value < |s.pcs|)
    ensures Inv(s')
  {
    forall k | 0 <= k < |s'.conns| ensures ConnOk(s', k) {
      hide RequestOk, QueueOk, PoolOk;
      assert ConnOk(s, k);
    }
    forall r | 0 <= r < |s'.loc| ensures RequestOk(s', r) {
      hide PoolOk;
      assert RequestOk(s, r);
    }
    forall d | d in s'.queues ensures QueueOk(s', d) {
      hide ConnOk, PoolOk, ThreadOk;
      assert QueueOk(s, d);
    }
  }
}
