/** Safety of the FIFO queue over every interleaving, on unbounded positions. */
module FifoSafety {
  import opened Words
  import opened Ring
  import opened FifoMachine

  /** The oldest position whose slot may still hold an item. A popped slot that is not yet
      read can lie below the stealer head: the pop itself, or a steal that completed since,
      has moved that head past it. */
  function Base(Q: Queue): int {
    if Q.reading.Some? && Q.reading.value < Q.stealer then Q.reading.value else Q.stealer
  }

  /** The positions that hold items: what the open steal has yet to vacate, the popped slot
      that is not yet read, and everything from the worker head up. */
  predicate Live(Q: Queue, p: int) {
    || (Q.thief.Some? && Q.stealer + Q.moved <= p < Q.until)
    || Q.reading == Some(p)
    || Q.worker <= p < Q.tail + Q.ahead
  }

  ghost predicate Window(Q: Queue)
    requires |Q.buffer| > 0
  {
    forall p :: Base(Q) <= p < Base(Q) + Q.cap ==> (Cell(Q.buffer, p).Held? <==> Live(Q, p))
  }

  ghost predicate QueueInv(w: nat, Q: Queue) {
    && |Q.buffer| == Q.cap > 0
    && 2 * Q.cap <= w
    && w % Q.cap == 0
    && 0 <= Q.stealer <= Q.worker <= Q.tail
    && Q.tail + Q.ahead <= Base(Q) + Q.cap
    && (Q.thief.None? ==> Q.stealer == Q.worker && Q.moved == 0)
    && (Q.thief.Some? ==> Q.stealer < Q.until <= Q.worker && Q.stealer + Q.moved <= Q.until)
    && (Q.owner.None? ==> Q.ahead == 0 && Q.reading.None?)
    && (Q.reading.Some? ==> Q.ahead == 0 && Unread(Q, Q.reading.value))
    && Window(Q)
  }

  /** A popped position lies below the worker head and outside any booked range. */
  predicate Unread(Q: Queue, p: int) {
    0 <= p < Q.worker && (Q.thief.Some? ==> p < Q.stealer || Q.until <= p)
  }

  /** Agent `a` has the owner side of `q`, with `n` slots written and none popped. */
  ghost predicate Mine(queues: seq<Queue>, a: nat, q: nat, n: int) {
    && q < |queues|
    && queues[q].owner == Some(a)
    && queues[q].ahead == n
    && queues[q].reading.None?
  }

  /** A stealer head loaded by the owner side: no newer than the current one, and still
      within one ring length of the tail. */
  ghost predicate Behind(Q: Queue, head: int) {
    head <= Q.stealer && Q.tail <= head + Q.cap
  }

  ghost predicate Reserves(queues: seq<Queue>, a: nat, r: Reserve, n: int) {
    && Mine(queues, a, r.q, n)
    && r.tail == queues[r.q].tail
    && Behind(queues[r.q], r.head)
  }

  ghost predicate SinkInv(queues: seq<Queue>, a: nat, to: Sink, n: int) {
    to.Into? ==>
      && Reserves(queues, a, to.r, n)
      && to.room == queues[to.r.q].cap - (to.r.tail - to.r.head)
  }

  /** Words of `heads`, loaded together: no newer than the queue's. */
  ghost predicate Loaded(Q: Queue, worker: int, stealer: int) {
    && 0 <= stealer <= worker <= stealer + Q.cap
    && worker <= Q.worker
    && stealer <= Q.stealer
  }

  ghost predicate BookInv(queues: seq<Queue>, a: nat, src: nat, to: Sink, since: int, worker: int, stealer: int) {
    && src < |queues|
    && SinkInv(queues, a, to, 0)
    && since <= worker
    && Loaded(queues[src], worker, stealer)
  }

  /** The steal open on `m.src` is `m`, and it has vacated `k` slots. */
  ghost predicate MoveInv(queues: seq<Queue>, a: nat, m: Move, k: int) {
    && m.src < |queues|
    && var Q := queues[m.src];
    && Q.thief == Some(a)
    && m.from == Q.stealer
    && m.until == Q.until
    && m.until == m.from + m.count
    && m.count >= 1
    && Q.moved == k
    && (m.to.Into? ==> Transfer(m) <= m.to.room)
  }

  ghost predicate AgentInv(queues: seq<Queue>, a: nat, pc: Agent) {
    var holds :=   // named, so that a use of it stays one fact
      match pc
      case Idle => true
      case Room1(q, _) => Mine(queues, a, q, 0)
      case Room2(q, _, stealer) => Mine(queues, a, q, 0) && Behind(queues[q], stealer)
      case Dest1(q, src, _) => Mine(queues, a, q, 0) && src < |queues|
      case Dest2(q, src, _, tail) => Mine(queues, a, q, 0) && src < |queues| && tail == queues[q].tail
      case Empty1(q) => Mine(queues, a, q, 0)
      case Empty2(q, worker) => Mine(queues, a, q, 0) && worker <= queues[q].worker && queues[q].tail <= worker + queues[q].cap
      case PushWrite(r, _) => Reserves(queues, a, r, 0) && r.tail < r.head + queues[r.q].cap
      case PushStore(r) => Reserves(queues, a, r, 1) && r.tail < r.head + queues[r.q].cap
      case Extend(r, n) => Reserves(queues, a, r, n) && r.tail + n <= r.head + queues[r.q].cap
      case Book1(src, to) => src < |queues| && SinkInv(queues, a, to, 0)
      case Book2(src, to, since, worker, stealer) => BookInv(queues, a, src, to, since, worker, stealer)
      case Book3(src, to, since, worker, stealer, count) =>
        && BookInv(queues, a, src, to, since, worker, stealer)
        && stealer == worker
        && 1 <= count
        && worker + count <= queues[src].tail
        && (to.Into? ==> count <= MaxCount(0, to))
      case Take(m, k) =>
        && MoveInv(queues, a, m, k)
        && k < m.count
        && SinkInv(queues, a, m.to, Min(k, Transfer(m)))
      case Put(m, k, _) =>
        && MoveInv(queues, a, m, k + 1)
        && m.to.Into? && k < Transfer(m)
        && SinkInv(queues, a, m.to, k)
      case Publish(m) =>
        && MoveInv(queues, a, m, m.count)
        && m.to.Into?
        && SinkInv(queues, a, m.to, Transfer(m))
      case Done1(m) => MoveInv(queues, a, m, m.count)
      case Done2(m, worker, stealer) =>
        MoveInv(queues, a, m, m.count) && stealer == m.from && Loaded(queues[m.src], worker, stealer)
      case Pop1(q) => Mine(queues, a, q, 0)
      case Pop2(q, worker, stealer) =>
        Mine(queues, a, q, 0) && Loaded(queues[q], worker, stealer) && Behind(queues[q], stealer)
      case Pop3(q, worker, stealer) =>
        Mine(queues, a, q, 0) && Loaded(queues[q], worker, stealer) && Behind(queues[q], stealer) && worker < queues[q].tail
      case Pop4(q, pos) => q < |queues| && queues[q].owner == Some(a) && queues[q].reading == Some(pos);
    holds
  }

  /** The queue whose owner side an agent has. */
  function Owns(pc: Agent): Option<nat> {
    match pc
    case Room1(q, _) => Some(q)
    case Room2(q, _, _) => Some(q)
    case Dest1(q, _, _) => Some(q)
    case Dest2(q, _, _, _) => Some(q)
    case Empty1(q) => Some(q)
    case Empty2(q, _) => Some(q)
    case PushWrite(r, _) => Some(r.q)
    case PushStore(r) => Some(r.q)
    case Extend(r, _) => Some(r.q)
    case Book1(_, to) => Feeds(to)
    case Book2(_, to, _, _, _) => Feeds(to)
    case Book3(_, to, _, _, _, _) => Feeds(to)
    case Take(m, _) => Feeds(m.to)
    case Put(m, _, _) => Feeds(m.to)
    case Publish(m) => Feeds(m.to)
    case Pop1(q) => Some(q)
    case Pop2(q, _, _) => Some(q)
    case Pop3(q, _, _) => Some(q)
    case Pop4(q, _) => Some(q)
    case _ => None
  }

  function Feeds(to: Sink): Option<nat> {
    if to.Into? then Some(to.r.q) else None
  }

  /** The queue an agent has an open steal on. */
  function Robs(pc: Agent): Option<nat> {
    match pc
    case Take(m, _) => Some(m.src)
    case Put(m, _, _) => Some(m.src)
    case Publish(m) => Some(m.src)
    case Done1(m) => Some(m.src)
    case Done2(m, _, _) => Some(m.src)
    case _ => None
  }

  /** A queue's marks and an agent's roles agree. */
  ghost predicate Agree(Q: Queue, q: nat, a: nat, pc: Agent) {
    (Q.owner == Some(a) <==> Owns(pc) == Some(q)) && (Q.thief == Some(a) <==> Robs(pc) == Some(q))
  }

  /** The owner and thief marks of the queues are exactly the agents' roles. */
  ghost predicate Tokens(s: State) {
    && (forall q, a :: 0 <= q < |s.queues| && 0 <= a < |s.agents| ==> Agree(s.queues[q], q, a, s.agents[a]))
    && (forall q :: 0 <= q < |s.queues| ==>
          && (s.queues[q].owner.Some? ==> s.queues[q].owner.value < |s.agents|)
          && (s.queues[q].thief.Some? ==> s.queues[q].thief.value < |s.agents|))
  }

  ghost predicate QueuesInv(w: nat, queues: seq<Queue>) {
    w > 0 && forall q :: 0 <= q < |queues| ==> QueueInv(w, queues[q])
  }

  ghost predicate Inv(s: State) {
    && !s.fault
    && QueuesInv(s.w, s.queues)
    && (forall a :: 0 <= a < |s.agents| ==> AgentInv(s.queues, a, s.agents[a]))
    && Tokens(s)
  }

  lemma AgentInvTyped(queues: seq<Queue>, a: nat, pc: Agent)
    requires AgentInv(queues, a, pc)
    ensures AgentTyped(|queues|, pc)
  {
  }

  lemma InvTyped(s: State)
    requires Inv(s)
    ensures Typed(s)
  {
    forall a | 0 <= a < |s.agents| ensures AgentTyped(|s.queues|, s.agents[a]) {
      AgentInvTyped(s.queues, a, s.agents[a]);
    }
  }

  /** The heads differ exactly while a steal is open, and at most one agent has it open. */
  lemma HeadsDifferIffOpen(s: State, q: nat)
    requires Inv(s) && q < |s.queues|
    ensures s.queues[q].stealer != s.queues[q].worker <==> s.queues[q].thief.Some?
    ensures forall a, b ::
      (0 <= a < |s.agents| && 0 <= b < |s.agents| && Robs(s.agents[a]) == Some(q) && Robs(s.agents[b]) == Some(q)) ==> a == b
    ensures s.queues[q].thief.Some? <==> exists a :: 0 <= a < |s.agents| && Robs(s.agents[a]) == Some(q)
  {
    assert QueueInv(s.w, s.queues[q]);
    forall a, b | 0 <= a < |s.agents| && 0 <= b < |s.agents|
                  && Robs(s.agents[a]) == Some(q) && Robs(s.agents[b]) == Some(q)
      ensures a == b
    {
      assert s.queues[q].thief == Some(a) && s.queues[q].thief == Some(b);
    }
    if s.queues[q].thief.Some? {
      assert Robs(s.agents[s.queues[q].thief.value]) == Some(q);
    }
  }

  /** What a step of agent `a` may do to a queue, as far as every other agent can tell. */
  ghost predicate Evolves(Q: Queue, Q': Queue, a: nat) {
    && Q'.cap == Q.cap
    && Q.tail <= Q'.tail
    && Q.worker <= Q'.worker
    && Q.stealer <= Q'.stealer
    && (Q.owner.Some? && Q.owner != Some(a) ==>
          Q'.owner == Q.owner && Q'.tail == Q.tail && Q'.ahead == Q.ahead && Q'.reading == Q.reading)
    && (Q.thief.Some? && Q.thief != Some(a) ==>
          Q'.thief == Q.thief && Q'.stealer == Q.stealer && Q'.until == Q.until && Q'.moved == Q.moved)
  }

  /** A step of agent `a` changed at most queue `q`. */
  ghost predicate Passes(queues: seq<Queue>, queues': seq<Queue>, q: nat, a: nat) {
    && q < |queues| == |queues'|
    && queues' == queues[q := queues'[q]]
    && Evolves(queues[q], queues'[q], a)
  }

  lemma PassesAt(queues: seq<Queue>, queues': seq<Queue>, q: nat, a: nat, k: nat)
    requires Passes(queues, queues', q, a) && k < |queues|
    ensures Evolves(queues[k], queues'[k], a)
  {
    if k != q { assert queues'[k] == queues[k]; }
  }

  /** What an owner side knows of its queue is its own. */
  lemma MineStable(queues: seq<Queue>, queues': seq<Queue>, q: nat, a: nat, b: nat, k: nat, n: int)
    requires Passes(queues, queues', q, a) && a != b && Mine(queues, b, k, n)
    ensures Mine(queues', b, k, n) && queues'[k].tail == queues[k].tail && queues'[k].cap == queues[k].cap
    ensures queues[k].worker <= queues'[k].worker && queues[k].stealer <= queues'[k].stealer
  {
    PassesAt(queues, queues', q, a, k);
  }

  lemma ReservesStable(queues: seq<Queue>, queues': seq<Queue>, q: nat, a: nat, b: nat, r: Reserve, n: int)
    requires Passes(queues, queues', q, a) && a != b && Reserves(queues, b, r, n)
    ensures Reserves(queues', b, r, n) && queues'[r.q].cap == queues[r.q].cap
  {
    MineStable(queues, queues', q, a, b, r.q, n);
  }

  lemma SinkStable(queues: seq<Queue>, queues': seq<Queue>, q: nat, a: nat, b: nat, to: Sink, n: int)
    requires Passes(queues, queues', q, a) && a != b && SinkInv(queues, b, to, n)
    ensures SinkInv(queues', b, to, n)
  {
    if to.Into? { ReservesStable(queues, queues', q, a, b, to.r, n); }
  }

  /** The heads of a booking call are stale words of positions that never go back. */
  lemma BookStable(queues: seq<Queue>, queues': seq<Queue>, q: nat, a: nat, b: nat, src: nat, to: Sink, since: int, worker: int, stealer: int)
    requires Passes(queues, queues', q, a) && a != b && BookInv(queues, b, src, to, since, worker, stealer)
    ensures BookInv(queues', b, src, to, since, worker, stealer) && queues[src].tail <= queues'[src].tail
  {
    PassesAt(queues, queues', q, a, src);
    SinkStable(queues, queues', q, a, b, to, 0);
  }

  /** An open steal has its range to itself. */
  lemma MoveStable(queues: seq<Queue>, queues': seq<Queue>, q: nat, a: nat, b: nat, m: Move, k: int)
    requires Passes(queues, queues', q, a) && a != b && MoveInv(queues, b, m, k)
    ensures MoveInv(queues', b, m, k) && queues[m.src].worker <= queues'[m.src].worker
    ensures queues'[m.src].cap == queues[m.src].cap && queues'[m.src].stealer == queues[m.src].stealer
  {
    PassesAt(queues, queues', q, a, m.src);
  }

  lemma StableOwner(queues: seq<Queue>, queues': seq<Queue>, q: nat, a: nat, b: nat, pc: Agent)
    requires Passes(queues, queues', q, a) && a != b && AgentInv(queues, b, pc)
    requires pc.Room1? || pc.Room2? || pc.Dest1? || pc.Dest2? || pc.Empty1? || pc.Empty2? || pc.Pop1? || pc.Pop2? || pc.Pop3?
    ensures AgentInv(queues', b, pc)
  {
    MineStable(queues, queues', q, a, b, pc.q, 0);
  }

  lemma StableReader(queues: seq<Queue>, queues': seq<Queue>, q: nat, a: nat, b: nat, pc: Agent)
    requires Passes(queues, queues', q, a) && a != b && AgentInv(queues, b, pc) && pc.Pop4?
    ensures AgentInv(queues', b, pc)
  {
    PassesAt(queues, queues', q, a, pc.q);
  }

  lemma StableFiller(queues: seq<Queue>, queues': seq<Queue>, q: nat, a: nat, b: nat, pc: Agent)
    requires Passes(queues, queues', q, a) && a != b && AgentInv(queues, b, pc)
    requires pc.PushWrite? || pc.PushStore? || pc.Extend?
    ensures AgentInv(queues', b, pc)
  {
    match pc
    case PushWrite(r, _) => ReservesStable(queues, queues', q, a, b, r, 0);
    case PushStore(r) => ReservesStable(queues, queues', q, a, b, r, 1);
    case Extend(r, n) => ReservesStable(queues, queues', q, a, b, r, n);
  }

  lemma StableBooker(queues: seq<Queue>, queues': seq<Queue>, q: nat, a: nat, b: nat, pc: Agent)
    requires Passes(queues, queues', q, a) && a != b && AgentInv(queues, b, pc)
    requires pc.Book1? || pc.Book2? || pc.Book3?
    ensures AgentInv(queues', b, pc)
  {
    match pc
    case Book1(_, to) => SinkStable(queues, queues', q, a, b, to, 0);
    case Book2(src, to, since, worker, stealer) => BookStable(queues, queues', q, a, b, src, to, since, worker, stealer);
    case Book3(src, to, since, worker, stealer, _) => BookStable(queues, queues', q, a, b, src, to, since, worker, stealer);
  }

  lemma StableMover(queues: seq<Queue>, queues': seq<Queue>, q: nat, a: nat, b: nat, pc: Agent)
    requires Passes(queues, queues', q, a) && a != b && AgentInv(queues, b, pc)
    requires pc.Take? || pc.Put? || pc.Publish? || pc.Done1? || pc.Done2?
    ensures AgentInv(queues', b, pc)
  {
    MoveStable(queues, queues', q, a, b, pc.m, queues[pc.m.src].moved);
    match pc
    case Take(m, k) => SinkStable(queues, queues', q, a, b, m.to, Min(k, Transfer(m)));
    case Put(m, k, _) => SinkStable(queues, queues', q, a, b, m.to, k);
    case Publish(m) => SinkStable(queues, queues', q, a, b, m.to, Transfer(m));
    case _ =>
  }

  /** Other agents' knowledge survives a step. */
  lemma Stable(queues: seq<Queue>, queues': seq<Queue>, q: nat, a: nat, b: nat, pc: Agent)
    requires Passes(queues, queues', q, a) && a != b && AgentInv(queues, b, pc)
    ensures AgentInv(queues', b, pc)
  {
    if pc.PushWrite? || pc.PushStore? || pc.Extend? {
      StableFiller(queues, queues', q, a, b, pc);
    } else if pc.Book1? || pc.Book2? || pc.Book3? {
      StableBooker(queues, queues', q, a, b, pc);
    } else if pc.Take? || pc.Put? || pc.Publish? || pc.Done1? || pc.Done2? {
      StableMover(queues, queues', q, a, b, pc);
    } else if pc.Pop4? {
      StableReader(queues, queues', q, a, b, pc);
    } else if !pc.Idle? {
      StableOwner(queues, queues', q, a, b, pc);
    }
  }

  /** A mark on queue `q` and the role of agent `a` change together. */
  ghost predicate Token(t: Option<nat>, t': Option<nat>, a: nat, q: nat, role: Option<nat>, role': Option<nat>) {
    || (t' == t && role' == role)
    || (t == None && t' == Some(a) && role == None && role' == Some(q))
    || (t == Some(a) && t' == None && role == Some(q) && role' == None)
  }

  /** The effect of a step of agent `a` at `pc` is never a fault, re-establishes the
      invariant of what it touches, and disturbs nobody else. */
  ghost predicate Good(w: nat, queues: seq<Queue>, a: nat, pc: Agent, e: Effect) {
    var holds :=
      match e
      case Stay => true
      case Fault => false
      case Local(pc') => AgentInv(queues, a, pc') && Owns(pc') == Owns(pc) && Robs(pc') == Robs(pc)
      case On(pc', q, Q', _, _) =>
        && q < |queues|
        && QueueInv(w, Q')
        && AgentInv(queues[q := Q'], a, pc')
        && Evolves(queues[q], Q', a)
        && Token(queues[q].owner, Q'.owner, a, q, Owns(pc), Owns(pc'))
        && Token(queues[q].thief, Q'.thief, a, q, Robs(pc), Robs(pc'));
    holds
  }

  /** A mark and a role that change together, for another queue or another agent. */
  lemma MarkMoves(t: Option<nat>, t': Option<nat>, a: nat, q: nat, role: Option<nat>, role': Option<nat>, p: nat, u: Option<nat>, b: nat, other: Option<nat>)
    requires Token(t, t', a, q, role, role')
    requires (t == Some(a) <==> role == Some(q)) && (t == Some(b) <==> other == Some(q)) && (u == Some(a) <==> role == Some(p)) && (u == Some(b) <==> other == Some(p))
    requires (p == q ==> u == t) && (a == b ==> other == role)
    ensures (if p == q then t' else u) == Some(b) <==> (if a == b then role' else other) == Some(p)
  {
  }

  lemma AgreeMoves(Q: Queue, Q': Queue, a: nat, q: nat, pc: Agent, pc': Agent, P: Queue, p: nat, b: nat, other: Agent)
    requires Token(Q.owner, Q'.owner, a, q, Owns(pc), Owns(pc')) && Token(Q.thief, Q'.thief, a, q, Robs(pc), Robs(pc'))
    requires Agree(Q, q, a, pc) && Agree(Q, q, b, other) && Agree(P, p, a, pc) && Agree(P, p, b, other)
    requires (p == q ==> P == Q) && (a == b ==> other == pc)
    ensures Agree(if p == q then Q' else P, p, b, if a == b then pc' else other)
  {
    MarkMoves(Q.owner, Q'.owner, a, q, Owns(pc), Owns(pc'), p, P.owner, b, Owns(other));
    MarkMoves(Q.thief, Q'.thief, a, q, Robs(pc), Robs(pc'), p, P.thief, b, Robs(other));
  }

  /** Marks and roles of one queue and one agent change together. */
  lemma TokensMove(s: State, a: nat, pc: Agent, q: nat, Q: Queue)
    requires Tokens(s) && a < |s.agents| && q < |s.queues|
    requires Token(s.queues[q].owner, Q.owner, a, q, Owns(s.agents[a]), Owns(pc))
    requires Token(s.queues[q].thief, Q.thief, a, q, Robs(s.agents[a]), Robs(pc))
    ensures Tokens(s.(agents := s.agents[a := pc], queues := s.queues[q := Q]))
  {
    var queues, agents := s.queues[q := Q], s.agents[a := pc];
    forall p, b | 0 <= p < |queues| && 0 <= b < |agents| ensures Agree(queues[p], p, b, agents[b]) {
      AgreeMoves(s.queues[q], Q, a, q, s.agents[a], pc, s.queues[p], p, b, s.agents[b]);
    }
  }

  lemma ApplyTokens(s: State, a: nat, e: Effect)
    requires Tokens(s) && a < |s.agents| && Good(s.w, s.queues, a, s.agents[a], e)
    ensures Tokens(Apply(s, a, e))
  {
    if e.On? { TokensMove(s, a, e.pc, e.q, e.queue); }
  }

  lemma ApplyAgents(s: State, a: nat, e: Effect, b: nat)
    requires a < |s.agents| && Good(s.w, s.queues, a, s.agents[a], e)
    requires b < |s.agents| && AgentInv(s.queues, b, s.agents[b])
    ensures AgentInv(Apply(s, a, e).queues, b, Apply(s, a, e).agents[b])
  {
    if e.On? && b != a {
      Stable(s.queues, Apply(s, a, e).queues, e.q, a, b, s.agents[b]);
    }
  }

  /** A good effect keeps the invariant of the whole network. */
  lemma ApplyKeeps(s: State, a: nat, e: Effect)
    requires Inv(s) && a < |s.agents| && Good(s.w, s.queues, a, s.agents[a], e)
    ensures Inv(Apply(s, a, e))
  {
    ApplyTokens(s, a, e);
    forall b | 0 <= b < |s.agents| ensures AgentInv(Apply(s, a, e).queues, b, Apply(s, a, e).agents[b]) {
      ApplyAgents(s, a, e, b);
    }
  }

  lemma GoodAcquire(w: nat, queues: seq<Queue>, a: nat, q: nat, pc: Agent)
    requires QueuesInv(w, queues)
    requires q < |queues| && queues[q].owner.None? ==> AgentInv(queues[q := queues[q].(owner := Some(a))], a, pc)
    requires Owns(pc) == Some(q) && Robs(pc) == None
    ensures Good(w, queues, a, Idle, Acquire(queues, a, q, pc))
  {
  }

  lemma GoodBegin(w: nat, queues: seq<Queue>, a: nat, i: Input)
    requires QueuesInv(w, queues)
    ensures Good(w, queues, a, Idle, Begin(queues, a, i))
  {
    match i
    case StartPush(q, x) => GoodAcquire(w, queues, a, q, Room1(q, ToPush(x)));
    case StartExtend(q) => GoodAcquire(w, queues, a, q, Room1(q, ToExtend));
    case StartMeasure(q) => GoodAcquire(w, queues, a, q, Room1(q, ToMeasure));
    case StartIsEmpty(q) => GoodAcquire(w, queues, a, q, Empty1(q));
    case StartSteal(src, dst, keep) => if src < |queues| { GoodAcquire(w, queues, a, dst, Dest1(dst, src, keep)); }
    case StartPop(q) => GoodAcquire(w, queues, a, q, Pop1(q));
    case _ =>
  }

  lemma GoodFinish(w: nat, queues: seq<Queue>, a: nat, pc: Agent, q: nat)
    requires QueuesInv(w, queues) && Mine(queues, a, q, 0)
    requires Owns(pc) == Some(q) && Robs(pc) == None
    ensures Good(w, queues, a, pc, Finish(queues, q))
  {
  }

  lemma GoodAbort(w: nat, queues: seq<Queue>, a: nat, pc: Agent, to: Sink)
    requires QueuesInv(w, queues) && SinkTyped(|queues|, to) && SinkInv(queues, a, to, 0)
    requires Owns(pc) == Feeds(to) && Robs(pc) == None
    ensures Good(w, queues, a, pc, Abort(queues, to))
  {
    if to.Into? {
      GoodFinish(w, queues, a, pc, to.r.q);
    }
  }

  lemma GoodReserved(w: nat, queues: seq<Queue>, a: nat, pc: Agent)
    requires QueuesInv(w, queues) && pc.Room2? && AgentInv(queues, a, pc)
    ensures Good(w, queues, a, pc, Reserved(false, w, queues, Reserve(pc.q, queues[pc.q].tail, pc.stealer), pc.goal))
  {
    GoodFinish(w, queues, a, pc, pc.q);
  }

  lemma GoodMeasured(w: nat, queues: seq<Queue>, a: nat, pc: Agent)
    requires QueuesInv(w, queues) && pc.Dest2? && AgentInv(queues, a, pc)
    ensures Good(w, queues, a, pc, Measured(false, w, queues, Reserve(pc.q, pc.tail, queues[pc.q].stealer), pc.src, pc.keepLast))
  {
  }

  /** The queue with the next slot above its tail filled by the owner side. */
  function Filled(Q: Queue, item: Item): Queue
    requires |Q.buffer| > 0
  {
    Q.(buffer := Write(Q.buffer, Q.tail + Q.ahead, Held(item)), ahead := Q.ahead + 1)
  }

  /** Writing the next slot above the tail finds it vacant and touches no live item. */
  lemma FilledInv(w: nat, Q: Queue, item: Item)
    requires QueueInv(w, Q) && Q.owner.Some? && Q.reading.None? && Q.tail + Q.ahead < Q.stealer + Q.cap
    ensures Cell(Q.buffer, Q.tail + Q.ahead).Vacant?
    ensures QueueInv(w, Filled(Q, item))
  {
    var pos := Q.tail + Q.ahead;
    assert !Live(Q, pos);
    forall p | Q.stealer <= p < Q.stealer + Q.cap
      ensures Cell(Filled(Q, item).buffer, p).Held? <==> Live(Filled(Q, item), p)
    {
      CellWrite(Q.buffer, pos, Held(item), p);
    }
  }

  lemma PublishedInv(w: nat, Q: Queue)
    requires QueueInv(w, Q) && Q.reading.None?
    ensures QueueInv(w, Published(Q, Q.tail + Q.ahead))
  {
    forall p | Q.stealer <= p < Q.stealer + Q.cap
      ensures Live(Published(Q, Q.tail + Q.ahead), p) <==> Live(Q, p)
    {
    }
  }

  lemma GoodFill(w: nat, queues: seq<Queue>, a: nat, pc: Agent, pc': Agent, q: nat, item: Item, put: multiset<Item>)
    requires QueuesInv(w, queues) && q < |queues| && queues[q].owner == Some(a) && queues[q].reading.None?
    requires |queues[q].buffer| > 0 && queues[q].tail + queues[q].ahead < queues[q].stealer + queues[q].cap
    requires Owns(pc') == Owns(pc) && Robs(pc') == Robs(pc)
    requires AgentInv(queues[q := Filled(queues[q], item)], a, pc')
    ensures Good(w, queues, a, pc, WriteSlot(pc', q, queues[q], queues[q].tail + queues[q].ahead, item, put))
  {
    FilledInv(w, queues[q], item);
  }

  lemma GoodStore(w: nat, queues: seq<Queue>, a: nat, pc: Agent, q: nat, tail: int)
    requires QueuesInv(w, queues) && q < |queues| && queues[q].owner == Some(a) && queues[q].reading.None?
    requires Owns(pc) == Some(q) && Robs(pc) == None && tail == queues[q].tail + queues[q].ahead
    ensures Good(w, queues, a, pc, Only(Idle, q, Published(queues[q], tail)))
  {
    PublishedInv(w, queues[q]);
  }

  lemma GoodPush(w: nat, queues: seq<Queue>, a: nat, pc: Agent, i: Input)
    requires QueuesInv(w, queues) && QueuesTyped(queues) && (pc.PushWrite? || pc.PushStore?) && AgentInv(queues, a, pc)
    ensures Good(w, queues, a, pc, Next(false, w, queues, a, pc, i))
  {
    if pc.PushWrite? {
      GoodFill(w, queues, a, pc, PushStore(pc.r), pc.r.q, pc.item, multiset{pc.item});
    } else {
      GoodStore(w, queues, a, pc, pc.r.q, pc.r.tail + 1);
    }
  }

  lemma GoodExtendMore(w: nat, queues: seq<Queue>, a: nat, r: Reserve, n: nat, x: Item)
    requires QueuesInv(w, queues) && QueuesTyped(queues) && AgentInv(queues, a, Extend(r, n)) && r.tail + n != r.head + queues[r.q].cap
    ensures Good(w, queues, a, Extend(r, n), WriteSlot(Extend(r, n + 1), r.q, queues[r.q], r.tail + n, x, multiset{x}))
  {
    GoodFill(w, queues, a, Extend(r, n), Extend(r, n + 1), r.q, x, multiset{x});
  }

  lemma GoodExtendEnd(w: nat, queues: seq<Queue>, a: nat, r: Reserve, n: nat)
    requires QueuesInv(w, queues) && QueuesTyped(queues) && AgentInv(queues, a, Extend(r, n))
    ensures Good(w, queues, a, Extend(r, n), Only(Idle, r.q, Published(queues[r.q], r.tail + n)))
  {
    GoodStore(w, queues, a, Extend(r, n), r.q, r.tail + n);
  }

  lemma GoodExtend(w: nat, queues: seq<Queue>, a: nat, r: Reserve, n: nat, i: Input)
    requires QueuesInv(w, queues) && QueuesTyped(queues) && AgentInv(queues, a, Extend(r, n))
    ensures Good(w, queues, a, Extend(r, n), StepExtend(false, w, queues[r.q], i, r, n))
  {
    if i.Give? && r.tail + n != r.head + queues[r.q].cap {
      GoodExtendMore(w, queues, a, r, n, i.item);
    } else {
      GoodExtendEnd(w, queues, a, r, n);
    }
  }

  lemma GoodSize(w: nat, queues: seq<Queue>, a: nat, pc: Agent, i: Input)
    requires QueuesInv(w, queues) && pc.Book2? && AgentInv(queues, a, pc)
    ensures Good(w, queues, a, pc, StepSize(false, w, queues, i, pc.src, pc.to, pc.since, pc.worker, pc.stealer))
  {
    GoodAbort(w, queues, a, pc, pc.to);
  }

  /** The queue after a steal has booked its front `count` items. */
  function Booked(Q: Queue, a: nat, count: int): Queue {
    Q.(worker := Q.worker + count, thief := Some(a), until := Q.worker + count, moved := 0)
  }

  lemma BookedInv(w: nat, Q: Queue, a: nat, count: int)
    requires QueueInv(w, Q) && Q.thief.None? && 1 <= count && Q.worker + count <= Q.tail
    ensures QueueInv(w, Booked(Q, a, count))
  {
    forall p | Base(Q) <= p < Base(Q) + Q.cap ensures Live(Booked(Q, a, count), p) <==> Live(Q, p) {
    }
  }

  lemma BookedAgent(queues: seq<Queue>, a: nat, pc: Agent)
    requires pc.Book3? && AgentInv(queues, a, pc) && queues[pc.src].stealer == queues[pc.src].worker == pc.worker
    ensures var m := Move(pc.src, pc.to, pc.stealer, pc.count, pc.worker + pc.count);
      AgentInv(queues[pc.src := Booked(queues[pc.src], a, pc.count)], a, Take(m, 0))
  {
  }

  lemma ReloadedAgent(w: nat, queues: seq<Queue>, a: nat, pc: Agent)
    requires QueuesInv(w, queues) && pc.Book3? && AgentInv(queues, a, pc)
    ensures AgentInv(queues, a, Book2(pc.src, pc.to, pc.since, queues[pc.src].worker, queues[pc.src].stealer))
  {
    assert QueueInv(w, queues[pc.src]);
  }

  lemma GoodBooked(w: nat, queues: seq<Queue>, a: nat, pc: Agent)
    requires QueuesInv(w, queues) && pc.Book3? && AgentInv(queues, a, pc)
    requires queues[pc.src].worker == pc.worker && queues[pc.src].stealer == pc.stealer
    ensures var m := Move(pc.src, pc.to, pc.stealer, pc.count, pc.worker + pc.count);
      Good(w, queues, a, pc, Only(Take(m, 0), pc.src, Booked(queues[pc.src], a, pc.count)))
  {
    var Q := queues[pc.src];
    assert QueueInv(w, Q);
    assert Q.thief.None?;
    BookedInv(w, Q, a, pc.count);
    BookedAgent(queues, a, pc);
  }

  lemma GoodReloaded(w: nat, queues: seq<Queue>, a: nat, pc: Agent)
    requires QueuesInv(w, queues) && pc.Book3? && AgentInv(queues, a, pc)
    ensures Good(w, queues, a, pc, Local(Book2(pc.src, pc.to, pc.since, queues[pc.src].worker, queues[pc.src].stealer)))
  {
    ReloadedAgent(w, queues, a, pc);
  }

  lemma BookIs(w: nat, Q: Queue, a: nat, i: Input, pc: Agent)
    requires w > 0 && pc.Book3?
    ensures StepBook(false, w, Q, a, i, pc.src, pc.to, pc.since, pc.worker, pc.stealer, pc.count)
      == if Q.worker == pc.worker && Q.stealer == pc.stealer && !i.Flaky?
         then Only(Take(Move(pc.src, pc.to, pc.stealer, pc.count, pc.worker + pc.count), 0), pc.src, Booked(Q, a, pc.count))
         else Local(Book2(pc.src, pc.to, pc.since, Q.worker, Q.stealer))
  {
  }

  lemma GoodCas(w: nat, queues: seq<Queue>, a: nat, pc: Agent, i: Input)
    requires QueuesInv(w, queues) && pc.Book3? && AgentInv(queues, a, pc)
    ensures Good(w, queues, a, pc, StepBook(false, w, queues[pc.src], a, i, pc.src, pc.to, pc.since, pc.worker, pc.stealer, pc.count))
  {
    BookIs(w, queues[pc.src], a, i, pc);
    if queues[pc.src].worker == pc.worker && queues[pc.src].stealer == pc.stealer && !i.Flaky? {
      GoodBooked(w, queues, a, pc);
    } else {
      GoodReloaded(w, queues, a, pc);
    }
  }

  /** The queue after its open steal has moved the next item out. */
  function Looted(Q: Queue): Queue
    requires |Q.buffer| > 0
  {
    Vacate(Q, Q.stealer + Q.moved).(moved := Q.moved + 1)
  }

  /** Moving the next booked item out finds it in place. */
  lemma LootedInv(w: nat, Q: Queue)
    requires QueueInv(w, Q) && Q.thief.Some? && Q.stealer + Q.moved < Q.until
    ensures Cell(Q.buffer, Q.stealer + Q.moved).Held?
    ensures QueueInv(w, Looted(Q))
  {
    var pos := Q.stealer + Q.moved;
    assert Live(Q, pos);
    forall p | Base(Q) <= p < Base(Q) + Q.cap
      ensures Cell(Looted(Q).buffer, p).Held? <==> Live(Looted(Q), p)
    {
      CellWrite(Q.buffer, pos, Vacant, p);
    }
  }

  lemma GoodLoot(w: nat, queues: seq<Queue>, a: nat, pc: Agent, pc': Agent, q: nat, got: multiset<Item>)
    requires QueuesInv(w, queues) && q < |queues| && queues[q].thief == Some(a)
    requires |queues[q].buffer| > 0 && queues[q].stealer + queues[q].moved < queues[q].until
    requires Owns(pc') == Owns(pc) && Robs(pc') == Robs(pc)
    requires AgentInv(queues[q := Looted(queues[q])], a, pc')
    ensures Good(w, queues, a, pc, On(pc', q, Looted(queues[q]), multiset{}, got))
  {
    LootedInv(w, queues[q]);
  }

  /** Where a steal goes on after moving item `k` out. */
  function AfterTake(m: Move, k: nat, x: Item): Agent {
    if m.to.Into? then (if k < Transfer(m) then Put(m, k, x) else Publish(m))
    else if m.from + k + 1 == m.until then Done1(m) else Take(m, k + 1)
  }

  lemma TakeAgent(queues: seq<Queue>, a: nat, m: Move, k: nat, x: Item, Q': Queue)
    requires AgentInv(queues, a, Take(m, k))
    requires Q' == queues[m.src].(moved := k + 1, buffer := Q'.buffer)
    ensures AgentInv(queues[m.src := Q'], a, AfterTake(m, k, x))
    ensures Owns(AfterTake(m, k, x)) == Feeds(m.to) && Robs(AfterTake(m, k, x)) == Some(m.src)
  {
  }

  lemma TakeIs(w: nat, Q: Queue, m: Move, k: nat)
    requires w > 0 && QueueInv(w, Q) && Q.thief.Some? && m.from == Q.stealer && k == Q.moved && Q.stealer + k < Q.until
    ensures Cell(Q.buffer, m.from + k).Held?
    ensures var x := Cell(Q.buffer, m.from + k).item;
      StepTake(false, w, Q, m, k) == On(AfterTake(m, k, x), m.src, Looted(Q), multiset{},
        if m.to.Into? && k < Transfer(m) then multiset{} else multiset{x})
  {
    LootedInv(w, Q);
  }

  lemma GoodTake(w: nat, queues: seq<Queue>, a: nat, m: Move, k: nat)
    requires QueuesInv(w, queues) && QueuesTyped(queues) && AgentInv(queues, a, Take(m, k))
    ensures Good(w, queues, a, Take(m, k), StepTake(false, w, queues[m.src], m, k))
  {
    var Q := queues[m.src];
    TakeIs(w, Q, m, k);
    var x := Cell(Q.buffer, m.from + k).item;
    TakeAgent(queues, a, m, k, x, Looted(Q));
    GoodLoot(w, queues, a, Take(m, k), AfterTake(m, k, x), m.src, StepTake(false, w, Q, m, k).got);
  }

  /** Where a steal goes on after writing item `k`. */
  function AfterPut(m: Move, k: nat): Agent
    requires m.to.Into?
  {
    if k + 1 < Transfer(m) || m.to.keepLast then Take(m, k + 1) else Publish(m)
  }

  lemma PutAgent(queues: seq<Queue>, a: nat, m: Move, k: nat, x: Item, Q': Queue)
    requires AgentInv(queues, a, Put(m, k, x))
    requires Q' == queues[m.to.r.q].(ahead := k + 1, buffer := Q'.buffer)
    ensures AgentInv(queues[m.to.r.q := Q'], a, AfterPut(m, k))
    ensures Owns(AfterPut(m, k)) == Some(m.to.r.q) && Robs(AfterPut(m, k)) == Some(m.src)
  {
  }

  lemma GoodPut(w: nat, queues: seq<Queue>, a: nat, pc: Agent)
    requires QueuesInv(w, queues) && QueuesTyped(queues) && pc.Put? && AgentInv(queues, a, pc)
    ensures Good(w, queues, a, pc, StepPut(false, w, queues[pc.m.to.r.q], pc.m, pc.k, pc.item))
  {
    var q := pc.m.to.r.q;
    PutAgent(queues, a, pc.m, pc.k, pc.item, Filled(queues[q], pc.item));
    GoodFill(w, queues, a, pc, AfterPut(pc.m, pc.k), q, pc.item, multiset{});
  }

  lemma GoodPublish(w: nat, queues: seq<Queue>, a: nat, m: Move)
    requires QueuesInv(w, queues) && AgentInv(queues, a, Publish(m))
    ensures Good(w, queues, a, Publish(m), Only(Done1(m), m.to.r.q, Published(queues[m.to.r.q], m.to.r.tail + Transfer(m))))
  {
    PublishedInv(w, queues[m.to.r.q]);
  }

  /** The queue after its open steal has completed. */
  function Completed(Q: Queue): Queue {
    Q.(stealer := Q.worker, thief := None, moved := 0)
  }

  /** Completion shifts the window past slots that are all vacant. */
  lemma CompletedInv(w: nat, Q: Queue)
    requires QueueInv(w, Q) && Q.thief.Some? && Q.stealer + Q.moved == Q.until
    ensures QueueInv(w, Completed(Q))
  {
    var C := Completed(Q);
    forall p | Base(C) <= p < Base(C) + Q.cap ensures Cell(Q.buffer, p).Held? <==> Live(C, p) {
      assert Live(C, p) <==> Live(Q, p);
      if p >= Base(Q) + Q.cap {
        CellAlias(Q.buffer, p - Q.cap);
        assert !Live(Q, p - Q.cap);
      }
    }
  }

  lemma GoodDone(w: nat, queues: seq<Queue>, a: nat, pc: Agent, i: Input)
    requires QueuesInv(w, queues) && pc.Done2? && AgentInv(queues, a, pc)
    ensures Good(w, queues, a, pc, StepDone(queues[pc.m.src], i, pc.m, pc.worker, pc.stealer))
  {
    var Q := queues[pc.m.src];
    if Q.worker == pc.worker && Q.stealer == pc.stealer {
      CompletedInv(w, Q);
    }
  }

  lemma GoodPop(w: nat, queues: seq<Queue>, a: nat, pc: Agent)
    requires QueuesInv(w, queues) && pc.Pop2? && AgentInv(queues, a, pc)
    ensures Good(w, queues, a, pc, StepPop(queues, pc.q, pc.worker, pc.stealer))
  {
    GoodFinish(w, queues, a, pc, pc.q);
  }

  /** The queue after a pop has claimed its front item. */
  function Claimed(Q: Queue): Queue {
    Q.(worker := Q.worker + 1, stealer := if Q.stealer == Q.worker then Q.stealer + 1 else Q.stealer,
       reading := Some(Q.worker))
  }

  lemma ClaimedInv(w: nat, Q: Queue)
    requires QueueInv(w, Q) && Q.owner.Some? && Q.reading.None? && Q.ahead == 0 && Q.worker < Q.tail
    ensures QueueInv(w, Claimed(Q))
  {
    assert Base(Claimed(Q)) == Base(Q);
    forall p | Base(Q) <= p < Base(Q) + Q.cap ensures Live(Claimed(Q), p) <==> Live(Q, p) {
    }
  }

  lemma GoodClaim(w: nat, queues: seq<Queue>, a: nat, pc: Agent, i: Input)
    requires QueuesInv(w, queues) && pc.Pop3? && AgentInv(queues, a, pc)
    ensures Good(w, queues, a, pc, StepClaim(false, w, queues[pc.q], i, pc.q, pc.worker, pc.stealer))
  {
    var Q := queues[pc.q];
    if Q.worker == pc.worker && Q.stealer == pc.stealer {
      ClaimedInv(w, Q);
    }
  }

  /** The queue after the popped slot has been read. */
  function Collected(Q: Queue, pos: int): Queue
    requires |Q.buffer| > 0
  {
    Vacate(Q, pos).(reading := None, owner := None)
  }

  /** Reading a popped slot finds its item, and lets the window move past it. */
  lemma CollectedInv(w: nat, Q: Queue, pos: int)
    requires QueueInv(w, Q) && Q.reading == Some(pos)
    ensures Cell(Q.buffer, pos).Held?
    ensures QueueInv(w, Collected(Q, pos))
  {
    assert Live(Q, pos);
    var C := Collected(Q, pos);
    forall p | Base(C) <= p < Base(C) + Q.cap ensures Cell(C.buffer, p).Held? <==> Live(C, p) {
      if p >= Base(Q) + Q.cap {
        CellAlias(C.buffer, p - Q.cap);
        CellWrite(Q.buffer, pos, Vacant, p - Q.cap);
        assert !Live(C, p);
        assert p - Q.cap == pos || !Live(Q, p - Q.cap);
      } else {
        CellWrite(Q.buffer, pos, Vacant, p);
      }
    }
  }

  lemma GoodRead(w: nat, queues: seq<Queue>, a: nat, pc: Agent)
    requires QueuesInv(w, queues) && QueuesTyped(queues) && pc.Pop4? && AgentInv(queues, a, pc)
    ensures Good(w, queues, a, pc, StepRead(queues[pc.q], pc.q, pc.pos))
  {
    CollectedInv(w, queues[pc.q], pc.pos);
  }

  predicate IsLoad(pc: Agent) {
    pc.Room1? || pc.Dest1? || pc.Empty1? || pc.Book1? || pc.Done1? || pc.Pop1?
  }

  lemma GoodLoad(w: nat, queues: seq<Queue>, a: nat, pc: Agent, i: Input)
    requires QueuesInv(w, queues) && QueuesTyped(queues) && IsLoad(pc) && AgentInv(queues, a, pc) && AgentTyped(|queues|, pc)
    ensures Good(w, queues, a, pc, Next(false, w, queues, a, pc, i))
  {
  }

  lemma GoodBooking(w: nat, queues: seq<Queue>, a: nat, pc: Agent, i: Input)
    requires QueuesInv(w, queues) && QueuesTyped(queues) && AgentInv(queues, a, pc) && AgentTyped(|queues|, pc)
    requires pc.Book2? || pc.Book3?
    ensures Good(w, queues, a, pc, Next(false, w, queues, a, pc, i))
  {
    match pc
    case Book2(_, _, _, _, _) => GoodSize(w, queues, a, pc, i);
    case Book3(_, _, _, _, _, _) => GoodCas(w, queues, a, pc, i);
  }

  lemma GoodMover(w: nat, queues: seq<Queue>, a: nat, pc: Agent, i: Input)
    requires QueuesInv(w, queues) && QueuesTyped(queues) && AgentInv(queues, a, pc) && AgentTyped(|queues|, pc)
    requires pc.Take? || pc.Put?
    ensures Good(w, queues, a, pc, Next(false, w, queues, a, pc, i))
  {
    match pc
    case Take(m, k) => GoodTake(w, queues, a, m, k);
    case Put(_, _, _) => GoodPut(w, queues, a, pc);
  }

  lemma GoodCloser(w: nat, queues: seq<Queue>, a: nat, pc: Agent, i: Input)
    requires QueuesInv(w, queues) && QueuesTyped(queues) && AgentInv(queues, a, pc) && AgentTyped(|queues|, pc)
    requires pc.Publish? || pc.Done2?
    ensures Good(w, queues, a, pc, Next(false, w, queues, a, pc, i))
  {
    match pc
    case Publish(m) => GoodPublish(w, queues, a, m);
    case Done2(_, _, _) => GoodDone(w, queues, a, pc, i);
  }

  lemma GoodOwner(w: nat, queues: seq<Queue>, a: nat, pc: Agent, i: Input)
    requires QueuesInv(w, queues) && QueuesTyped(queues) && AgentInv(queues, a, pc) && AgentTyped(|queues|, pc)
    requires pc.Room2? || pc.Dest2? || pc.Empty2? || pc.Extend? || pc.Pop2? || pc.Pop3? || pc.Pop4?
    ensures Good(w, queues, a, pc, Next(false, w, queues, a, pc, i))
  {
    match pc
    case Room2(_, _, _) => GoodReserved(w, queues, a, pc);
    case Dest2(_, _, _, _) => GoodMeasured(w, queues, a, pc);
    case Empty2(q, _) => GoodFinish(w, queues, a, pc, q);
    case Extend(r, n) => GoodExtend(w, queues, a, r, n, i);
    case Pop2(_, _, _) => GoodPop(w, queues, a, pc);
    case Pop3(_, _, _) => GoodClaim(w, queues, a, pc, i);
    case Pop4(_, _) => GoodRead(w, queues, a, pc);
  }

  /** Every atomic step of every agent is good. */
  lemma GoodNext(w: nat, queues: seq<Queue>, a: nat, pc: Agent, i: Input)
    requires QueuesInv(w, queues) && QueuesTyped(queues) && AgentInv(queues, a, pc) && AgentTyped(|queues|, pc)
    ensures Good(w, queues, a, pc, Next(false, w, queues, a, pc, i))
  {
    if pc.Idle? {
      GoodBegin(w, queues, a, i);
    } else if IsLoad(pc) {
      GoodLoad(w, queues, a, pc, i);
    } else if pc.PushWrite? || pc.PushStore? {
      GoodPush(w, queues, a, pc, i);
    } else if pc.Book2? || pc.Book3? {
      GoodBooking(w, queues, a, pc, i);
    } else if pc.Take? || pc.Put? {
      GoodMover(w, queues, a, pc, i);
    } else if pc.Publish? || pc.Done2? {
      GoodCloser(w, queues, a, pc, i);
    } else {
      GoodOwner(w, queues, a, pc, i);
    }
  }

  lemma StepKeeps(s: State, a: nat, i: Input)
    requires Inv(s) && Typed(s) && a < |s.agents|
    ensures Inv(Step(false, s, a, i)) && Typed(Step(false, s, a, i))
  {
    GoodNext(s.w, s.queues, a, s.agents[a], i);
    ApplyKeeps(s, a, Next(false, s.w, s.queues, a, s.agents[a], i));
    InvTyped(Step(false, s, a, i));
  }

  lemma InitInv(w: nat, caps: seq<nat>, n: nat)
    requires w > 0 && ValidSizes(w, caps)
    ensures Inv(Init(w, caps, n))
  {
    var s := Init(w, caps, n);
    forall q | 0 <= q < |caps| ensures QueueInv(w, s.queues[q]) {
      SizeFacts(w, caps, q);
      assert s.queues[q] == NewQueue(caps[q]);
    }
  }
}
