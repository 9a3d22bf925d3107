/** Safety of the LIFO queue over every interleaving, on unbounded counters. */
module LifoSafety {
  import opened Words
  import opened Ring
  import opened LifoMachine

  /** In the window of one ring length above the released head, a slot holds an item
      exactly when it lies between the part of the open steal already vacated and the
      end of what the owner side has in place. */
  ghost predicate Window(Q: Queue)
    requires |Q.buffer| > 0
  {
    forall p :: Q.head <= p < Q.head + Q.cap ==>
      (Cell(Q.buffer, p).Held? <==> Q.head + Q.moved <= p < Tail(Q) + Q.ahead)
  }

  ghost predicate QueueInv(w: nat, Q: Queue) {
    && |Q.buffer| == Q.cap > 0
    && 2 * Q.cap <= w
    && w % Q.cap == 0
    && 0 <= Q.popCount
    && 0 <= Q.head
    && Q.head + Q.moved <= Q.booked <= Tail(Q)
    && Tail(Q) + Q.ahead <= Q.head + Q.cap
    && (Q.thief.None? ==> Q.head == Q.booked && Q.moved == 0)
    && (Q.thief.Some? ==> Q.head < Q.booked)
    && (Q.owner.None? ==> Q.ahead == 0)
    && Window(Q)
  }

  /** The owner side of `r.q` is with agent `a`, has `n` slots in place above the tail, and
      its loaded head is no newer than the released one. */
  ghost predicate Reserves(queues: seq<Queue>, a: nat, r: Reserve, n: int) {
    && r.q < |queues|
    && var Q := queues[r.q];
    && Q.owner == Some(a)
    && r.push == Q.pushCount
    && r.pop == Q.popCount
    && r.tail == r.push - r.pop
    && r.head <= Q.head
    && r.tail <= r.head + Q.cap
    && Q.ahead == n
  }

  ghost predicate SinkInv(queues: seq<Queue>, a: nat, to: Sink, n: int) {
    to.Into? ==>
      && Reserves(queues, a, to.r, n)
      && to.room == queues[to.r.q].cap - (to.r.tail - to.r.head)
  }

  /** A booking call: its words are no newer than the queue's. */
  ghost predicate BookInv(queues: seq<Queue>, a: nat, src: nat, to: Sink, since: Stamp, pop: int, head: int) {
    && src < |queues|
    && SinkInv(queues, a, to, 0)
    && since.pop <= pop <= queues[src].popCount
    && since.head <= head <= queues[src].booked
  }

  /** The head loaded by a booking call is no newer than the released one, and no older
      than one ring length before the call began. */
  ghost predicate SeenInv(queues: seq<Queue>, src: nat, since: Stamp, seen: int)
    requires src < |queues|
  {
    since.head - queues[src].cap <= seen <= queues[src].head
  }

  /** The steal open on `m.src` is `m`, it has vacated `k` slots and filled `n`. */
  ghost predicate MoveInv(queues: seq<Queue>, a: nat, m: Move, k: int) {
    && m.src < |queues|
    && var Q := queues[m.src];
    && Q.thief == Some(a)
    && m.from == Q.head
    && m.until == Q.booked
    && m.until == m.from + m.count
    && m.count >= 1
    && Q.moved == k
    && (m.to.Into? ==> Transfer(m) <= m.to.room)
  }

  ghost predicate AgentInv(queues: seq<Queue>, a: nat, pc: Agent) {
    var holds :=   // named, so that a use of it stays one fact
      match pc
      case Idle => true
      case Tail1(q, goal) => q < |queues| && queues[q].owner == Some(a) && queues[q].ahead == 0 && GoalTyped(|queues|, goal)
      case Tail2(q, goal, push) =>
        && q < |queues| && queues[q].owner == Some(a) && queues[q].ahead == 0 && GoalTyped(|queues|, goal)
        && push == queues[q].pushCount
      case Tail3(q, goal, push, pop, tail) =>
        && q < |queues| && queues[q].owner == Some(a) && queues[q].ahead == 0 && GoalTyped(|queues|, goal)
        && push == queues[q].pushCount && pop == queues[q].popCount && tail == push - pop
      case PushWrite(r, _) => Reserves(queues, a, r, 0) && r.tail < r.head + queues[r.q].cap
      case PushStore(r) => Reserves(queues, a, r, 1) && r.tail < r.head + queues[r.q].cap
      case Extend(r, n) => Reserves(queues, a, r, n) && r.tail + n <= r.head + queues[r.q].cap
      case Book1(src, to) => src < |queues| && SinkInv(queues, a, to, 0)
      case Book2(src, to, since, pop, head) =>
        BookInv(queues, a, src, to, since, pop, head) && head == since.head
      case Book3(src, to, since, pop, head, seen) =>
        && BookInv(queues, a, src, to, since, pop, head) && SeenInv(queues, src, since, seen)
        && (head == since.head || seen == since.head)
      case Book4(src, to, since, pop, head, seen, count) =>
        && BookInv(queues, a, src, to, since, pop, head) && SeenInv(queues, src, since, seen)
        && seen == head == since.head
        && 1 <= count
        && pop + head + count <= queues[src].pushCount
        && (to.Into? ==> count <= MaxCount(0, to))
      case Take(m, k) =>
        && MoveInv(queues, a, m, k)
        && k < m.count
        && SinkInv(queues, a, m.to, Min(k, Transfer(m)))
      case Put(m, k, _) =>
        && MoveInv(queues, a, m, k + 1)
        && m.to.Into? && k < Transfer(m)
        && SinkInv(queues, a, m.to, k)
      case Publish(m) =>
        && MoveInv(queues, a, m, m.count)
        && m.to.Into?
        && SinkInv(queues, a, m.to, Transfer(m))
      case Release(m) => MoveInv(queues, a, m, m.count)
      case Pop1(q) => q < |queues| && queues[q].owner == Some(a) && queues[q].ahead == 0
      case Pop2(q, pop, head) =>
        && q < |queues| && queues[q].owner == Some(a) && queues[q].ahead == 0
        && pop == queues[q].popCount && head <= queues[q].booked
        && Tail(queues[q]) <= head + queues[q].cap
      case Pop3(q, pop, awaited, head, tail) =>
        && q < |queues| && queues[q].owner == Some(a) && queues[q].ahead == 0
        && pop == awaited == queues[q].popCount && head <= queues[q].booked
        && tail == Tail(queues[q]) <= head + queues[q].cap
      case Pop4(q, pos) =>
        q < |queues| && queues[q].owner == Some(a) && queues[q].ahead == 1 && pos == Tail(queues[q]);
    holds
  }

  /** The queue whose owner side an agent has. */
  function Owns(pc: Agent): Option<nat> {
    match pc
    case Tail1(q, _) => Some(q)
    case Tail2(q, _, _) => Some(q)
    case Tail3(q, _, _, _, _) => Some(q)
    case PushWrite(r, _) => Some(r.q)
    case PushStore(r) => Some(r.q)
    case Extend(r, _) => Some(r.q)
    case Book1(_, to) => Feeds(to)
    case Book2(_, to, _, _, _) => Feeds(to)
    case Book3(_, to, _, _, _, _) => Feeds(to)
    case Book4(_, to, _, _, _, _, _) => Feeds(to)
    case Take(m, _) => Feeds(m.to)
    case Put(m, _, _) => Feeds(m.to)
    case Publish(m) => Feeds(m.to)
    case Pop1(q) => Some(q)
    case Pop2(q, _, _) => Some(q)
    case Pop3(q, _, _, _, _) => Some(q)
    case Pop4(q, _) => Some(q)
    case Idle => None
    case Release(_) => None
  }

  function Feeds(to: Sink): Option<nat> {
    if to.Into? then Some(to.r.q) else None
  }

  /** The queue an agent has an open steal on. */
  function Robs(pc: Agent): Option<nat> {
    match pc
    case Take(m, _) => Some(m.src)
    case Put(m, _, _) => Some(m.src)
    case Publish(m) => Some(m.src)
    case Release(m) => Some(m.src)
    case _ => None
  }

  /** A queue's marks and an agent's roles agree. */
  ghost predicate Agree(Q: Queue, q: nat, a: nat, pc: Agent) {
    (Q.owner == Some(a) <==> Owns(pc) == Some(q)) && (Q.thief == Some(a) <==> Robs(pc) == Some(q))
  }

  /** The owner and thief marks of the queues are exactly the agents' roles. */
  ghost predicate Tokens(s: State) {
    && (forall q, a :: 0 <= q < |s.queues| && 0 <= a < |s.agents| ==> Agree(s.queues[q], q, a, s.agents[a]))
    && (forall q :: 0 <= q < |s.queues| ==>
          && (s.queues[q].owner.Some? ==> s.queues[q].owner.value < |s.agents|)
          && (s.queues[q].thief.Some? ==> s.queues[q].thief.value < |s.agents|))
  }

  ghost predicate QueuesInv(w: nat, queues: seq<Queue>) {
    w > 0 && forall q :: 0 <= q < |queues| ==> QueueInv(w, queues[q])
  }

  ghost predicate Inv(s: State) {
    && !s.fault
    && QueuesInv(s.w, s.queues)
    && (forall a :: 0 <= a < |s.agents| ==> AgentInv(s.queues, a, s.agents[a]))
    && Tokens(s)
  }

  lemma AgentInvTyped(queues: seq<Queue>, a: nat, pc: Agent)
    requires AgentInv(queues, a, pc)
    ensures AgentTyped(|queues|, pc)
  {
  }

  lemma InvTyped(s: State)
    requires Inv(s)
    ensures Typed(s)
  {
    forall a | 0 <= a < |s.agents| ensures AgentTyped(|s.queues|, s.agents[a]) {
      AgentInvTyped(s.queues, a, s.agents[a]);
    }
  }

  /** What a step of agent `a` may do to a queue, as far as every other agent can tell. */
  ghost predicate Evolves(Q: Queue, Q': Queue, a: nat) {
    && Q'.cap == Q.cap
    && Q.pushCount <= Q'.pushCount
    && Q.popCount <= Q'.popCount
    && Q.booked <= Q'.booked
    && Q.head <= Q'.head
    && (Q.owner.Some? && Q.owner != Some(a) ==>
          Q'.owner == Q.owner && Q'.pushCount == Q.pushCount && Q'.popCount == Q.popCount && Q'.ahead == Q.ahead)
    && (Q.thief.Some? && Q.thief != Some(a) ==>
          Q'.thief == Q.thief && Q'.head == Q.head && Q'.booked == Q.booked && Q'.moved == Q.moved)
  }

  /** A step of agent `a` changed at most queue `q`. */
  ghost predicate Passes(queues: seq<Queue>, queues': seq<Queue>, q: nat, a: nat) {
    && q < |queues| == |queues'|
    && queues' == queues[q := queues'[q]]
    && Evolves(queues[q], queues'[q], a)
  }

  lemma PassesAt(queues: seq<Queue>, queues': seq<Queue>, q: nat, a: nat, k: nat)
    requires Passes(queues, queues', q, a) && k < |queues|
    ensures Evolves(queues[k], queues'[k], a)
  {
    if k != q { assert queues'[k] == queues[k]; }
  }

  /** What an owner side knows of its queue is its own. */
  lemma OwnerStable(Q: Queue, Q': Queue, a: nat, b: nat)
    requires Evolves(Q, Q', a) && Q.owner == Some(b) && a != b
    ensures Q'.owner == Some(b) && Q'.pushCount == Q.pushCount && Q'.popCount == Q.popCount && Q'.ahead == Q.ahead
    ensures Q'.cap == Q.cap && Q.head <= Q'.head && Q.booked <= Q'.booked && Tail(Q') == Tail(Q)
  {
  }

  lemma ReservesStable(queues: seq<Queue>, queues': seq<Queue>, q: nat, a: nat, b: nat, r: Reserve, n: int)
    requires Passes(queues, queues', q, a) && a != b && Reserves(queues, b, r, n)
    ensures Reserves(queues', b, r, n) && queues'[r.q].cap == queues[r.q].cap
  {
    PassesAt(queues, queues', q, a, r.q);
    OwnerStable(queues[r.q], queues'[r.q], a, b);
  }

  lemma SinkStable(queues: seq<Queue>, queues': seq<Queue>, q: nat, a: nat, b: nat, to: Sink, n: int)
    requires Passes(queues, queues', q, a) && a != b && SinkInv(queues, b, to, n)
    ensures SinkInv(queues', b, to, n)
  {
    if to.Into? { ReservesStable(queues, queues', q, a, b, to.r, n); }
  }

  /** The words of a booking call are stale words of counters that never go back. */
  lemma BookStable(queues: seq<Queue>, queues': seq<Queue>, q: nat, a: nat, b: nat, src: nat, to: Sink, since: Stamp, pop: int, head: int)
    requires Passes(queues, queues', q, a) && a != b && BookInv(queues, b, src, to, since, pop, head)
    ensures BookInv(queues', b, src, to, since, pop, head)
    ensures queues[src].pushCount <= queues'[src].pushCount
    ensures forall seen :: SeenInv(queues, src, since, seen) ==> SeenInv(queues', src, since, seen)
  {
    PassesAt(queues, queues', q, a, src);
    SinkStable(queues, queues', q, a, b, to, 0);
  }

  /** An open steal has its range to itself. */
  lemma MoveStable(queues: seq<Queue>, queues': seq<Queue>, q: nat, a: nat, b: nat, m: Move, k: int)
    requires Passes(queues, queues', q, a) && a != b && MoveInv(queues, b, m, k)
    ensures MoveInv(queues', b, m, k)
  {
    PassesAt(queues, queues', q, a, m.src);
  }

  lemma StableOwner(queues: seq<Queue>, queues': seq<Queue>, q: nat, a: nat, b: nat, pc: Agent)
    requires Passes(queues, queues', q, a) && a != b && AgentInv(queues, b, pc)
    requires pc.Tail1? || pc.Tail2? || pc.Tail3? || pc.Pop1? || pc.Pop2? || pc.Pop3? || pc.Pop4?
    ensures AgentInv(queues', b, pc)
  {
    PassesAt(queues, queues', q, a, pc.q);
    OwnerStable(queues[pc.q], queues'[pc.q], a, b);
  }

  lemma StableFiller(queues: seq<Queue>, queues': seq<Queue>, q: nat, a: nat, b: nat, pc: Agent)
    requires Passes(queues, queues', q, a) && a != b && AgentInv(queues, b, pc)
    requires pc.PushWrite? || pc.PushStore? || pc.Extend?
    ensures AgentInv(queues', b, pc)
  {
    match pc
    case PushWrite(r, _) => ReservesStable(queues, queues', q, a, b, r, 0);
    case PushStore(r) => ReservesStable(queues, queues', q, a, b, r, 1);
    case Extend(r, n) => ReservesStable(queues, queues', q, a, b, r, n);
  }

  lemma StableBooker(queues: seq<Queue>, queues': seq<Queue>, q: nat, a: nat, b: nat, pc: Agent)
    requires Passes(queues, queues', q, a) && a != b && AgentInv(queues, b, pc)
    requires pc.Book1? || pc.Book2? || pc.Book3? || pc.Book4?
    ensures AgentInv(queues', b, pc)
  {
    match pc
    case Book1(_, to) => SinkStable(queues, queues', q, a, b, to, 0);
    case Book2(src, to, since, pop, head) => BookStable(queues, queues', q, a, b, src, to, since, pop, head);
    case Book3(src, to, since, pop, head, _) => BookStable(queues, queues', q, a, b, src, to, since, pop, head);
    case Book4(src, to, since, pop, head, _, _) => BookStable(queues, queues', q, a, b, src, to, since, pop, head);
  }

  lemma StableMover(queues: seq<Queue>, queues': seq<Queue>, q: nat, a: nat, b: nat, pc: Agent)
    requires Passes(queues, queues', q, a) && a != b && AgentInv(queues, b, pc)
    requires pc.Take? || pc.Put? || pc.Publish? || pc.Release?
    ensures AgentInv(queues', b, pc)
  {
    MoveStable(queues, queues', q, a, b, pc.m, queues[pc.m.src].moved);
    match pc
    case Take(m, k) => SinkStable(queues, queues', q, a, b, m.to, Min(k, Transfer(m)));
    case Put(m, k, _) => SinkStable(queues, queues', q, a, b, m.to, k);
    case Publish(m) => SinkStable(queues, queues', q, a, b, m.to, Transfer(m));
    case Release(_) =>
  }

  /** Other agents' knowledge survives a step: what they hold is either theirs or a stale
      word of a counter that never goes back. */
  lemma Stable(queues: seq<Queue>, queues': seq<Queue>, q: nat, a: nat, b: nat, pc: Agent)
    requires Passes(queues, queues', q, a) && a != b && AgentInv(queues, b, pc)
    ensures AgentInv(queues', b, pc)
  {
    if pc.PushWrite? || pc.PushStore? || pc.Extend? {
      StableFiller(queues, queues', q, a, b, pc);
    } else if pc.Book1? || pc.Book2? || pc.Book3? || pc.Book4? {
      StableBooker(queues, queues', q, a, b, pc);
    } else if pc.Take? || pc.Put? || pc.Publish? || pc.Release? {
      StableMover(queues, queues', q, a, b, pc);
    } else if !pc.Idle? {
      StableOwner(queues, queues', q, a, b, pc);
    }
  }

  /** A mark on queue `q` and the role of agent `a` change together. */
  ghost predicate Token(t: Option<nat>, t': Option<nat>, a: nat, q: nat, role: Option<nat>, role': Option<nat>) {
    || (t' == t && role' == role)
    || (t == None && t' == Some(a) && role == None && role' == Some(q))
    || (t == Some(a) && t' == None && role == Some(q) && role' == None)
  }

  /** The effect of a step of agent `a` at `pc` is never a fault, re-establishes the
      invariant of what it touches, and disturbs nobody else. */
  ghost predicate Good(w: nat, queues: seq<Queue>, a: nat, pc: Agent, e: Effect) {
    var holds :=
      match e
      case Stay => true
      case Fault => false
      case Local(pc') => AgentInv(queues, a, pc') && Owns(pc') == Owns(pc) && Robs(pc') == Robs(pc)
      case On(pc', q, Q', _, _) =>
        && q < |queues|
        && QueueInv(w, Q')
        && AgentInv(queues[q := Q'], a, pc')
        && Evolves(queues[q], Q', a)
        && Token(queues[q].owner, Q'.owner, a, q, Owns(pc), Owns(pc'))
        && Token(queues[q].thief, Q'.thief, a, q, Robs(pc), Robs(pc'));
    holds
  }

  /** A mark and a role that change together, for another queue or another agent. */
  lemma MarkMoves(t: Option<nat>, t': Option<nat>, a: nat, q: nat, role: Option<nat>, role': Option<nat>, p: nat, u: Option<nat>, b: nat, other: Option<nat>)
    requires Token(t, t', a, q, role, role')
    requires (t == Some(a) <==> role == Some(q)) && (t == Some(b) <==> other == Some(q)) && (u == Some(a) <==> role == Some(p)) && (u == Some(b) <==> other == Some(p))
    requires (p == q ==> u == t) && (a == b ==> other == role)
    ensures (if p == q then t' else u) == Some(b) <==> (if a == b then role' else other) == Some(p)
  {
  }

  lemma AgreeMoves(Q: Queue, Q': Queue, a: nat, q: nat, pc: Agent, pc': Agent, P: Queue, p: nat, b: nat, other: Agent)
    requires Token(Q.owner, Q'.owner, a, q, Owns(pc), Owns(pc')) && Token(Q.thief, Q'.thief, a, q, Robs(pc), Robs(pc'))
    requires Agree(Q, q, a, pc) && Agree(Q, q, b, other) && Agree(P, p, a, pc) && Agree(P, p, b, other)
    requires (p == q ==> P == Q) && (a == b ==> other == pc)
    ensures Agree(if p == q then Q' else P, p, b, if a == b then pc' else other)
  {
    MarkMoves(Q.owner, Q'.owner, a, q, Owns(pc), Owns(pc'), p, P.owner, b, Owns(other));
    MarkMoves(Q.thief, Q'.thief, a, q, Robs(pc), Robs(pc'), p, P.thief, b, Robs(other));
  }

  /** Marks and roles of one queue and one agent change together. */
  lemma TokensMove(s: State, a: nat, pc: Agent, q: nat, Q: Queue)
    requires Tokens(s) && a < |s.agents| && q < |s.queues|
    requires Token(s.queues[q].owner, Q.owner, a, q, Owns(s.agents[a]), Owns(pc))
    requires Token(s.queues[q].thief, Q.thief, a, q, Robs(s.agents[a]), Robs(pc))
    ensures Tokens(s.(agents := s.agents[a := pc], queues := s.queues[q := Q]))
  {
    var queues, agents := s.queues[q := Q], s.agents[a := pc];
    forall p, b | 0 <= p < |queues| && 0 <= b < |agents| ensures Agree(queues[p], p, b, agents[b]) {
      AgreeMoves(s.queues[q], Q, a, q, s.agents[a], pc, s.queues[p], p, b, s.agents[b]);
    }
  }

  lemma ApplyTokens(s: State, a: nat, e: Effect)
    requires Tokens(s) && a < |s.agents| && Good(s.w, s.queues, a, s.agents[a], e)
    ensures Tokens(Apply(s, a, e))
  {
    if e.On? { TokensMove(s, a, e.pc, e.q, e.queue); }
  }

  lemma ApplyAgents(s: State, a: nat, e: Effect, b: nat)
    requires a < |s.agents| && Good(s.w, s.queues, a, s.agents[a], e)
    requires b < |s.agents| && AgentInv(s.queues, b, s.agents[b])
    ensures AgentInv(Apply(s, a, e).queues, b, Apply(s, a, e).agents[b])
  {
    if e.On? && b != a {
      Stable(s.queues, Apply(s, a, e).queues, e.q, a, b, s.agents[b]);
    }
  }

  /** A good effect keeps the invariant of the whole network. */
  lemma ApplyKeeps(s: State, a: nat, e: Effect)
    requires Inv(s) && a < |s.agents| && Good(s.w, s.queues, a, s.agents[a], e)
    ensures Inv(Apply(s, a, e))
  {
    ApplyTokens(s, a, e);
    forall b | 0 <= b < |s.agents| ensures AgentInv(Apply(s, a, e).queues, b, Apply(s, a, e).agents[b]) {
      ApplyAgents(s, a, e, b);
    }
  }

  lemma GoodAcquire(w: nat, queues: seq<Queue>, a: nat, q: nat, pc: Agent)
    requires QueuesInv(w, queues)
    requires q < |queues| ==> AgentInv(queues[q := queues[q].(owner := Some(a))], a, pc)
    requires Owns(pc) == Some(q) && Robs(pc) == None
    ensures Good(w, queues, a, Idle, Acquire(queues, a, q, pc))
  {
  }

  lemma GoodBegin(w: nat, queues: seq<Queue>, a: nat, i: Input)
    requires QueuesInv(w, queues)
    ensures Good(w, queues, a, Idle, Begin(queues, a, i))
  {
    match i
    case StartPush(q, x) => if q < |queues| && queues[q].owner.None? { GoodAcquire(w, queues, a, q, Tail1(q, ToPush(x))); }
    case StartExtend(q) => if q < |queues| && queues[q].owner.None? { GoodAcquire(w, queues, a, q, Tail1(q, ToExtend)); }
    case StartMeasure(q) => if q < |queues| && queues[q].owner.None? { GoodAcquire(w, queues, a, q, Tail1(q, ToMeasure)); }
    case StartSteal(src, dst, keep) =>
      if src < |queues| && dst < |queues| && queues[dst].owner.None? {
        GoodAcquire(w, queues, a, dst, Tail1(dst, ToSteal(src, keep)));
      }
    case StartPop(q) => if q < |queues| && queues[q].owner.None? { GoodAcquire(w, queues, a, q, Pop1(q)); }
    case _ =>
  }

  lemma GoodFinish(w: nat, queues: seq<Queue>, a: nat, pc: Agent, q: nat)
    requires QueuesInv(w, queues) && q < |queues| && queues[q].owner == Some(a) && queues[q].ahead == 0
    requires Owns(pc) == Some(q) && Robs(pc) == None
    ensures Good(w, queues, a, pc, Finish(queues, q))
  {
  }

  lemma GoodAbort(w: nat, queues: seq<Queue>, a: nat, pc: Agent, to: Sink)
    requires QueuesInv(w, queues) && SinkTyped(|queues|, to) && SinkInv(queues, a, to, 0)
    requires Owns(pc) == Feeds(to) && Robs(pc) == None
    ensures Good(w, queues, a, pc, Abort(queues, to))
  {
    if to.Into? {
      GoodFinish(w, queues, a, pc, to.r.q);
    }
  }

  lemma GoodReserved(w: nat, queues: seq<Queue>, a: nat, pc: Agent)
    requires QueuesInv(w, queues) && pc.Tail3? && AgentInv(queues, a, pc)
    ensures Good(w, queues, a, pc, Reserved(false, w, queues, Reserve(pc.q, pc.push, pc.pop, pc.tail, queues[pc.q].head), pc.goal))
  {
    GoodFinish(w, queues, a, pc, pc.q);
  }

  /** The queue with the next slot above its tail filled by the owner side. */
  function Filled(Q: Queue, item: Item): Queue
    requires |Q.buffer| > 0
  {
    Q.(buffer := Write(Q.buffer, Tail(Q) + Q.ahead, Held(item)), ahead := Q.ahead + 1)
  }

  /** Writing the next slot above the tail finds it vacant and touches no live item. */
  lemma FilledInv(w: nat, Q: Queue, item: Item)
    requires QueueInv(w, Q) && Q.owner.Some? && Tail(Q) + Q.ahead < Q.head + Q.cap
    ensures Cell(Q.buffer, Tail(Q) + Q.ahead).Vacant?
    ensures QueueInv(w, Filled(Q, item))
  {
    var pos := Tail(Q) + Q.ahead;
    forall p | Q.head <= p < Q.head + Q.cap
      ensures Cell(Filled(Q, item).buffer, p).Held? <==> Q.head + Q.moved <= p < pos + 1
    {
      CellWrite(Q.buffer, pos, Held(item), p);
    }
  }

  lemma PublishedInv(w: nat, Q: Queue)
    requires QueueInv(w, Q)
    ensures QueueInv(w, Published(Q, Q.pushCount + Q.ahead))
  {
  }

  lemma GoodFill(w: nat, queues: seq<Queue>, a: nat, pc: Agent, pc': Agent, q: nat, item: Item, put: multiset<Item>)
    requires QueuesInv(w, queues) && q < |queues| && queues[q].owner == Some(a)
    requires |queues[q].buffer| > 0 && Tail(queues[q]) + queues[q].ahead < queues[q].head + queues[q].cap
    requires Owns(pc') == Owns(pc) && Robs(pc') == Robs(pc)
    requires AgentInv(queues[q := Filled(queues[q], item)], a, pc')
    ensures Good(w, queues, a, pc, WriteSlot(pc', q, queues[q], Tail(queues[q]) + queues[q].ahead, item, put))
  {
    FilledInv(w, queues[q], item);
  }

  lemma GoodStore(w: nat, queues: seq<Queue>, a: nat, pc: Agent, q: nat, push: int)
    requires QueuesInv(w, queues) && q < |queues| && queues[q].owner == Some(a)
    requires Owns(pc) == Some(q) && Robs(pc) == None && push == queues[q].pushCount + queues[q].ahead
    ensures Good(w, queues, a, pc, Only(Idle, q, Published(queues[q], push)))
  {
    PublishedInv(w, queues[q]);
  }

  lemma GoodPush(w: nat, queues: seq<Queue>, a: nat, pc: Agent, i: Input)
    requires QueuesInv(w, queues) && QueuesTyped(queues) && (pc.PushWrite? || pc.PushStore?) && AgentInv(queues, a, pc)
    ensures Good(w, queues, a, pc, Next(false, w, queues, a, pc, i))
  {
    if pc.PushWrite? {
      GoodFill(w, queues, a, pc, PushStore(pc.r), pc.r.q, pc.item, multiset{pc.item});
    } else {
      GoodStore(w, queues, a, pc, pc.r.q, pc.r.push + 1);
    }
  }

  lemma GoodExtendMore(w: nat, queues: seq<Queue>, a: nat, r: Reserve, n: nat, x: Item)
    requires QueuesInv(w, queues) && QueuesTyped(queues) && AgentInv(queues, a, Extend(r, n)) && r.tail + n != r.head + queues[r.q].cap
    ensures Good(w, queues, a, Extend(r, n), WriteSlot(Extend(r, n + 1), r.q, queues[r.q], r.tail + n, x, multiset{x}))
  {
    GoodFill(w, queues, a, Extend(r, n), Extend(r, n + 1), r.q, x, multiset{x});
  }

  lemma GoodExtendEnd(w: nat, queues: seq<Queue>, a: nat, r: Reserve, n: nat)
    requires QueuesInv(w, queues) && QueuesTyped(queues) && AgentInv(queues, a, Extend(r, n))
    ensures Good(w, queues, a, Extend(r, n), Only(Idle, r.q, Published(queues[r.q], r.tail + n + r.pop)))
  {
    GoodStore(w, queues, a, Extend(r, n), r.q, r.tail + n + r.pop);
  }

  lemma GoodExtend(w: nat, queues: seq<Queue>, a: nat, r: Reserve, n: nat, i: Input)
    requires QueuesInv(w, queues) && QueuesTyped(queues) && AgentInv(queues, a, Extend(r, n))
    ensures Good(w, queues, a, Extend(r, n), StepExtend(false, w, queues[r.q], i, r, n))
  {
    if i.Give? && r.tail + n != r.head + queues[r.q].cap {
      GoodExtendMore(w, queues, a, r, n, i.item);
    } else {
      GoodExtendEnd(w, queues, a, r, n);
    }
  }

  lemma GoodSize(w: nat, queues: seq<Queue>, a: nat, pc: Agent, i: Input)
    requires QueuesInv(w, queues) && pc.Book3? && AgentInv(queues, a, pc)
    ensures Good(w, queues, a, pc, StepSize(false, w, queues, i, pc.src, pc.to, pc.since, pc.pop, pc.head, pc.seen))
  {
    GoodAbort(w, queues, a, pc, pc.to);
  }

  /** The queue after a steal has booked its front `count` items. */
  function Booked(Q: Queue, a: nat, count: int): Queue {
    Q.(booked := Q.booked + count, thief := Some(a), moved := 0)
  }

  lemma BookIs(w: nat, Q: Queue, a: nat, i: Input, pc: Agent)
    requires w > 0 && pc.Book4?
    ensures StepBook(false, w, Q, a, i, pc.src, pc.to, pc.since, pc.pop, pc.head, pc.seen, pc.count)
      == if Q.popCount == pc.pop && Q.booked == pc.head && !i.Flaky?
         then Only(Take(Move(pc.src, pc.to, pc.head, pc.count, pc.head + pc.count), 0), pc.src, Booked(Q, a, pc.count))
         else Local(Book3(pc.src, pc.to, pc.since, Q.popCount, Q.booked, pc.seen))
  {
  }

  /** A successful booking CAS proves the stale `seen` current: it is at most the released
      head, which is at most the booked head, which the CAS found equal to `seen`. So no
      other steal is open, and the count computed from older words is still available. */
  lemma GoodBooked(w: nat, queues: seq<Queue>, a: nat, pc: Agent)
    requires QueuesInv(w, queues) && pc.Book4? && AgentInv(queues, a, pc)
    requires queues[pc.src].popCount == pc.pop && queues[pc.src].booked == pc.head
    ensures var m := Move(pc.src, pc.to, pc.head, pc.count, pc.head + pc.count);
      Good(w, queues, a, pc, Only(Take(m, 0), pc.src, Booked(queues[pc.src], a, pc.count)))
  {
    var Q := queues[pc.src];
    assert QueueInv(w, Q);
    assert Q.head == Q.booked && Q.thief.None?;
    assert QueueInv(w, Booked(Q, a, pc.count));
  }

  lemma GoodReloaded(w: nat, queues: seq<Queue>, a: nat, pc: Agent)
    requires QueuesInv(w, queues) && pc.Book4? && AgentInv(queues, a, pc)
    ensures Good(w, queues, a, pc, Local(Book3(pc.src, pc.to, pc.since, queues[pc.src].popCount, queues[pc.src].booked, pc.seen)))
  {
  }

  lemma GoodCas(w: nat, queues: seq<Queue>, a: nat, pc: Agent, i: Input)
    requires QueuesInv(w, queues) && pc.Book4? && AgentInv(queues, a, pc)
    ensures Good(w, queues, a, pc, StepBook(false, w, queues[pc.src], a, i, pc.src, pc.to, pc.since, pc.pop, pc.head, pc.seen, pc.count))
  {
    BookIs(w, queues[pc.src], a, i, pc);
    if queues[pc.src].popCount == pc.pop && queues[pc.src].booked == pc.head && !i.Flaky? {
      GoodBooked(w, queues, a, pc);
    } else {
      GoodReloaded(w, queues, a, pc);
    }
  }

  /** The queue after its open steal has moved the next item out. */
  function Looted(Q: Queue): Queue
    requires |Q.buffer| > 0
  {
    Vacate(Q, Q.head + Q.moved).(moved := Q.moved + 1)
  }

  /** Moving the next booked item out finds it in place. */
  lemma LootedInv(w: nat, Q: Queue)
    requires QueueInv(w, Q) && Q.head + Q.moved < Q.booked
    ensures Cell(Q.buffer, Q.head + Q.moved).Held?
    ensures QueueInv(w, Looted(Q))
  {
    var pos := Q.head + Q.moved;
    forall p | Q.head <= p < Q.head + Q.cap
      ensures Cell(Looted(Q).buffer, p).Held? <==> pos + 1 <= p < Tail(Q) + Q.ahead
    {
      CellWrite(Q.buffer, pos, Vacant, p);
    }
  }

  /** Any continuation of a steal that has just moved its next item out. */
  lemma GoodLoot(w: nat, queues: seq<Queue>, a: nat, pc: Agent, pc': Agent, q: nat, got: multiset<Item>)
    requires QueuesInv(w, queues) && q < |queues| && queues[q].thief == Some(a)
    requires |queues[q].buffer| > 0 && queues[q].head + queues[q].moved < queues[q].booked
    requires Owns(pc') == Owns(pc) && Robs(pc') == Robs(pc)
    requires AgentInv(queues[q := Looted(queues[q])], a, pc')
    ensures Good(w, queues, a, pc, On(pc', q, Looted(queues[q]), multiset{}, got))
  {
    LootedInv(w, queues[q]);
  }

  /** Where a steal goes on after moving item `k` out. */
  function AfterTake(m: Move, k: nat, x: Item): Agent {
    if m.to.Into? then (if k < Transfer(m) then Put(m, k, x) else Publish(m))
    else if m.from + k + 1 == m.until then Release(m) else Take(m, k + 1)
  }

  lemma TakeAgent(queues: seq<Queue>, a: nat, m: Move, k: nat, x: Item, Q': Queue)
    requires AgentInv(queues, a, Take(m, k))
    requires Q' == queues[m.src].(moved := k + 1, buffer := Q'.buffer)
    ensures AgentInv(queues[m.src := Q'], a, AfterTake(m, k, x))
    ensures Owns(AfterTake(m, k, x)) == Feeds(m.to) && Robs(AfterTake(m, k, x)) == Some(m.src)
  {
  }

  lemma TakeIs(w: nat, Q: Queue, m: Move, k: nat)
    requires w > 0 && QueueInv(w, Q) && m.from == Q.head && k == Q.moved && Q.head + k < Q.booked
    ensures Cell(Q.buffer, m.from + k).Held?
    ensures var x := Cell(Q.buffer, m.from + k).item;
      StepTake(false, w, Q, m, k) == On(AfterTake(m, k, x), m.src, Looted(Q), multiset{},
        if m.to.Into? && k < Transfer(m) then multiset{} else multiset{x})
  {
    LootedInv(w, Q);
  }

  lemma GoodTake(w: nat, queues: seq<Queue>, a: nat, m: Move, k: nat)
    requires QueuesInv(w, queues) && QueuesTyped(queues) && AgentInv(queues, a, Take(m, k))
    ensures Good(w, queues, a, Take(m, k), StepTake(false, w, queues[m.src], m, k))
  {
    var Q := queues[m.src];
    TakeIs(w, Q, m, k);
    var x := Cell(Q.buffer, m.from + k).item;
    TakeAgent(queues, a, m, k, x, Looted(Q));
    GoodLoot(w, queues, a, Take(m, k), AfterTake(m, k, x), m.src, StepTake(false, w, Q, m, k).got);
  }

  lemma GoodPut(w: nat, queues: seq<Queue>, a: nat, pc: Agent)
    requires QueuesInv(w, queues) && QueuesTyped(queues) && pc.Put? && AgentInv(queues, a, pc)
    ensures Good(w, queues, a, pc, StepPut(false, w, queues[pc.m.to.r.q], pc.m, pc.k, pc.item))
  {
    FilledInv(w, queues[pc.m.to.r.q], pc.item);
  }

  /** Releasing the head shifts the window past slots that are all vacant. */
  lemma ReleasedInv(w: nat, Q: Queue)
    requires QueueInv(w, Q) && Q.head + Q.moved == Q.booked
    ensures QueueInv(w, Q.(head := Q.booked, thief := None, moved := 0))
  {
    forall p | Q.booked <= p < Q.booked + Q.cap
      ensures Cell(Q.buffer, p).Held? <==> Q.booked <= p < Tail(Q) + Q.ahead
    {
      if p >= Q.head + Q.cap {
        CellAlias(Q.buffer, p - Q.cap);
      }
    }
  }

  lemma GoodPublishRelease(w: nat, queues: seq<Queue>, a: nat, pc: Agent, i: Input)
    requires QueuesInv(w, queues) && QueuesTyped(queues) && (pc.Publish? || pc.Release?) && AgentInv(queues, a, pc)
    ensures Good(w, queues, a, pc, Next(false, w, queues, a, pc, i))
  {
    if pc.Publish? {
      PublishedInv(w, queues[pc.m.to.r.q]);
    } else {
      ReleasedInv(w, queues[pc.m.src]);
    }
  }

  lemma GoodPop(w: nat, queues: seq<Queue>, a: nat, pc: Agent, i: Input)
    requires QueuesInv(w, queues) && pc.Pop3? && AgentInv(queues, a, pc)
    ensures Good(w, queues, a, pc, StepPop(false, w, queues[pc.q], i, pc.q, pc.pop, pc.awaited, pc.head, pc.tail))
  {
  }

  lemma ReadInv(w: nat, Q: Queue)
    requires QueueInv(w, Q) && Q.ahead == 1
    ensures Cell(Q.buffer, Tail(Q)).Held?
    ensures QueueInv(w, Vacate(Q, Tail(Q)).(ahead := 0, owner := None))
  {
    forall p | Q.head <= p < Q.head + Q.cap
      ensures Cell(Vacate(Q, Tail(Q)).buffer, p).Held? <==> Q.head + Q.moved <= p < Tail(Q)
    {
      CellWrite(Q.buffer, Tail(Q), Vacant, p);
    }
  }

  lemma GoodRead(w: nat, queues: seq<Queue>, a: nat, pc: Agent)
    requires QueuesInv(w, queues) && QueuesTyped(queues) && pc.Pop4? && AgentInv(queues, a, pc)
    ensures Good(w, queues, a, pc, StepRead(queues[pc.q], pc.q, pc.pos))
  {
    ReadInv(w, queues[pc.q]);
  }

  predicate IsLoad(pc: Agent) {
    pc.Tail1? || pc.Tail2? || pc.Book1? || pc.Book2? || pc.Pop1? || pc.Pop2?
  }

  lemma GoodLoad(w: nat, queues: seq<Queue>, a: nat, pc: Agent, i: Input)
    requires QueuesInv(w, queues) && QueuesTyped(queues) && IsLoad(pc) && AgentInv(queues, a, pc) && AgentTyped(|queues|, pc)
    ensures Good(w, queues, a, pc, Next(false, w, queues, a, pc, i))
  {
  }

  lemma GoodBooking(w: nat, queues: seq<Queue>, a: nat, pc: Agent, i: Input)
    requires QueuesInv(w, queues) && QueuesTyped(queues) && AgentInv(queues, a, pc) && AgentTyped(|queues|, pc)
    requires pc.Book3? || pc.Book4?
    ensures Good(w, queues, a, pc, Next(false, w, queues, a, pc, i))
  {
    if pc.Book3? { GoodSize(w, queues, a, pc, i); } else { GoodCas(w, queues, a, pc, i); }
  }

  lemma GoodMover(w: nat, queues: seq<Queue>, a: nat, pc: Agent, i: Input)
    requires QueuesInv(w, queues) && QueuesTyped(queues) && AgentInv(queues, a, pc) && AgentTyped(|queues|, pc)
    requires pc.Take? || pc.Put?
    ensures Good(w, queues, a, pc, Next(false, w, queues, a, pc, i))
  {
    if pc.Take? { GoodTake(w, queues, a, pc.m, pc.k); } else { GoodPut(w, queues, a, pc); }
  }

  lemma GoodOwner(w: nat, queues: seq<Queue>, a: nat, pc: Agent, i: Input)
    requires QueuesInv(w, queues) && QueuesTyped(queues) && AgentInv(queues, a, pc) && AgentTyped(|queues|, pc)
    requires pc.Tail3? || pc.Extend? || pc.Pop3? || pc.Pop4?
    ensures Good(w, queues, a, pc, Next(false, w, queues, a, pc, i))
  {
    match pc
    case Tail3(_, _, _, _, _) => GoodReserved(w, queues, a, pc);
    case Extend(r, n) => GoodExtend(w, queues, a, r, n, i);
    case Pop3(_, _, _, _, _) => GoodPop(w, queues, a, pc, i);
    case Pop4(_, _) => GoodRead(w, queues, a, pc);
  }

  /** Every atomic step of every agent is good. */
  lemma GoodNext(w: nat, queues: seq<Queue>, a: nat, pc: Agent, i: Input)
    requires QueuesInv(w, queues) && QueuesTyped(queues) && AgentInv(queues, a, pc) && AgentTyped(|queues|, pc)
    ensures Good(w, queues, a, pc, Next(false, w, queues, a, pc, i))
  {
    if pc.Idle? {
      GoodBegin(w, queues, a, i);
    } else if IsLoad(pc) {
      GoodLoad(w, queues, a, pc, i);
    } else if pc.PushWrite? || pc.PushStore? {
      GoodPush(w, queues, a, pc, i);
    } else if pc.Book3? || pc.Book4? {
      GoodBooking(w, queues, a, pc, i);
    } else if pc.Take? || pc.Put? {
      GoodMover(w, queues, a, pc, i);
    } else if pc.Publish? || pc.Release? {
      GoodPublishRelease(w, queues, a, pc, i);
    } else {
      GoodOwner(w, queues, a, pc, i);
    }
  }

  lemma StepKeeps(s: State, a: nat, i: Input)
    requires Inv(s) && Typed(s) && a < |s.agents|
    ensures Inv(Step(false, s, a, i)) && Typed(Step(false, s, a, i))
  {
    GoodNext(s.w, s.queues, a, s.agents[a], i);
    ApplyKeeps(s, a, Next(false, s.w, s.queues, a, s.agents[a], i));
    InvTyped(Step(false, s, a, i));
  }

  lemma InitInv(w: nat, caps: seq<nat>, n: nat)
    requires w > 0 && ValidSizes(w, caps)
    ensures Inv(Init(w, caps, n))
  {
    var s := Init(w, caps, n);
    forall q | 0 <= q < |caps| ensures QueueInv(w, s.queues[q]) {
      SizeFacts(w, caps, q);
      assert s.queues[q] == NewQueue(caps[q]);
    }
  }
}
