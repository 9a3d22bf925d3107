/** The LIFO work-stealing queue (src/lifo.rs): a network of queues whose operations
    run as interleaved agents, one atomic access or one slot access per step.

    `Step(true, ..)` is the shipped code on wrap-around words. `Step(false, ..)` is the
    same text on unbounded counters. Everything else about the two is identical. */
module LifoMachine {
  import opened Words
  import opened Ring

  /** One queue. `popCount` and `booked` share one atomic word in the code
      (`pop_count_and_head`). The last four fields are bookkeeping that the code does
      not store: which agent has the owner side, which agent has an open steal, how many
      booked slots that steal has vacated, and how many slots above the tail the owner
      side occupies (written but not yet published, or popped but not yet read). */
  datatype Queue = Queue(
    cap: nat,
    pushCount: int,
    popCount: int,
    booked: int,
    head: int,
    buffer: seq<Slot>,
    owner: Option<nat>,
    thief: Option<nat>,
    moved: nat,
    ahead: nat)

  /** What the owner side loaded before adding items to queue `q`. */
  datatype Reserve = Reserve(q: nat, push: int, pop: int, tail: int, head: int)

  datatype Goal =
    | ToPush(item: Item)
    | ToExtend
    | ToMeasure                             // spare_capacity
    | ToSteal(src: nat, keepLast: bool)     // steal, or steal_and_pop when `keepLast`

  /** Where stolen items go: to the consumer of a drain, or into a queue. */
  datatype Sink = Consumer | Into(r: Reserve, room: int, keepLast: bool)

  /** The packed word first loaded by a booking call, to measure its staleness. */
  datatype Stamp = Stamp(pop: int, head: int)

  /** An open steal: the booked range `from .. until` of `count` items. */
  datatype Move = Move(src: nat, to: Sink, from: int, count: int, until: int)

  datatype Agent =
    | Idle
    | Tail1(q: nat, goal: Goal)
    | Tail2(q: nat, goal: Goal, push: int)
    | Tail3(q: nat, goal: Goal, push: int, pop: int, tail: int)
    | PushWrite(r: Reserve, item: Item)
    | PushStore(r: Reserve)
    | Extend(r: Reserve, n: nat)
    | Book1(src: nat, to: Sink)
    | Book2(src: nat, to: Sink, since: Stamp, pop: int, head: int)
    | Book3(src: nat, to: Sink, since: Stamp, pop: int, head: int, seen: int)
    | Book4(src: nat, to: Sink, since: Stamp, pop: int, head: int, seen: int, count: int)
    | Take(m: Move, k: nat)
    | Put(m: Move, k: nat, item: Item)
    | Publish(m: Move)
    | Release(m: Move)
    | Pop1(q: nat)
    | Pop2(q: nat, pop: int, head: int)
    | Pop3(q: nat, pop: int, awaited: int, head: int, tail: int)
    | Pop4(q: nat, pos: int)

  /** What the environment decides at a step: the call to start, the next item of an
      iterator, the answer of `count_fn`, or a spurious failure of a weak CAS. */
  datatype Input =
    | Go
    | StartPush(q: nat, item: Item)
    | StartExtend(q: nat)
    | StartMeasure(q: nat)
    | StartSteal(src: nat, dst: nat, keepLast: bool)
    | StartDrain(src: nat)
    | StartPop(q: nat)
    | Give(item: Item)
    | Want(n: nat)
    | Flaky

  /** What one step does: nothing, an access the code must never make, a change of the
      agent alone, or a change of the agent and of queue `q`, writing the items `put` from
      outside and handing out the items `got`. */
  datatype Effect =
    | Stay
    | Fault
    | Local(pc: Agent)
    | On(pc: Agent, q: nat, queue: Queue, put: multiset<Item>, got: multiset<Item>)

  function Only(pc: Agent, q: nat, queue: Queue): Effect {
    On(pc, q, queue, multiset{}, multiset{})
  }

  function Tail(q: Queue): int { q.pushCount - q.popCount }

  predicate SinkTyped(n: nat, to: Sink) {
    to.Into? ==> to.r.q < n
  }

  predicate GoalTyped(n: nat, goal: Goal) {
    goal.ToSteal? ==> goal.src < n
  }

  /** Agents only name queues that exist. */
  predicate AgentTyped(n: nat, pc: Agent) {
    match pc
    case Idle => true
    case Tail1(q, goal) => q < n && GoalTyped(n, goal)
    case Tail2(q, goal, _) => q < n && GoalTyped(n, goal)
    case Tail3(q, goal, _, _, _) => q < n && GoalTyped(n, goal)
    case PushWrite(r, _) => r.q < n
    case PushStore(r) => r.q < n
    case Extend(r, _) => r.q < n
    case Book1(src, to) => src < n && SinkTyped(n, to)
    case Book2(src, to, _, _, _) => src < n && SinkTyped(n, to)
    case Book3(src, to, _, _, _, _) => src < n && SinkTyped(n, to)
    case Book4(src, to, _, _, _, _, _) => src < n && SinkTyped(n, to)
    case Take(m, _) => m.src < n && SinkTyped(n, m.to)
    case Put(m, _, _) => m.src < n && m.to.Into? && m.to.r.q < n
    case Publish(m) => m.src < n && m.to.Into? && m.to.r.q < n
    case Release(m) => m.src < n
    case Pop1(q) => q < n
    case Pop2(q, _, _) => q < n
    case Pop3(q, _, _, _, _) => q < n
    case Pop4(q, _) => q < n
  }

  predicate QueuesTyped(queues: seq<Queue>) {
    forall q :: 0 <= q < |queues| ==> |queues[q].buffer| == queues[q].cap > 0
  }

  function Begin(queues: seq<Queue>, a: nat, i: Input): Effect {
    match i
    case StartPush(q, x) => Acquire(queues, a, q, Tail1(q, ToPush(x)))
    case StartExtend(q) => Acquire(queues, a, q, Tail1(q, ToExtend))
    case StartMeasure(q) => Acquire(queues, a, q, Tail1(q, ToMeasure))
    case StartSteal(src, dst, keep) =>
      if src < |queues| then Acquire(queues, a, dst, Tail1(dst, ToSteal(src, keep))) else Stay
    case StartDrain(src) => if src < |queues| then Local(Book1(src, Consumer)) else Stay
    case StartPop(q) => Acquire(queues, a, q, Pop1(q))
    case _ => Stay
  }

  /** A `Worker` handle is used by one thread at a time. */
  function Acquire(queues: seq<Queue>, a: nat, q: nat, pc: Agent): Effect {
    if q < |queues| && queues[q].owner.None? then Only(pc, q, queues[q].(owner := Some(a))) else Stay
  }

  function Finish(queues: seq<Queue>, q: nat): Effect
    requires q < |queues|
  {
    Only(Idle, q, queues[q].(owner := None))
  }

  /** `book_items` returned an error. */
  function Abort(queues: seq<Queue>, to: Sink): Effect
    requires SinkTyped(|queues|, to)
  {
    match to
    case Consumer => Local(Idle)
    case Into(r, _, _) => Finish(queues, r.q)
  }

  /** The head has just been loaded: go on with the call that needed the free room. */
  function Reserved(wrap: bool, w: nat, queues: seq<Queue>, r: Reserve, goal: Goal): Effect
    requires w > 0 && r.q < |queues|
  {
    var cap := queues[r.q].cap;
    var len := N(wrap, w, r.tail - r.head);
    match goal
    case ToPush(x) => if len > cap - 1 then Finish(queues, r.q) else Local(PushWrite(r, x))
    case ToExtend => Local(Extend(r, 0))
    case ToMeasure => if len > cap then Fault else Finish(queues, r.q)
    case ToSteal(src, keep) => if len > cap then Fault else Local(Book1(src, Into(r, cap - len, keep)))
  }

  /** Write an item above the tail of `q`. */
  function WriteSlot(pc: Agent, q: nat, Q: Queue, pos: int, item: Item, put: multiset<Item>): Effect
    requires |Q.buffer| > 0
  {
    if Cell(Q.buffer, pos).Held? then Fault
    else On(pc, q, Q.(buffer := Write(Q.buffer, pos, Held(item)), ahead := Q.ahead + 1), put, multiset{})
  }

  /** Move the item at `pos` out, leaving the slot vacant. */
  function Vacate(Q: Queue, pos: int): Queue
    requires |Q.buffer| > 0
  {
    Q.(buffer := Write(Q.buffer, pos, Vacant))
  }

  /** The queue is published with push count `push`, ending the owner's call. */
  function Published(Q: Queue, push: int): Queue {
    Q.(pushCount := push, ahead := 0, owner := None)
  }

  function StepExtend(wrap: bool, w: nat, Q: Queue, i: Input, r: Reserve, n: nat): Effect
    requires w > 0 && |Q.buffer| > 0
  {
    var tail := N(wrap, w, r.tail + n);
    if i.Give? && tail != N(wrap, w, r.head + Q.cap) then
      WriteSlot(Extend(r, n + 1), r.q, Q, tail, i.item, multiset{i.item})
    else Only(Idle, r.q, Published(Q, N(wrap, w, tail + r.pop)))
  }

  /** `UnsignedShort::MAX` for a drain, else the free room of the destination. */
  function MaxCount(w: nat, to: Sink): int {
    match to
    case Consumer => w - 1
    case Into(_, room, keep) => if keep then room + 1 else room
  }

  /** What `count_fn` answered. */
  function Wanted(i: Input): nat {
    if i.Want? then i.n else 0
  }

  /** One round of the booking loop up to the CAS. */
  function StepSize(wrap: bool, w: nat, queues: seq<Queue>, i: Input, src: nat, to: Sink, since: Stamp, pop: int, head: int, seen: int): Effect
    requires w > 0 && src < |queues| && SinkTyped(|queues|, to)
  {
    var tail := N(wrap, w, queues[src].pushCount - pop);
    Round(w, queues, i, src, to, since, pop, head, seen, N(wrap, w, tail - head))
  }

  function Round(w: nat, queues: seq<Queue>, i: Input, src: nat, to: Sink, since: Stamp, pop: int, head: int, seen: int, itemCount: int): Effect
    requires SinkTyped(|queues|, to)
  {
    if seen != head || itemCount == 0 then Abort(queues, to)
    else
      var count := Min(Min(Wanted(i), MaxCount(w, to)), itemCount);
      if count == 0 then Abort(queues, to)
      else Local(Book4(src, to, since, pop, head, seen, count))
  }

  /** The booking CAS on `(pop_count, head)`. */
  function StepBook(wrap: bool, w: nat, Q: Queue, a: nat, i: Input, src: nat, to: Sink, since: Stamp, pop: int, head: int, seen: int, count: int): Effect
    requires w > 0
  {
    if Q.popCount == pop && Q.booked == head && !i.Flaky? then
      var newHead := N(wrap, w, head + count);
      Only(Take(Move(src, to, head, count, newHead), 0), src, Q.(booked := newHead, thief := Some(a), moved := 0))
    else Local(Book3(src, to, since, Q.popCount, Q.booked, seen))
  }

  /** How many of the booked items go to the destination queue. */
  function Transfer(m: Move): int {
    if m.to.Into? && m.to.keepLast then m.count - 1 else m.count
  }

  /** Move the next booked item out: to the consumer of a drain, to the destination of a
      steal, or, for the last item of `steal_and_pop`, to its caller. */
  function StepTake(wrap: bool, w: nat, Q: Queue, m: Move, k: nat): Effect
    requires w > 0 && |Q.buffer| > 0
  {
    TakeSlot(Q, m, k, N(wrap, w, m.from + k), N(wrap, w, m.from + k + 1) == m.until)
  }

  /** Move item `k` out of the slot at `pos`, the last one of a drain if `last`. */
  function TakeSlot(Q: Queue, m: Move, k: nat, pos: int, last: bool): Effect
    requires |Q.buffer| > 0
  {
    match Cell(Q.buffer, pos)
    case Vacant => Fault
    case Held(x) =>
      var Q' := Vacate(Q, pos).(moved := Q.moved + 1);
      match m.to
      case Consumer => On(if last then Release(m) else Take(m, k + 1), m.src, Q', multiset{}, multiset{x})
      case Into(_, _, _) =>
        if k < Transfer(m) then Only(Put(m, k, x), m.src, Q')
        else On(Publish(m), m.src, Q', multiset{}, multiset{x})
  }

  function StepPut(wrap: bool, w: nat, Q: Queue, m: Move, k: nat, item: Item): Effect
    requires w > 0 && |Q.buffer| > 0 && m.to.Into?
  {
    var pc := if k + 1 < Transfer(m) || m.to.keepLast then Take(m, k + 1) else Publish(m);
    WriteSlot(pc, m.to.r.q, Q, N(wrap, w, m.to.r.tail + k), item, multiset{})
  }

  function StepPop(wrap: bool, w: nat, Q: Queue, i: Input, q: nat, pop: int, awaited: int, head: int, tail: int): Effect
    requires w > 0
  {
    if tail == head then Only(Idle, q, Q.(owner := None))
    else if Q.popCount == awaited && Q.booked == head && !i.Flaky? then
      Only(Pop4(q, N(wrap, w, tail - 1)), q, Q.(popCount := N(wrap, w, pop + 1), booked := head, ahead := 1))
    else Local(Pop3(q, pop, Q.popCount, Q.booked, tail))
  }

  function StepRead(Q: Queue, q: nat, pos: int): Effect
    requires |Q.buffer| > 0
  {
    match Cell(Q.buffer, pos)
    case Vacant => Fault
    case Held(x) => On(Idle, q, Vacate(Q, pos).(ahead := 0, owner := None), multiset{}, multiset{x})
  }

  /** The next atomic step of agent `a`, which is at `pc`. */
  function Next(wrap: bool, w: nat, queues: seq<Queue>, a: nat, pc: Agent, i: Input): Effect
    requires w > 0 && QueuesTyped(queues) && AgentTyped(|queues|, pc)
  {
    match pc
    case Idle => Begin(queues, a, i)
    case Tail1(q, goal) => Local(Tail2(q, goal, queues[q].pushCount))
    case Tail2(q, goal, push) =>
      var pop := queues[q].popCount;
      Local(Tail3(q, goal, push, pop, N(wrap, w, push - pop)))
    case Tail3(q, goal, push, pop, tail) => Reserved(wrap, w, queues, Reserve(q, push, pop, tail, queues[q].head), goal)
    case PushWrite(r, x) => WriteSlot(PushStore(r), r.q, queues[r.q], r.tail, x, multiset{x})
    case PushStore(r) => Only(Idle, r.q, Published(queues[r.q], N(wrap, w, r.push + 1)))
    case Extend(r, n) => StepExtend(wrap, w, queues[r.q], i, r, n)
    case Book1(src, to) =>
      var Q := queues[src];
      Local(Book2(src, to, Stamp(Q.popCount, Q.booked), Q.popCount, Q.booked))
    case Book2(src, to, since, pop, head) => Local(Book3(src, to, since, pop, head, queues[src].head))
    case Book3(src, to, since, pop, head, seen) => StepSize(wrap, w, queues, i, src, to, since, pop, head, seen)
    case Book4(src, to, since, pop, head, seen, count) =>
      StepBook(wrap, w, queues[src], a, i, src, to, since, pop, head, seen, count)
    case Take(m, k) => StepTake(wrap, w, queues[m.src], m, k)
    case Put(m, k, x) => StepPut(wrap, w, queues[m.to.r.q], m, k, x)
    case Publish(m) =>
      var r := m.to.r;
      Only(Release(m), r.q, Published(queues[r.q], N(wrap, w, r.push + Transfer(m))))
    case Release(m) => Only(Idle, m.src, queues[m.src].(head := m.until, thief := None, moved := 0))
    case Pop1(q) => Local(Pop2(q, queues[q].popCount, queues[q].booked))
    case Pop2(q, pop, head) => Local(Pop3(q, pop, pop, head, N(wrap, w, queues[q].pushCount - pop)))
    case Pop3(q, pop, awaited, head, tail) => StepPop(wrap, w, queues[q], i, q, pop, awaited, head, tail)
    case Pop4(q, pos) => StepRead(queues[q], q, pos)
  }

  /** `fault` records that some step was a `Fault`. `pushed` and `consumed` are the items
      ever written from outside and ever handed out. */
  datatype State = State(
    w: nat,
    queues: seq<Queue>,
    agents: seq<Agent>,
    pushed: multiset<Item>,
    consumed: multiset<Item>,
    fault: bool)

  predicate Typed(s: State) {
    && s.w > 0
    && QueuesTyped(s.queues)
    && (forall a :: 0 <= a < |s.agents| ==> AgentTyped(|s.queues|, s.agents[a]))
  }

  function Apply(s: State, a: nat, e: Effect): State
    requires a < |s.agents|
  {
    match e
    case Stay => s
    case Fault => s.(fault := true)
    case Local(pc) => s.(agents := s.agents[a := pc])
    case On(pc, q, queue, put, got) =>
      if q < |s.queues| then
        s.(agents := s.agents[a := pc], queues := s.queues[q := queue],
           pushed := s.pushed + put, consumed := s.consumed + got)
      else s
  }

  function Step(wrap: bool, s: State, a: nat, i: Input): State
    requires Typed(s) && a < |s.agents|
  {
    Apply(s, a, Next(wrap, s.w, s.queues, a, s.agents[a], i))
  }

  function NewQueue(cap: nat): Queue {
    Queue(cap, 0, 0, 0, 0, seq(cap, _ => Vacant), None, None, 0, 0)
  }

  /** New queues of the given capacities, and any number of agents with nothing to do. */
  function Init(w: nat, caps: seq<nat>, agents: nat): State {
    State(w,
          seq(|caps|, i requires 0 <= i < |caps| => NewQueue(caps[i])),
          seq(agents, _ => Idle), multiset{}, multiset{}, false)
  }

  /** A schedule: which agent moves, and what the environment decides for it. */
  datatype Act = Act(agent: nat, input: Input)

  /** The state after a schedule; moves of agents that do not exist are skipped. */
  function Run(wrap: bool, s: State, acts: seq<Act>): State
    decreases |acts|
  {
    if acts == [] || !Typed(s) then s
    else if acts[0].agent < |s.agents| then
      Run(wrap, Step(wrap, s, acts[0].agent, acts[0].input), acts[1..])
    else Run(wrap, s, acts[1..])
  }
}
