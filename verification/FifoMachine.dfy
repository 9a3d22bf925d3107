/** The FIFO work-stealing queue (src/fifo.rs): a network of queues whose operations run as
    interleaved agents, one atomic access or one slot access per step.

    `Step(true, ..)` is the shipped code on wrap-around words. `Step(false, ..)` is the
    same text on unbounded positions. */
module FifoMachine {
  import opened Words
  import opened Ring

  /** One queue. `worker` and `stealer` share one atomic word in the code (`heads`). The
      last six fields are bookkeeping that the code does not store: which agent has the owner
      side, which agent has an open steal, where its booked range ends and how many slots of
      it are vacated, how many slots above the tail the owner side has written, and the
      popped position that the owner side has yet to read. */
  datatype Queue = Queue(
    cap: nat,
    tail: int,
    worker: int,
    stealer: int,
    buffer: seq<Slot>,
    owner: Option<nat>,
    thief: Option<nat>,
    until: int,
    moved: nat,
    ahead: nat,
    reading: Option<int>)

  /** What the owner side loaded before adding items to queue `q`. */
  datatype Reserve = Reserve(q: nat, tail: int, head: int)

  datatype Goal =
    | ToPush(item: Item)
    | ToExtend
    | ToMeasure     // spare_capacity

  /** Where stolen items go: to the consumer of a drain, or into a queue. */
  datatype Sink = Consumer | Into(r: Reserve, room: int, keepLast: bool)

  /** An open steal: the booked range `from .. until` of `count` items. */
  datatype Move = Move(src: nat, to: Sink, from: int, count: int, until: int)

  /** `since` is the worker head that a booking call loaded first, to measure its staleness. */
  datatype Agent =
    | Idle
    | Room1(q: nat, goal: Goal)
    | Room2(q: nat, goal: Goal, stealer: int)
    | Dest1(q: nat, src: nat, keepLast: bool)
    | Dest2(q: nat, src: nat, keepLast: bool, tail: int)
    | Empty1(q: nat)
    | Empty2(q: nat, worker: int)
    | PushWrite(r: Reserve, item: Item)
    | PushStore(r: Reserve)
    | Extend(r: Reserve, n: nat)
    | Book1(src: nat, to: Sink)
    | Book2(src: nat, to: Sink, since: int, worker: int, stealer: int)
    | Book3(src: nat, to: Sink, since: int, worker: int, stealer: int, count: int)
    | Take(m: Move, k: nat)
    | Put(m: Move, k: nat, item: Item)
    | Publish(m: Move)
    | Done1(m: Move)
    | Done2(m: Move, worker: int, stealer: int)
    | Pop1(q: nat)
    | Pop2(q: nat, worker: int, stealer: int)
    | Pop3(q: nat, worker: int, stealer: int)
    | Pop4(q: nat, pos: int)

  /** What the environment decides at a step. */
  datatype Input =
    | Go
    | StartPush(q: nat, item: Item)
    | StartExtend(q: nat)
    | StartMeasure(q: nat)
    | StartIsEmpty(q: nat)
    | StartSteal(src: nat, dst: nat, keepLast: bool)
    | StartDrain(src: nat)
    | StartPop(q: nat)
    | Give(item: Item)
    | Want(n: nat)
    | Flaky

  /** What one step does: nothing, an access or a failed assertion that must never happen, a
      change of the agent alone, or a change of the agent and of queue `q`. */
  datatype Effect =
    | Stay
    | Fault
    | Local(pc: Agent)
    | On(pc: Agent, q: nat, queue: Queue, put: multiset<Item>, got: multiset<Item>)

  function Only(pc: Agent, q: nat, queue: Queue): Effect {
    On(pc, q, queue, multiset{}, multiset{})
  }

  predicate SinkTyped(n: nat, to: Sink) {
    to.Into? ==> to.r.q < n
  }

  /** Agents only name queues that exist. */
  predicate AgentTyped(n: nat, pc: Agent) {
    match pc
    case Idle => true
    case Room1(q, _) => q < n
    case Room2(q, _, _) => q < n
    case Dest1(q, src, _) => q < n && src < n
    case Dest2(q, src, _, _) => q < n && src < n
    case Empty1(q) => q < n
    case Empty2(q, _) => q < n
    case PushWrite(r, _) => r.q < n
    case PushStore(r) => r.q < n
    case Extend(r, _) => r.q < n
    case Book1(src, to) => src < n && SinkTyped(n, to)
    case Book2(src, to, _, _, _) => src < n && SinkTyped(n, to)
    case Book3(src, to, _, _, _, _) => src < n && SinkTyped(n, to)
    case Take(m, _) => m.src < n && SinkTyped(n, m.to)
    case Put(m, _, _) => m.src < n && m.to.Into? && m.to.r.q < n
    case Publish(m) => m.src < n && m.to.Into? && m.to.r.q < n
    case Done1(m) => m.src < n
    case Done2(m, _, _) => m.src < n
    case Pop1(q) => q < n
    case Pop2(q, _, _) => q < n
    case Pop3(q, _, _) => q < n
    case Pop4(q, _) => q < n
  }

  predicate QueuesTyped(queues: seq<Queue>) {
    forall q :: 0 <= q < |queues| ==> |queues[q].buffer| == queues[q].cap > 0
  }

  /** A `Worker` handle is used by one thread at a time. */
  function Acquire(queues: seq<Queue>, a: nat, q: nat, pc: Agent): Effect {
    if q < |queues| && queues[q].owner.None? then Only(pc, q, queues[q].(owner := Some(a))) else Stay
  }

  function Begin(queues: seq<Queue>, a: nat, i: Input): Effect {
    match i
    case StartPush(q, x) => Acquire(queues, a, q, Room1(q, ToPush(x)))
    case StartExtend(q) => Acquire(queues, a, q, Room1(q, ToExtend))
    case StartMeasure(q) => Acquire(queues, a, q, Room1(q, ToMeasure))
    case StartIsEmpty(q) => Acquire(queues, a, q, Empty1(q))
    case StartSteal(src, dst, keep) =>
      if src < |queues| then Acquire(queues, a, dst, Dest1(dst, src, keep)) else Stay
    case StartDrain(src) => if src < |queues| then Local(Book1(src, Consumer)) else Stay
    case StartPop(q) => Acquire(queues, a, q, Pop1(q))
    case _ => Stay
  }

  function Finish(queues: seq<Queue>, q: nat): Effect
    requires q < |queues|
  {
    Only(Idle, q, queues[q].(owner := None))
  }

  /** `book_items` returned an error. */
  function Abort(queues: seq<Queue>, to: Sink): Effect
    requires SinkTyped(|queues|, to)
  {
    match to
    case Consumer => Local(Idle)
    case Into(r, _, _) => Finish(queues, r.q)
  }

  /** Both the tail and the stealer head are loaded: go on with the call that needed room. */
  function Reserved(wrap: bool, w: nat, queues: seq<Queue>, r: Reserve, goal: Goal): Effect
    requires w > 0 && r.q < |queues|
  {
    var cap := queues[r.q].cap;
    var len := N(wrap, w, r.tail - r.head);
    match goal
    case ToPush(x) => if len > cap - 1 then Finish(queues, r.q) else Local(PushWrite(r, x))
    case ToExtend => Local(Extend(r, 0))
    case ToMeasure => if len > cap then Fault else Finish(queues, r.q)
  }

  /** The free room of the destination of a steal. */
  function Measured(wrap: bool, w: nat, queues: seq<Queue>, r: Reserve, src: nat, keepLast: bool): Effect
    requires w > 0 && r.q < |queues|
  {
    var len := N(wrap, w, r.tail - r.head);
    if len > queues[r.q].cap then Fault else Local(Book1(src, Into(r, queues[r.q].cap - len, keepLast)))
  }

  /** Write an item above the tail of `q`. */
  function WriteSlot(pc: Agent, q: nat, Q: Queue, pos: int, item: Item, put: multiset<Item>): Effect
    requires |Q.buffer| > 0
  {
    if Cell(Q.buffer, pos).Held? then Fault
    else On(pc, q, Q.(buffer := Write(Q.buffer, pos, Held(item)), ahead := Q.ahead + 1), put, multiset{})
  }

  /** Move the item at `pos` out, leaving the slot vacant. */
  function Vacate(Q: Queue, pos: int): Queue
    requires |Q.buffer| > 0
  {
    Q.(buffer := Write(Q.buffer, pos, Vacant))
  }

  /** The queue is published with tail `tail`, ending the owner's call. */
  function Published(Q: Queue, tail: int): Queue {
    Q.(tail := tail, ahead := 0, owner := None)
  }

  function StepExtend(wrap: bool, w: nat, Q: Queue, i: Input, r: Reserve, n: nat): Effect
    requires w > 0 && |Q.buffer| > 0
  {
    var tail := N(wrap, w, r.tail + n);
    if i.Give? && tail != N(wrap, w, r.head + Q.cap) then
      WriteSlot(Extend(r, n + 1), r.q, Q, tail, i.item, multiset{i.item})
    else Only(Idle, r.q, Published(Q, tail))
  }

  /** `UnsignedShort::MAX` for a drain, else the free room of the destination. */
  function MaxCount(w: nat, to: Sink): int {
    match to
    case Consumer => w - 1
    case Into(_, room, keep) => if keep then room + 1 else room
  }

  /** What `count_fn` answered. */
  function Wanted(i: Input): nat {
    if i.Want? then i.n else 0
  }

  /** One round of the booking loop up to the CAS. */
  function StepSize(wrap: bool, w: nat, queues: seq<Queue>, i: Input, src: nat, to: Sink, since: int, worker: int, stealer: int): Effect
    requires w > 0 && src < |queues| && SinkTyped(|queues|, to)
  {
    Round(w, queues, i, src, to, since, worker, stealer, N(wrap, w, queues[src].tail - worker))
  }

  function Round(w: nat, queues: seq<Queue>, i: Input, src: nat, to: Sink, since: int, worker: int, stealer: int, itemCount: int): Effect
    requires SinkTyped(|queues|, to)
  {
    if stealer != worker || itemCount == 0 then Abort(queues, to)
    else
      var count := Min(Min(Wanted(i), MaxCount(w, to)), itemCount);
      if count == 0 then Abort(queues, to)
      else Local(Book3(src, to, since, worker, stealer, count))
  }

  /** The booking CAS moves the worker head only. */
  function StepBook(wrap: bool, w: nat, Q: Queue, a: nat, i: Input, src: nat, to: Sink, since: int, worker: int, stealer: int, count: int): Effect
    requires w > 0
  {
    if Q.worker == worker && Q.stealer == stealer && !i.Flaky? then
      var newHead := N(wrap, w, worker + count);
      Only(Take(Move(src, to, stealer, count, newHead), 0), src,
           Q.(worker := newHead, thief := Some(a), until := newHead, moved := 0))
    else Local(Book2(src, to, since, Q.worker, Q.stealer))
  }

  /** How many of the booked items go to the destination queue. */
  function Transfer(m: Move): int {
    if m.to.Into? && m.to.keepLast then m.count - 1 else m.count
  }

  /** Move the next booked item out: to the consumer of a drain, to the destination of a
      steal, or, for the last item of `steal_and_pop`, to its caller. */
  function StepTake(wrap: bool, w: nat, Q: Queue, m: Move, k: nat): Effect
    requires w > 0 && |Q.buffer| > 0
  {
    TakeSlot(Q, m, k, N(wrap, w, m.from + k), N(wrap, w, m.from + k + 1) == m.until)
  }

  /** Move item `k` out of the slot at `pos`, the last one of a drain if `last`. */
  function TakeSlot(Q: Queue, m: Move, k: nat, pos: int, last: bool): Effect
    requires |Q.buffer| > 0
  {
    match Cell(Q.buffer, pos)
    case Vacant => Fault
    case Held(x) =>
      var Q' := Vacate(Q, pos).(moved := Q.moved + 1);
      match m.to
      case Consumer => On(if last then Done1(m) else Take(m, k + 1), m.src, Q', multiset{}, multiset{x})
      case Into(_, _, _) =>
        if k < Transfer(m) then Only(Put(m, k, x), m.src, Q')
        else On(Publish(m), m.src, Q', multiset{}, multiset{x})
  }

  function StepPut(wrap: bool, w: nat, Q: Queue, m: Move, k: nat, item: Item): Effect
    requires w > 0 && |Q.buffer| > 0 && m.to.Into?
  {
    var pc := if k + 1 < Transfer(m) || m.to.keepLast then Take(m, k + 1) else Publish(m);
    WriteSlot(pc, m.to.r.q, Q, N(wrap, w, m.to.r.tail + k), item, multiset{})
  }

  /** The completion CAS: the stealer head must be where the steal began, and both heads
      become the worker head, wherever pops have moved it. */
  function StepDone(Q: Queue, i: Input, m: Move, worker: int, stealer: int): Effect {
    if stealer != m.from then Fault
    else if Q.worker == worker && Q.stealer == stealer && !i.Flaky? then
      Only(Idle, m.src, Q.(worker := worker, stealer := worker, thief := None, moved := 0))
    else Local(Done2(m, Q.worker, Q.stealer))
  }

  function StepPop(queues: seq<Queue>, q: nat, worker: int, stealer: int): Effect
    requires q < |queues|
  {
    if queues[q].tail == worker then Finish(queues, q) else Local(Pop3(q, worker, stealer))
  }

  /** The pop CAS moves the worker head, and the stealer head with it when no steal is open. */
  function StepClaim(wrap: bool, w: nat, Q: Queue, i: Input, q: nat, worker: int, stealer: int): Effect
    requires w > 0
  {
    if Q.worker == worker && Q.stealer == stealer && !i.Flaky? then
      var next := if stealer == worker then stealer + 1 else stealer;
      Only(Pop4(q, worker), q, Q.(worker := N(wrap, w, worker + 1), stealer := N(wrap, w, next), reading := Some(worker)))
    else Local(Pop2(q, Q.worker, Q.stealer))
  }

  function StepRead(Q: Queue, q: nat, pos: int): Effect
    requires |Q.buffer| > 0
  {
    match Cell(Q.buffer, pos)
    case Vacant => Fault
    case Held(x) => On(Idle, q, Vacate(Q, pos).(reading := None, owner := None), multiset{}, multiset{x})
  }

  /** The next atomic step of agent `a`, which is at `pc`. */
  function Next(wrap: bool, w: nat, queues: seq<Queue>, a: nat, pc: Agent, i: Input): Effect
    requires w > 0 && QueuesTyped(queues) && AgentTyped(|queues|, pc)
  {
    match pc
    case Idle => Begin(queues, a, i)
    case Room1(q, goal) => Local(Room2(q, goal, queues[q].stealer))
    case Room2(q, goal, stealer) => Reserved(wrap, w, queues, Reserve(q, queues[q].tail, stealer), goal)
    case Dest1(q, src, keep) => Local(Dest2(q, src, keep, queues[q].tail))
    case Dest2(q, src, keep, tail) => Measured(wrap, w, queues, Reserve(q, tail, queues[q].stealer), src, keep)
    case Empty1(q) => Local(Empty2(q, queues[q].worker))
    case Empty2(q, worker) => Finish(queues, q)
    case PushWrite(r, x) => WriteSlot(PushStore(r), r.q, queues[r.q], r.tail, x, multiset{x})
    case PushStore(r) => Only(Idle, r.q, Published(queues[r.q], N(wrap, w, r.tail + 1)))
    case Extend(r, n) => StepExtend(wrap, w, queues[r.q], i, r, n)
    case Book1(src, to) => Local(Book2(src, to, queues[src].worker, queues[src].worker, queues[src].stealer))
    case Book2(src, to, since, worker, stealer) => StepSize(wrap, w, queues, i, src, to, since, worker, stealer)
    case Book3(src, to, since, worker, stealer, count) =>
      StepBook(wrap, w, queues[src], a, i, src, to, since, worker, stealer, count)
    case Take(m, k) => StepTake(wrap, w, queues[m.src], m, k)
    case Put(m, k, x) => StepPut(wrap, w, queues[m.to.r.q], m, k, x)
    case Publish(m) =>
      Only(Done1(m), m.to.r.q, Published(queues[m.to.r.q], N(wrap, w, m.to.r.tail + Transfer(m))))
    case Done1(m) => Local(Done2(m, queues[m.src].worker, queues[m.src].stealer))
    case Done2(m, worker, stealer) => StepDone(queues[m.src], i, m, worker, stealer)
    case Pop1(q) => Local(Pop2(q, queues[q].worker, queues[q].stealer))
    case Pop2(q, worker, stealer) => StepPop(queues, q, worker, stealer)
    case Pop3(q, worker, stealer) => StepClaim(wrap, w, queues[q], i, q, worker, stealer)
    case Pop4(q, pos) => StepRead(queues[q], q, pos)
  }

  /** `fault` records that some step was a `Fault`. `pushed` and `consumed` are the items
      ever written from outside and ever handed out. */
  datatype State = State(
    w: nat,
    queues: seq<Queue>,
    agents: seq<Agent>,
    pushed: multiset<Item>,
    consumed: multiset<Item>,
    fault: bool)

  predicate Typed(s: State) {
    && s.w > 0
    && QueuesTyped(s.queues)
    && (forall a :: 0 <= a < |s.agents| ==> AgentTyped(|s.queues|, s.agents[a]))
  }

  function Apply(s: State, a: nat, e: Effect): State
    requires a < |s.agents|
  {
    match e
    case Stay => s
    case Fault => s.(fault := true)
    case Local(pc) => s.(agents := s.agents[a := pc])
    case On(pc, q, queue, put, got) =>
      if q < |s.queues| then
        s.(agents := s.agents[a := pc], queues := s.queues[q := queue],
           pushed := s.pushed + put, consumed := s.consumed + got)
      else s
  }

  function Step(wrap: bool, s: State, a: nat, i: Input): State
    requires Typed(s) && a < |s.agents|
  {
    Apply(s, a, Next(wrap, s.w, s.queues, a, s.agents[a], i))
  }

  function NewQueue(cap: nat): Queue {
    Queue(cap, 0, 0, 0, seq(cap, _ => Vacant), None, None, 0, 0, 0, None)
  }

  /** New queues of the given capacities, and any number of agents with nothing to do. */
  function Init(w: nat, caps: seq<nat>, agents: nat): State {
    State(w,
          seq(|caps|, i requires 0 <= i < |caps| => NewQueue(caps[i])),
          seq(agents, _ => Idle), multiset{}, multiset{}, false)
  }

  /** A schedule: which agent moves, and what the environment decides for it. */
  datatype Act = Act(agent: nat, input: Input)

  /** The state after a schedule; moves of agents that do not exist are skipped. */
  function Run(wrap: bool, s: State, acts: seq<Act>): State
    decreases |acts|
  {
    if acts == [] || !Typed(s) then s
    else if acts[0].agent < |s.agents| then
      Run(wrap, Step(wrap, s, acts[0].agent, acts[0].input), acts[1..])
    else Run(wrap, s, acts[1..])
  }
}
