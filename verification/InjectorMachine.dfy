/** The unbounded block-linked queue of the pool (src/fanout/injector.rs): producers and
    consumers run as interleaved agents, one atomic access or one slot access per step.

    A block is named by its place in the chain. Index words are kept without their flag bit;
    the flag of the head index is a field of its own. */
module InjectorMachine {
  import opened Words
  import Ring

  type Item = Ring.Item

  /** Every 32nd index is a boundary that belongs to no slot; a block has 31 slots. */
  function Lap(x: nat): nat { x / 32 }
  function Off(x: nat): nat { x % 32 }
  const BLOCK_CAP: nat := 31

  /** `due`, `writer`, `reader` and `taken` are bookkeeping that the code does not store: the
      value pushed with the slot's ticket, the agent that holds the ticket on either side until
      its last access, and whether the value was moved out. */
  datatype Slot = Slot(
    value: Option<Item>,
    write: bool,
    read: bool,
    destroy: bool,
    due: Item,
    writer: Option<nat>,
    reader: Option<nat>,
    taken: bool)

  /** Who has to destroy a block: nobody yet, an agent that has passed the slots below `i`, the
      reader of slot `i`, to whom the duty was left, or nobody any more. */
  datatype Duty = Waiting | Carried(a: nat, i: nat) | Left(i: nat) | Freed

  datatype Block = Block(next: Option<nat>, slots: seq<Slot>, duty: Duty)

  /** `installer`, `mover` and `first` are bookkeeping: the agent that took the last ticket of a
      block on either side and has not yet moved the index past the boundary, and the agent that
      installed the very first block and has not yet stored it at the head. */
  datatype Queue = Queue(
    head: nat,
    flag: bool,
    headBlock: Option<nat>,
    tail: nat,
    tailBlock: Option<nat>,
    blocks: seq<Block>,
    installer: Option<nat>,
    mover: Option<nat>,
    first: Option<nat>)

  const NewSlot: Slot := Slot(None, false, false, false, 0, None, None, false)

  function NewBlock(): Block {
    Block(None, seq(31, _ => NewSlot), Waiting)
  }

  function NewQueue(): Queue {
    Queue(0, false, None, 0, None, [], None, None, None)
  }

  /** `spare` says that the producer has a block allocated in advance. */
  datatype Agent =
    | Idle
    | PushLoad(v: Item, spare: bool)
    | PushBlock(v: Item, spare: bool, t: nat)
    | PushTry(v: Item, spare: bool, t: nat, b: Option<nat>)
    | PushFirst(v: Item, spare: bool, t: nat, b0: nat)
    | Install(v: Item, t: nat, block: nat)
    | Advance(v: Item, t: nat, block: nat, next: nat)
    | Link(v: Item, t: nat, block: nat, next: nat)
    | Fill(v: Item, t: nat, block: nat)
    | Mark(v: Item, t: nat, block: nat)
    | PopLoad
    | PopBlock(h: nat, f: bool)
    | PopCheck(h: nat, f: bool, b: Option<nat>)
    | PopTry(h: nat, f: bool, f': bool, b: Option<nat>)
    | AwaitNext(h: nat, block: nat)
    | Peek(h: nat, block: nat, next: nat)
    | MoveBlock(h: nat, block: nat, next: nat, f: bool)
    | MoveIndex(h: nat, block: nat, next: nat, f: bool)
    | AwaitWrite(h: nat, block: nat)
    | Read(h: nat, block: nat)
    | SetRead(h: nat, block: nat, v: Item)
    | Sweep(h: nat, block: nat, i: nat, v: Item)
    | Leave(h: nat, block: nat, i: nat, v: Item)
    | Empty1
    | Empty2(h: nat)
    | Len1
    | Len2(t: nat)
    | Len3(t: nat, h: nat, f: bool, n: nat)

  /** What the environment decides: the call to start, or a spurious failure of a weak CAS. */
  datatype Input = Go | Flaky | StartPush(v: Item) | StartPop | StartIsEmpty | StartLen

  /** What a call answers. */
  datatype Answer = Pending | Done | Nothing | Value(v: Item) | Truth(b: bool) | Length(n: int)

  /** The ticket events, in whose order the queue is a queue. */
  datatype Event = Silent | Enqueue(v: Item) | Dequeue

  datatype Effect =
    | Fault
    | Do(pc: Agent, q: Queue, ev: Event, answer: Answer)

  function To(pc: Agent, q: Queue): Effect { Do(pc, q, Silent, Pending) }

  predicate Live(q: Queue, b: nat) {
    b < |q.blocks| && q.blocks[b].duty != Freed && |q.blocks[b].slots| == 31
  }

  function SlotOf(q: Queue, b: nat, k: nat): Slot
    requires Live(q, b) && k < 31
  {
    q.blocks[b].slots[k]
  }

  function PutSlot(q: Queue, b: nat, k: nat, slot: Slot): Queue
    requires Live(q, b) && k < 31
  {
    q.(blocks := q.blocks[b := q.blocks[b].(slots := q.blocks[b].slots[k := slot])])
  }

  function PutDuty(q: Queue, b: nat, duty: Duty): Queue
    requires Live(q, b)
  {
    q.(blocks := q.blocks[b := q.blocks[b].(duty := duty)])
  }

  function Begin(q: Queue, i: Input): Effect {
    match i
    case StartPush(v) => To(PushLoad(v, false), q)
    case StartPop => To(PopLoad, q)
    case StartIsEmpty => To(Empty1, q)
    case StartLen => To(Len1, q)
    case _ => To(Idle, q)
  }

  /** One round of `push` after both loads: wait at a boundary, install the very first block,
      or try to take the ticket. */
  function StepPush(q: Queue, a: nat, i: Input, v: Item, spare: bool, t: nat, b: Option<nat>): Effect {
    if Off(t) == BLOCK_CAP then To(PushLoad(v, spare), q)
    else
      var spare' := spare || Off(t) + 1 == BLOCK_CAP;
      match b
      case None =>
        if q.tailBlock.None? then
          var n := |q.blocks|;
          To(PushFirst(v, spare', t, n), q.(tailBlock := Some(n), blocks := q.blocks + [NewBlock()], first := Some(a)))
        else To(PushLoad(v, true), q)
      case Some(block) =>
        if q.tail == t && !i.Flaky? then StepTicket(q, a, v, spare', t, block)
        else To(PushBlock(v, spare', q.tail), q)
  }

  /** The tail CAS succeeded: the ticket `t` is this producer's. */
  function StepTicket(q: Queue, a: nat, v: Item, spare: bool, t: nat, block: nat): Effect {
    if !Live(q, block) || Off(t) >= 31 then Fault
    else
      var q' := PutSlot(q, block, Off(t), SlotOf(q, block, Off(t)).(due := v, writer := Some(a))).(tail := t + 1);
      if Off(t) + 1 == BLOCK_CAP then
        if spare then Do(Install(v, t, block), q'.(installer := Some(a)), Enqueue(v), Pending) else Fault
      else Do(Fill(v, t, block), q', Enqueue(v), Pending)
  }

  function StepInstall(q: Queue, v: Item, t: nat, block: nat): Effect {
    var n := |q.blocks|;
    To(Advance(v, t, block, n), q.(tailBlock := Some(n), blocks := q.blocks + [NewBlock()]))
  }

  function StepLink(q: Queue, v: Item, t: nat, block: nat, next: nat): Effect {
    if !Live(q, block) then Fault
    else To(Fill(v, t, block), q.(blocks := q.blocks[block := q.blocks[block].(next := Some(next))]))
  }

  function StepFill(q: Queue, v: Item, t: nat, block: nat): Effect {
    if !Live(q, block) || Off(t) >= 31 || SlotOf(q, block, Off(t)).value.Some? then Fault
    else To(Mark(v, t, block), PutSlot(q, block, Off(t), SlotOf(q, block, Off(t)).(value := Some(v))))
  }

  function StepMark(q: Queue, t: nat, block: nat): Effect {
    if !Live(q, block) || Off(t) >= 31 then Fault
    else Do(Idle, PutSlot(q, block, Off(t), SlotOf(q, block, Off(t)).(write := true, writer := None)), Silent, Done)
  }

  /** One round of `pop` after both loads: the tail is consulted only without the flag. */
  function StepCheck(q: Queue, h: nat, f: bool, b: Option<nat>): Effect {
    if Off(h) == BLOCK_CAP then To(PopLoad, q)
    else if f then To(PopTry(h, f, true, b), q)
    else if h == q.tail then Do(Idle, q, Silent, Nothing)
    else To(PopTry(h, f, Lap(h) != Lap(q.tail), b), q)
  }

  function StepPop(q: Queue, a: nat, i: Input, h: nat, f: bool, f': bool, b: Option<nat>): Effect {
    match b
    case None => To(PopLoad, q)
    case Some(block) =>
      if q.head == h && q.flag == f && !i.Flaky? then StepClaim(q, a, h, f', block)
      else To(PopBlock(q.head, q.flag), q)
  }

  /** The head CAS succeeded: the ticket `h` is this consumer's. */
  function StepClaim(q: Queue, a: nat, h: nat, f': bool, block: nat): Effect {
    if !Live(q, block) || Off(h) >= 31 then Fault
    else
      var q' := PutSlot(q, block, Off(h), SlotOf(q, block, Off(h)).(reader := Some(a))).(head := h + 1, flag := f');
      if Off(h) + 1 == BLOCK_CAP then Do(AwaitNext(h, block), q'.(mover := Some(a)), Dequeue, Pending)
      else Do(AwaitWrite(h, block), q', Dequeue, Pending)
  }

  function StepAwaitNext(q: Queue, h: nat, block: nat): Effect {
    if !Live(q, block) then Fault
    else match q.blocks[block].next
      case None => To(AwaitNext(h, block), q)
      case Some(n) => To(Peek(h, block, n), q)
  }

  function StepPeek(q: Queue, h: nat, block: nat, next: nat): Effect {
    if !Live(q, next) then Fault else To(MoveBlock(h, block, next, q.blocks[next].next.Some?), q)
  }

  function StepAwaitWrite(q: Queue, h: nat, block: nat): Effect {
    if !Live(q, block) || Off(h) >= 31 then Fault
    else if SlotOf(q, block, Off(h)).write then To(Read(h, block), q) else To(AwaitWrite(h, block), q)
  }

  /** Move the value out. The reader of the last slot then starts to destroy the block. */
  function StepRead(q: Queue, a: nat, h: nat, block: nat): Effect {
    if !Live(q, block) || Off(h) >= 31 then Fault
    else match SlotOf(q, block, Off(h)).value
      case None => Fault
      case Some(v) =>
        var slot := SlotOf(q, block, Off(h)).(value := None, taken := true);
        if Off(h) + 1 == BLOCK_CAP then
          To(Sweep(h, block, 0, v), PutDuty(PutSlot(q, block, Off(h), slot.(reader := None)), block, Carried(a, 0)))
        else To(SetRead(h, block, v), PutSlot(q, block, Off(h), slot))
  }

  function StepSetRead(q: Queue, a: nat, h: nat, block: nat, v: Item): Effect {
    if !Live(q, block) || Off(h) >= 31 then Fault
    else
      var slot := SlotOf(q, block, Off(h));
      var q' := PutSlot(q, block, Off(h), slot.(read := true, reader := None));
      if slot.destroy then To(Sweep(h, block, Off(h) + 1, v), PutDuty(q', block, Carried(a, Off(h) + 1)))
      else Do(Idle, q', Silent, Value(v))
  }

  /** The loop of `Block::destroy`: pass a slot that was read, else try to leave the duty to its
      reader; free the block after the last one. */
  function StepSweep(q: Queue, a: nat, h: nat, block: nat, i: nat, v: Item): Effect {
    if !Live(q, block) then Fault
    else if i >= BLOCK_CAP - 1 then Do(Idle, PutDuty(q, block, Freed), Silent, Value(v))
    else if SlotOf(q, block, i).read then To(Sweep(h, block, i + 1, v), PutDuty(q, block, Carried(a, i + 1)))
    else To(Leave(h, block, i, v), q)
  }

  function StepLeave(q: Queue, a: nat, h: nat, block: nat, i: nat, v: Item): Effect {
    if !Live(q, block) || i >= 31 then Fault
    else
      var slot := SlotOf(q, block, i);
      var q' := PutSlot(q, block, i, slot.(destroy := true));
      if slot.read then To(Sweep(h, block, i + 1, v), PutDuty(q', block, Carried(a, i + 1)))
      else Do(Idle, PutDuty(q', block, Left(i)), Silent, Value(v))
  }

  /** An index parked on a boundary counts as the start of the next block. */
  function Parked(x: nat): nat { if x % 32 == 31 then x + 1 else x }

  /** `len`, on the two index words; `None` is an arithmetic underflow. */
  function LenOf(tailWord: nat, headWord: nat): Option<int> {
    var tail := Parked(tailWord / 2);
    var head := Parked(headWord / 2);
    var lap := head / 32;
    if tail < lap * 32 then None
    else
      var t, h := tail - lap * 32, head - lap * 32;
      if t < h + t / 32 then None else Some(t - h - t / 32)
  }

  function Word(x: nat, flag: bool): nat { 2 * x + (if flag then 1 else 0) }

  /** How many tickets below `x` belong to slots. */
  function Rank(x: nat): int { x - x / 32 }

  /** How many tickets were handed to producers and not yet to consumers. */
  function Unclaimed(q: Queue): int { Rank(q.tail) - Rank(q.head) }

  function StepLen(q: Queue, t: nat, h: nat, f: bool): Effect {
    if q.tail == t then
      match LenOf(Word(t, false), Word(h, f))
      case None => Fault
      case Some(n) => Do(Idle, q, Silent, Length(n))
    else To(Len1, q)
  }

  /** The next atomic step of agent `a`, which is at `pc`. */
  function Next(q: Queue, a: nat, pc: Agent, i: Input): Effect {
    match pc
    case Idle => Begin(q, i)
    case PushLoad(v, spare) => To(PushBlock(v, spare, q.tail), q)
    case PushBlock(v, spare, t) => To(PushTry(v, spare, t, q.tailBlock), q)
    case PushTry(v, spare, t, b) => StepPush(q, a, i, v, spare, t, b)
    case PushFirst(v, spare, t, b0) => To(PushTry(v, spare, t, Some(b0)), q.(headBlock := Some(b0), first := None))
    case Install(v, t, block) => StepInstall(q, v, t, block)
    case Advance(v, t, block, n) => To(Link(v, t, block, n), q.(tail := t + 2, installer := None))
    case Link(v, t, block, n) => StepLink(q, v, t, block, n)
    case Fill(v, t, block) => StepFill(q, v, t, block)
    case Mark(v, t, block) => StepMark(q, t, block)
    case PopLoad => To(PopBlock(q.head, q.flag), q)
    case PopBlock(h, f) => To(PopCheck(h, f, q.headBlock), q)
    case PopCheck(h, f, b) => StepCheck(q, h, f, b)
    case PopTry(h, f, f', b) => StepPop(q, a, i, h, f, f', b)
    case AwaitNext(h, block) => StepAwaitNext(q, h, block)
    case Peek(h, block, next) => StepPeek(q, h, block, next)
    case MoveBlock(h, block, next, f) => To(MoveIndex(h, block, next, f), q.(headBlock := Some(next)))
    case MoveIndex(h, block, next, f) => To(AwaitWrite(h, block), q.(head := h + 2, flag := f, mover := None))
    case AwaitWrite(h, block) => StepAwaitWrite(q, h, block)
    case Read(h, block) => StepRead(q, a, h, block)
    case SetRead(h, block, v) => StepSetRead(q, a, h, block, v)
    case Sweep(h, block, i, v) => StepSweep(q, a, h, block, i, v)
    case Leave(h, block, i, v) => StepLeave(q, a, h, block, i, v)
    case Empty1 => To(Empty2(q.head), q)
    case Empty2(h) => Do(Idle, q, Silent, Truth(h == q.tail))
    case Len1 => To(Len2(q.tail), q)
    case Len2(t) => To(Len3(t, q.head, q.flag, if Unclaimed(q) >= 0 then Unclaimed(q) else 0), q)
    case Len3(t, h, f, _) => StepLen(q, t, h, f)
  }

  datatype State = State(q: Queue, agents: seq<Agent>, fault: bool)

  function Apply(s: State, a: nat, e: Effect): State
    requires a < |s.agents|
  {
    match e
    case Fault => s.(fault := true)
    case Do(pc, q, _, _) => s.(q := q, agents := s.agents[a := pc])
  }

  function Step(s: State, a: nat, i: Input): State
    requires a < |s.agents|
  {
    Apply(s, a, Next(s.q, a, s.agents[a], i))
  }

  function Init(agents: nat): State {
    State(NewQueue(), seq(agents, _ => Idle), false)
  }

  datatype Act = Act(agent: nat, input: Input)

  /** The state after a schedule; moves of agents that do not exist are skipped. */
  function Run(s: State, acts: seq<Act>): State
    decreases |acts|
  {
    if acts == [] then s
    else if acts[0].agent < |s.agents| then Run(Step(s, acts[0].agent, acts[0].input), acts[1..])
    else Run(s, acts[1..])
  }
}
