/** The FIFO queue refines a queue with one open steal and one item being popped; every slot
    access is exclusive, and items leave in the order in which they entered. */
module FifoDeque {
  import opened Words
  import opened Ring
  import opened FifoMachine
  import opened FifoSafety

  /** What a queue means: the items an open steal has yet to move out, the popped item that is
      not yet read, the queue itself, and the items written above its tail. Oldest first. */
  datatype View = View(loot: seq<Item>, hand: seq<Item>, fifo: seq<Item>, above: seq<Item>)

  function Count(n: int): nat { if n < 0 then 0 else n }

  function Loot(Q: Queue): seq<Item>
    requires |Q.buffer| > 0
  {
    if Q.thief.Some? then Items(Q.buffer, Q.stealer + Q.moved, Count(Q.until - Q.stealer - Q.moved)) else []
  }

  function ViewOf(Q: Queue): View
    requires |Q.buffer| > 0
  {
    View(Loot(Q),
         if Q.reading.Some? then [ItemAt(Q.buffer, Q.reading.value)] else [],
         Items(Q.buffer, Q.worker, Count(Q.tail - Q.worker)),
         Items(Q.buffer, Q.tail, Q.ahead))
  }

  datatype Event =
    | Silent
    | Fill(item: Item)    // an item is written above the tail
    | Append              // what is above the tail joins the back
    | PopFront            // the front item is claimed by the owner
    | Read                // and moved out
    | Book(n: int)        // the front `n` items are booked by a steal
    | Move                // the oldest booked item is moved out

  predicate Allowed(v: View, ev: Event) {
    match ev
    case Silent => true
    case Fill(_) => true
    case Append => true
    case PopFront => v.fifo != [] && v.hand == []
    case Read => |v.hand| == 1
    case Book(n) => 1 <= n <= |v.fifo| && v.loot == []
    case Move => v.loot != []
  }

  function Advance(v: View, ev: Event): View
    requires Allowed(v, ev)
  {
    match ev
    case Silent => v
    case Fill(x) => v.(above := v.above + [x])
    case Append => v.(fifo := v.fifo + v.above, above := [])
    case PopFront => v.(fifo := v.fifo[1..], hand := [v.fifo[0]])
    case Read => v.(hand := [])
    case Book(n) => v.(loot := v.fifo[..n], fifo := v.fifo[n..])
    case Move => v.(loot := v.loot[1..])
  }

  /** What a step with effect `e` means for the queue it changes. */
  function EventOf(pc: Agent, e: Effect, i: Input): Event {
    match pc
    case PushWrite(_, x) => Fill(x)
    case PushStore(_) => Append
    case Extend(_, _) => if e.On? && e.pc.Extend? && i.Give? then Fill(i.item) else Append
    case Book3(_, _, _, _, _, count) => if e.On? then Book(count) else Silent
    case Take(_, _) => Event.Move
    case Put(_, _, x) => Fill(x)
    case Publish(_) => Append
    case Pop3(_, _, _) => if e.On? then PopFront else Silent
    case Pop4(_, _) => Read
    case _ => Silent
  }

  ghost predicate Refines(Q: Queue, Q': Queue, ev: Event)
    requires |Q.buffer| > 0 && |Q'.buffer| > 0
  {
    Allowed(ViewOf(Q), ev) && ViewOf(Q') == Advance(ViewOf(Q), ev)
  }

  lemma LootWrite(Q: Queue, Q': Queue, p: int, slot: Slot)
    requires |Q.buffer| > 0 && Q'.buffer == Write(Q.buffer, p, slot)
    requires Q'.thief == Q.thief && Q'.stealer == Q.stealer && Q'.moved == Q.moved && Q'.until == Q.until
    requires Q.thief.Some? ==>
      && Q.stealer + Q.moved <= Q.until
      && (p < Q.stealer + Q.moved || Q.until <= p)
      && Q.until - |Q.buffer| <= p < Q.stealer + Q.moved + |Q.buffer|
    ensures Loot(Q') == Loot(Q)
  {
    if Q.thief.Some? {
      ItemsWrite(Q.buffer, Q.stealer + Q.moved, Q.until - Q.stealer - Q.moved, p, slot);
    }
  }

  lemma FillRefines(w: nat, Q: Queue, item: Item)
    requires QueueInv(w, Q) && Q.reading.None? && Q.tail + Q.ahead < Q.stealer + Q.cap
    ensures Refines(Q, Filled(Q, item), Fill(item))
  {
    var pos := Q.tail + Q.ahead;
    var slot := Held(item);
    LootWrite(Q, Filled(Q, item), pos, slot);
    ItemsWrite(Q.buffer, Q.worker, Q.tail - Q.worker, pos, slot);
    ItemsWrite(Q.buffer, Q.tail, Q.ahead, pos, slot);
    CellWrite(Q.buffer, pos, slot, pos);
    ItemsSplit(Filled(Q, item).buffer, Q.tail, Q.ahead, 1);
    ItemsOne(Filled(Q, item).buffer, pos);
  }

  lemma AppendRefines(w: nat, Q: Queue)
    requires QueueInv(w, Q)
    ensures Refines(Q, Published(Q, Q.tail + Q.ahead), Append)
  {
    ItemsSplit(Q.buffer, Q.worker, Q.tail - Q.worker, Q.ahead);
  }

  lemma PopRefines(w: nat, Q: Queue)
    requires QueueInv(w, Q) && Q.worker < Q.tail && Q.ahead == 0 && Q.reading.None?
    ensures Refines(Q, FifoSafety.Claimed(Q), PopFront)
  {
    ItemsSplit(Q.buffer, Q.worker, 1, Q.tail - Q.worker - 1);
    ItemsOne(Q.buffer, Q.worker);
  }

  lemma ReadRefines(w: nat, Q: Queue, pos: int)
    requires QueueInv(w, Q) && Q.reading == Some(pos)
    ensures Refines(Q, Collected(Q, pos), Read)
    ensures Cell(Q.buffer, pos) == Held(ViewOf(Q).hand[0])
  {
    CollectedInv(w, Q, pos);
    LootWrite(Q, Collected(Q, pos), pos, Vacant);
    ItemsWrite(Q.buffer, Q.worker, Q.tail - Q.worker, pos, Vacant);
  }

  lemma BookRefines(w: nat, Q: Queue, a: nat, n: int)
    requires QueueInv(w, Q) && Q.thief.None? && 1 <= n <= Q.tail - Q.worker
    ensures Refines(Q, Booked(Q, a, n), Book(n))
  {
    ItemsSplit(Q.buffer, Q.worker, n, Q.tail - Q.worker - n);
  }

  lemma LootTail(w: nat, Q: Queue)
    requires QueueInv(w, Q) && Q.thief.Some? && Q.stealer + Q.moved < Q.until
    ensures Loot(Q) != [] && Loot(Looted(Q)) == Loot(Q)[1..]
    ensures Cell(Q.buffer, Q.stealer + Q.moved) == Held(Loot(Q)[0])
  {
    var pos := Q.stealer + Q.moved;
    LootedInv(w, Q);
    ItemsSplit(Q.buffer, pos, 1, Q.until - pos - 1);
    ItemsWrite(Q.buffer, pos + 1, Q.until - pos - 1, pos, Vacant);
    assert Loot(Q)[0] == ItemAt(Q.buffer, pos);
  }

  lemma LootRefines(w: nat, Q: Queue)
    requires QueueInv(w, Q) && Q.thief.Some? && Q.stealer + Q.moved < Q.until
    ensures Refines(Q, Looted(Q), Event.Move)
  {
    var pos := Q.stealer + Q.moved;
    LootTail(w, Q);
    ItemsWrite(Q.buffer, Q.worker, Q.tail - Q.worker, pos, Vacant);
    ItemsWrite(Q.buffer, Q.tail, Q.ahead, pos, Vacant);
    if Q.reading.Some? { CellWrite(Q.buffer, pos, Vacant, Q.reading.value); }
  }

  /** How each event changes the fields of its queue. */
  ghost predicate Shape(Q: Queue, Q': Queue, ev: Event)
    requires |Q.buffer| > 0
  {
    match ev
    case Silent =>
      || Q' == Q.(owner := Q'.owner)
      || (Q.thief.Some? && Q.stealer + Q.moved == Q.until && Q' == Completed(Q))
    case Fill(x) => Q.owner.Some? && Q.reading.None? && Q.tail + Q.ahead < Q.stealer + Q.cap && Q' == Filled(Q, x)
    case Append => Q.reading.None? && Q' == Published(Q, Q.tail + Q.ahead)
    case PopFront => Q.worker < Q.tail && Q.ahead == 0 && Q.reading.None? && Q' == FifoSafety.Claimed(Q)
    case Read => Q.reading.Some? && Q' == Collected(Q, Q.reading.value)
    case Book(n) => Q.thief.None? && 1 <= n <= Q.tail - Q.worker && Q'.thief.Some? && Q' == Booked(Q, Q'.thief.value, n)
    case Move => Q.thief.Some? && Q.stealer + Q.moved < Q.until && Q' == Looted(Q)
  }

  lemma ShapeRefines(w: nat, Q: Queue, Q': Queue, ev: Event)
    requires QueueInv(w, Q) && QueueInv(w, Q') && Shape(Q, Q', ev)
    ensures Refines(Q, Q', ev)
  {
    match ev
    case Silent =>
    case Fill(x) => FillRefines(w, Q, x);
    case Append => AppendRefines(w, Q);
    case PopFront => PopRefines(w, Q);
    case Read => ReadRefines(w, Q, Q.reading.value);
    case Book(n) => BookRefines(w, Q, Q'.thief.value, n);
    case Move => LootRefines(w, Q);
  }

  predicate IsOwner(pc: Agent) {
    pc.PushWrite? || pc.PushStore? || pc.Extend?
  }

  predicate IsPop(pc: Agent) {
    pc.Pop3? || pc.Pop4?
  }

  lemma PopShape(w: nat, queues: seq<Queue>, a: nat, pc: Agent, i: Input)
    requires QueuesInv(w, queues) && QueuesTyped(queues) && AgentInv(queues, a, pc) && AgentTyped(|queues|, pc)
    requires Next(false, w, queues, a, pc, i).On? && Next(false, w, queues, a, pc, i).q < |queues| && IsPop(pc)
    ensures var e := Next(false, w, queues, a, pc, i);
      Shape(queues[e.q], e.queue, EventOf(pc, e, i))
  {
  }

  lemma OwnerShape(w: nat, queues: seq<Queue>, a: nat, pc: Agent, i: Input)
    requires QueuesInv(w, queues) && QueuesTyped(queues) && AgentInv(queues, a, pc) && AgentTyped(|queues|, pc)
    requires Next(false, w, queues, a, pc, i).On? && Next(false, w, queues, a, pc, i).q < |queues| && IsOwner(pc)
    ensures var e := Next(false, w, queues, a, pc, i);
      Shape(queues[e.q], e.queue, EventOf(pc, e, i))
  {
  }

  lemma TakeShape(w: nat, queues: seq<Queue>, a: nat, pc: Agent, i: Input)
    requires QueuesInv(w, queues) && QueuesTyped(queues) && AgentInv(queues, a, pc) && AgentTyped(|queues|, pc)
    requires Next(false, w, queues, a, pc, i).On? && Next(false, w, queues, a, pc, i).q < |queues| && pc.Take?
    ensures var e := Next(false, w, queues, a, pc, i);
      Shape(queues[e.q], e.queue, EventOf(pc, e, i))
  {
    TakeIs(w, queues[pc.m.src], pc.m, pc.k);
  }

  lemma BookShape(w: nat, queues: seq<Queue>, a: nat, pc: Agent, i: Input)
    requires QueuesInv(w, queues) && QueuesTyped(queues) && AgentInv(queues, a, pc) && AgentTyped(|queues|, pc)
    requires Next(false, w, queues, a, pc, i).On? && Next(false, w, queues, a, pc, i).q < |queues| && pc.Book3?
    ensures var e := Next(false, w, queues, a, pc, i);
      Shape(queues[e.q], e.queue, EventOf(pc, e, i))
  {
    BookIs(w, queues[pc.src], a, i, pc);
    assert QueueInv(w, queues[pc.src]);
  }

  lemma MoverShape(w: nat, queues: seq<Queue>, a: nat, pc: Agent, i: Input)
    requires QueuesInv(w, queues) && QueuesTyped(queues) && AgentInv(queues, a, pc) && AgentTyped(|queues|, pc)
    requires Next(false, w, queues, a, pc, i).On? && Next(false, w, queues, a, pc, i).q < |queues|
    requires pc.Put? || pc.Publish? || pc.Done2?
    ensures var e := Next(false, w, queues, a, pc, i);
      Shape(queues[e.q], e.queue, EventOf(pc, e, i))
  {
  }

  lemma OtherShape(w: nat, queues: seq<Queue>, a: nat, pc: Agent, i: Input)
    requires QueuesInv(w, queues) && QueuesTyped(queues) && AgentInv(queues, a, pc) && AgentTyped(|queues|, pc)
    requires Next(false, w, queues, a, pc, i).On? && Next(false, w, queues, a, pc, i).q < |queues|
    requires !IsOwner(pc) && !IsPop(pc) && !pc.Take? && !pc.Book3? && !(pc.Put? || pc.Publish? || pc.Done2?)
    ensures var e := Next(false, w, queues, a, pc, i);
      Shape(queues[e.q], e.queue, EventOf(pc, e, i))
  {
  }

  lemma StepShape(w: nat, queues: seq<Queue>, a: nat, pc: Agent, i: Input)
    requires QueuesInv(w, queues) && QueuesTyped(queues) && AgentInv(queues, a, pc) && AgentTyped(|queues|, pc)
    requires Next(false, w, queues, a, pc, i).On? && Next(false, w, queues, a, pc, i).q < |queues|
    ensures var e := Next(false, w, queues, a, pc, i);
      Shape(queues[e.q], e.queue, EventOf(pc, e, i))
  {
    if IsOwner(pc) {
      OwnerShape(w, queues, a, pc, i);
    } else if IsPop(pc) {
      PopShape(w, queues, a, pc, i);
    } else if pc.Take? {
      TakeShape(w, queues, a, pc, i);
    } else if pc.Book3? {
      BookShape(w, queues, a, pc, i);
    } else if pc.Put? || pc.Publish? || pc.Done2? {
      MoverShape(w, queues, a, pc, i);
    } else {
      OtherShape(w, queues, a, pc, i);
    }
  }

  /** Every step refines: the queue it changes makes exactly the named move. */
  lemma StepRefines(w: nat, queues: seq<Queue>, a: nat, pc: Agent, i: Input)
    requires QueuesInv(w, queues) && QueuesTyped(queues) && AgentInv(queues, a, pc) && AgentTyped(|queues|, pc)
    requires Good(w, queues, a, pc, Next(false, w, queues, a, pc, i)) && Next(false, w, queues, a, pc, i).On?
    ensures var e := Next(false, w, queues, a, pc, i);
      Refines(queues[e.q], e.queue, EventOf(pc, e, i))
  {
    var e := Next(false, w, queues, a, pc, i);
    StepShape(w, queues, a, pc, i);
    ShapeRefines(w, queues[e.q], e.queue, EventOf(pc, e, i));
  }

  /** What an agent carries between two queues. */
  function Hand(pc: Agent): Slot {
    if pc.Put? then Held(pc.item) else Vacant
  }

  /** The item a steal or a pop moves out is the one that is due: it goes to the consumer, or
      into the thief's hand. */
  lemma HandsOut(w: nat, queues: seq<Queue>, a: nat, pc: Agent, i: Input)
    requires QueuesInv(w, queues) && QueuesTyped(queues) && AgentInv(queues, a, pc) && AgentTyped(|queues|, pc)
    requires pc.Take? || pc.Pop4?
    ensures var e := Next(false, w, queues, a, pc, i);
      && e.On? && e.q < |queues| && e.put == multiset{}
      && var v := ViewOf(queues[e.q]);
      && (pc.Take? ==> v.loot != [] && (if e.pc.Put? then e.pc.item == v.loot[0] && e.got == multiset{} else e.got == multiset{v.loot[0]}))
      && (pc.Pop4? ==> |v.hand| == 1 && e.got == multiset{v.hand[0]} && e.pc.Idle?)
  {
    if pc.Take? {
      TakeIs(w, queues[pc.m.src], pc.m, pc.k);
      LootTail(w, queues[pc.m.src]);
    } else {
      ReadRefines(w, queues[pc.q], pc.pos);
    }
  }

  /** A pop that returns `None` finds the queue empty at that very step. */
  lemma PopNoneIsEmpty(w: nat, queues: seq<Queue>, a: nat, pc: Agent, i: Input)
    requires QueuesInv(w, queues) && QueuesTyped(queues) && AgentInv(queues, a, pc) && AgentTyped(|queues|, pc)
    requires pc.Pop2? && Next(false, w, queues, a, pc, i).On?
    ensures ViewOf(queues[pc.q]).fifo == []
  {
    assert QueueInv(w, queues[pc.q]);
  }

  /** `is_empty` answers true only if the queue is empty at that very step. */
  lemma IsEmptyIsEmpty(w: nat, queues: seq<Queue>, a: nat, pc: Agent)
    requires QueuesInv(w, queues) && AgentInv(queues, a, pc) && pc.Empty2? && queues[pc.q].tail % w == pc.worker % w
    ensures ViewOf(queues[pc.q]).fifo == []
  {
    assert QueueInv(w, queues[pc.q]);
    ModNear(queues[pc.q].tail, pc.worker, w);
  }

  /** A booking round that computes no items finds the queue empty at that very step, however
      old the heads it computed from. */
  lemma NoItemsIsEmpty(w: nat, queues: seq<Queue>, a: nat, pc: Agent)
    requires QueuesInv(w, queues) && AgentInv(queues, a, pc) && pc.Book2?
    requires queues[pc.src].tail == pc.worker
    ensures ViewOf(queues[pc.src]).fifo == []
  {
    assert QueueInv(w, queues[pc.src]);
  }

  function QueueEvent(s: State, a: nat, i: Input, q: nat): Event
    requires Typed(s) && a < |s.agents|
  {
    var e := Next(false, s.w, s.queues, a, s.agents[a], i);
    if e.On? && e.q == q then EventOf(s.agents[a], e, i) else Silent
  }

  /** The moves that a schedule makes on queue `q`. */
  function Events(s: State, acts: seq<Act>, q: nat): seq<Event>
    decreases |acts|
  {
    if acts == [] || !Typed(s) then []
    else if acts[0].agent < |s.agents| then
      [QueueEvent(s, acts[0].agent, acts[0].input, q)] + Events(Step(false, s, acts[0].agent, acts[0].input), acts[1..], q)
    else Events(s, acts[1..], q)
  }

  /** A run of the abstract queue, if every move of it is allowed. */
  function Replay(v: View, events: seq<Event>): Option<View>
    decreases |events|
  {
    if events == [] then Some(v)
    else if Allowed(v, events[0]) then Replay(Advance(v, events[0]), events[1..])
    else None
  }

  lemma ApplyRefines(s: State, a: nat, pc: Agent, e: Effect, i: Input, q: nat)
    requires Inv(s) && a < |s.agents| && q < |s.queues| && Good(s.w, s.queues, a, pc, e)
    requires QueuesTyped(s.queues)
    requires e.On? && |e.queue.buffer| > 0 && e.q < |s.queues| ==> Refines(s.queues[e.q], e.queue, EventOf(pc, e, i))
    ensures var s' := Apply(s, a, e);
      && |s'.queues| == |s.queues| && |s'.queues[q].buffer| > 0
      && Refines(s.queues[q], s'.queues[q], if e.On? && e.q == q then EventOf(pc, e, i) else Silent)
  {
  }

  lemma QueueRefines(s: State, a: nat, i: Input, q: nat)
    requires Inv(s) && Typed(s) && a < |s.agents| && q < |s.queues|
    ensures var s' := Step(false, s, a, i);
      && |s'.queues| == |s.queues| && |s'.queues[q].buffer| > 0
      && Refines(s.queues[q], s'.queues[q], QueueEvent(s, a, i, q))
  {
    var pc := s.agents[a];
    var e := Next(false, s.w, s.queues, a, pc, i);
    GoodNext(s.w, s.queues, a, pc, i);
    if e.On? {
      StepRefines(s.w, s.queues, a, pc, i);
    }
    ApplyRefines(s, a, pc, e, i, q);
  }

  /** Whatever the interleaving, every queue of the network runs as the abstract queue. */
  lemma {:induction false} RunRefines(s: State, acts: seq<Act>, q: nat)
    requires Inv(s) && q < |s.queues| && |s.queues[q].buffer| > 0
    ensures Inv(Run(false, s, acts)) && Typed(Run(false, s, acts)) && |Run(false, s, acts).queues| == |s.queues|
    ensures Replay(ViewOf(s.queues[q]), Events(s, acts, q)) == Some(ViewOf(Run(false, s, acts).queues[q]))
    decreases |acts|
  {
    InvTyped(s);
    if acts != [] {
      var a, i := acts[0].agent, acts[0].input;
      if a < |s.agents| {
        StepKeeps(s, a, i);
        QueueRefines(s, a, i, q);
        RunRefines(Step(false, s, a, i), acts[1..], q);
      } else {
        RunRefines(s, acts[1..], q);
      }
    }
  }

  /** The items that a move adds at the back. */
  function Gained(v: View, ev: Event): seq<Item> {
    if ev.Append? then v.above else []
  }

  /** The items that a move claims, by a pop or by a booking. */
  function Claimed(v: View, ev: Event): seq<Item>
    requires Allowed(v, ev)
  {
    match ev
    case PopFront => [v.fifo[0]]
    case Book(n) => v.fifo[..n]
    case _ => []
  }

  function Added(v: View, events: seq<Event>): seq<Item>
    requires Replay(v, events).Some?
    decreases |events|
  {
    if events == [] then [] else Gained(v, events[0]) + Added(Advance(v, events[0]), events[1..])
  }

  /** The items that a run claims, in the order of the successful head CAS. */
  function Claims(v: View, events: seq<Event>): seq<Item>
    requires Replay(v, events).Some?
    decreases |events|
  {
    if events == [] then [] else Claimed(v, events[0]) + Claims(Advance(v, events[0]), events[1..])
  }

  lemma MoveInOrder(v: View, ev: Event)
    requires Allowed(v, ev)
    ensures v.fifo + Gained(v, ev) == Claimed(v, ev) + Advance(v, ev).fifo
  {
  }

  /** First in, first out. */
  lemma {:induction false} ClaimsInOrder(v: View, events: seq<Event>)
    requires Replay(v, events).Some?
    ensures v.fifo + Added(v, events) == Claims(v, events) + Replay(v, events).value.fifo
    decreases |events|
  {
    if events != [] {
      var v' := Advance(v, events[0]);
      var more, rest := Added(v', events[1..]), Claims(v', events[1..]);
      var gain, claim := Gained(v, events[0]), Claimed(v, events[0]);
      var end := Replay(v, events).value.fifo;
      MoveInOrder(v, events[0]);
      ClaimsInOrder(v', events[1..]);
      Regroup(v.fifo, gain, more, claim, rest, v'.fifo, end);
    }
  }

  /** From a new queue on, the items popped and booked, ordered by their head CAS, are a
      prefix of the items pushed, and the queue holds the rest. */
  lemma ClaimsArePrefix(s: State, acts: seq<Act>, q: nat)
    requires Inv(s) && q < |s.queues| && |s.queues[q].buffer| > 0 && ViewOf(s.queues[q]).fifo == []
    ensures var v := ViewOf(s.queues[q]);
      var events := Events(s, acts, q);
      && Replay(v, events).Some?
      && Claims(v, events) <= Added(v, events)
      && |Run(false, s, acts).queues| == |s.queues| && |Run(false, s, acts).queues[q].buffer| > 0
      && ViewOf(Run(false, s, acts).queues[q]).fifo == Added(v, events)[|Claims(v, events)|..]
  {
    var v := ViewOf(s.queues[q]);
    var events := Events(s, acts, q);
    RunRefines(s, acts, q);
    ClaimsInOrder(v, events);
    assert v.fifo + Added(v, events) == Added(v, events);
  }

  /** The positions an agent may still read, and those it may still write. */
  datatype Range = Range(q: nat, lo: int, hi: int)

  function ReadsOf(pc: Agent): Range {
    match pc
    case Take(m, k) => Range(m.src, m.from + k, m.until)
    case Put(m, k, _) => Range(m.src, m.from + k + 1, m.until)
    case Pop4(q, pos) => Range(q, pos, pos + 1)
    case _ => Range(0, 0, 0)
  }

  function Reserving(to: Sink, n: int): Range {
    if to.Into? then Range(to.r.q, to.r.tail + n, to.r.tail + to.room) else Range(0, 0, 0)
  }

  function WritesOf(queues: seq<Queue>, pc: Agent): Range
    requires AgentTyped(|queues|, pc)
  {
    match pc
    case PushWrite(r, _) => Range(r.q, r.tail, r.tail + 1)
    case Extend(r, n) => Range(r.q, r.tail + n, r.head + queues[r.q].cap)
    case Book1(_, to) => Reserving(to, 0)
    case Book2(_, to, _, _, _) => Reserving(to, 0)
    case Book3(_, to, _, _, _, _) => Reserving(to, 0)
    case Take(m, k) => Reserving(m.to, Min(k, Transfer(m)))
    case Put(m, k, _) => Reserving(m.to, k)
    case _ => Range(0, 0, 0)
  }

  /** Two ranges share no physical slot of the ring. */
  ghost predicate Apart(cap: nat, r: Range, r': Range)
    requires cap > 0
  {
    forall p, p' :: r.lo <= p < r.hi && r'.lo <= p' < r'.hi ==> p % cap != p' % cap
  }

  lemma WindowApart(cap: nat, base: int, r: Range, r': Range)
    requires cap > 0
    requires base <= r.lo && r.hi <= base + cap && base <= r'.lo && r'.hi <= base + cap
    requires r.hi <= r'.lo || r'.hi <= r.lo
    ensures Apart(cap, r, r')
  {
    forall p, p' | r.lo <= p < r.hi && r'.lo <= p' < r'.hi ensures p % cap != p' % cap {
      if p % cap == p' % cap { ModNear(p, p', cap); }
    }
  }

  /** What an agent still has to read is booked by its own steal, or popped by itself. */
  lemma ReadsWithin(w: nat, queues: seq<Queue>, a: nat, pc: Agent)
    requires AgentInv(queues, a, pc) && QueuesInv(w, queues)
    ensures var r := ReadsOf(pc);
      r.lo < r.hi ==>
        && r.q < |queues|
        && var Q := queues[r.q];
        && Base(Q) <= r.lo && r.hi <= Base(Q) + Q.cap
        && (|| (Q.thief == Some(a) && Q.stealer <= r.lo && r.hi <= Q.until)
            || (Q.owner == Some(a) && Q.reading == Some(r.lo) && r.hi == r.lo + 1 && pc.Pop4?))
  {
    if ReadsOf(pc).lo < ReadsOf(pc).hi { assert QueueInv(w, queues[ReadsOf(pc).q]); }
  }

  /** What an agent may still write lies above the tail and below the end of the ring. */
  lemma WritesWithin(w: nat, queues: seq<Queue>, a: nat, pc: Agent)
    requires AgentInv(queues, a, pc) && QueuesInv(w, queues) && AgentTyped(|queues|, pc)
    ensures var r := WritesOf(queues, pc);
      r.lo < r.hi ==>
        && r.q < |queues|
        && var Q := queues[r.q];
        && Q.owner == Some(a) && Q.reading.None? && Q.tail + Q.ahead <= r.lo && r.hi <= Base(Q) + Q.cap
  {
  }

  /** No slot that one agent still has to read can be written by any agent, not even by
      itself in a steal from a queue into the same queue. */
  lemma ReadsAreSafe(s: State, a: nat, b: nat)
    requires Inv(s) && Typed(s) && a < |s.agents| && b < |s.agents|
    ensures var r, r' := ReadsOf(s.agents[a]), WritesOf(s.queues, s.agents[b]);
      r.q == r'.q && r.q < |s.queues| ==> Apart(s.queues[r.q].cap, r, r')
  {
    var r, r' := ReadsOf(s.agents[a]), WritesOf(s.queues, s.agents[b]);
    if r.q == r'.q && r.q < |s.queues| && r.lo < r.hi && r'.lo < r'.hi {
      ReadsWithin(s.w, s.queues, a, s.agents[a]);
      WritesWithin(s.w, s.queues, b, s.agents[b]);
      assert QueueInv(s.w, s.queues[r.q]);
      WindowApart(s.queues[r.q].cap, Base(s.queues[r.q]), r, r');
    }
  }

  /** Two agents never read the same slot: in particular a pop during an open steal never
      touches its booked range. And they never both write to one queue. */
  lemma AccessIsExclusive(s: State, a: nat, b: nat)
    requires Inv(s) && Typed(s) && a < |s.agents| && b < |s.agents| && a != b
    ensures var r, r' := ReadsOf(s.agents[a]), ReadsOf(s.agents[b]);
      r.q == r'.q && r.q < |s.queues| ==> Apart(s.queues[r.q].cap, r, r')
    ensures var v, v' := WritesOf(s.queues, s.agents[a]), WritesOf(s.queues, s.agents[b]);
      v.q == v'.q ==> v.lo >= v.hi || v'.lo >= v'.hi
  {
    var r, r' := ReadsOf(s.agents[a]), ReadsOf(s.agents[b]);
    WritesWithin(s.w, s.queues, a, s.agents[a]);
    WritesWithin(s.w, s.queues, b, s.agents[b]);
    if r.q == r'.q && r.q < |s.queues| && r.lo < r.hi && r'.lo < r'.hi {
      ReadsWithin(s.w, s.queues, a, s.agents[a]);
      ReadsWithin(s.w, s.queues, b, s.agents[b]);
      assert QueueInv(s.w, s.queues[r.q]);
      WindowApart(s.queues[r.q].cap, Base(s.queues[r.q]), r, r');
    }
  }
}
