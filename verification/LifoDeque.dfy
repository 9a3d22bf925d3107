/** The LIFO queue refines a deque with one open steal, every slot access is exclusive,
    and no item is lost or duplicated. */
module LifoDeque {
  import opened Words
  import opened Ring
  import opened LifoMachine
  import opened LifoSafety

  /** What a queue means: the items an open steal has yet to move out, the deque itself,
      and the items the owner side holds above it. Oldest first. */
  datatype View = View(loot: seq<Item>, deque: seq<Item>, above: seq<Item>)

  function Count(n: int): nat { if n < 0 then 0 else n }

  function ViewOf(Q: Queue): View
    requires |Q.buffer| > 0
  {
    View(Items(Q.buffer, Q.head + Q.moved, Count(Q.booked - Q.head - Q.moved)),
         Items(Q.buffer, Q.booked, Count(Tail(Q) - Q.booked)),
         Items(Q.buffer, Tail(Q), Q.ahead))
  }

  datatype Event =
    | Silent
    | Fill(item: Item)    // an item is written above the tail
    | Append              // what is above the tail joins the back of the deque
    | PopBack             // the back of the deque is claimed by the owner
    | Read                // and moved out
    | Book(n: int)        // the front `n` items are booked by a steal
    | Loot                // the oldest booked item is moved out

  predicate Allowed(v: View, ev: Event) {
    match ev
    case Silent => true
    case Fill(_) => true
    case Append => true
    case PopBack => v.deque != [] && v.above == []
    case Read => |v.above| == 1
    case Book(n) => 1 <= n <= |v.deque| && v.loot == []
    case Loot => v.loot != []
  }

  function Advance(v: View, ev: Event): View
    requires Allowed(v, ev)
  {
    match ev
    case Silent => v
    case Fill(x) => v.(above := v.above + [x])
    case Append => v.(deque := v.deque + v.above, above := [])
    case PopBack => v.(deque := v.deque[..|v.deque| - 1], above := [v.deque[|v.deque| - 1]])
    case Read => v.(above := [])
    case Book(n) => v.(loot := v.deque[..n], deque := v.deque[n..])
    case Loot => v.(loot := v.loot[1..])
  }

  /** What a step with effect `e` means for the queue it changes. */
  function EventOf(pc: Agent, e: Effect, i: Input): Event {
    match pc
    case PushWrite(_, x) => Fill(x)
    case PushStore(_) => Append
    case Extend(_, _) => if e.On? && e.pc.Extend? && i.Give? then Fill(i.item) else Append
    case Book4(_, _, _, _, _, _, count) => if e.On? then Book(count) else Silent
    case Take(_, _) => Loot
    case Put(_, _, x) => Fill(x)
    case Publish(_) => Append
    case Pop3(_, _, _, _, _) => if e.On? && e.pc.Pop4? then PopBack else Silent
    case Pop4(_, _) => Read
    case _ => Silent
  }

  ghost predicate Refines(Q: Queue, Q': Queue, ev: Event)
    requires |Q.buffer| > 0 && |Q'.buffer| > 0
  {
    Allowed(ViewOf(Q), ev) && ViewOf(Q') == Advance(ViewOf(Q), ev)
  }

  lemma FillRefines(w: nat, Q: Queue, item: Item)
    requires QueueInv(w, Q) && Tail(Q) + Q.ahead < Q.head + Q.cap
    ensures Refines(Q, Filled(Q, item), Fill(item))
  {
    var pos := Tail(Q) + Q.ahead;
    var slot := Held(item);
    ItemsWrite(Q.buffer, Q.head + Q.moved, Q.booked - Q.head - Q.moved, pos, slot);
    ItemsWrite(Q.buffer, Q.booked, Tail(Q) - Q.booked, pos, slot);
    ItemsWrite(Q.buffer, Tail(Q), Q.ahead, pos, slot);
    CellWrite(Q.buffer, pos, slot, pos);
    ItemsSplit(Filled(Q, item).buffer, Tail(Q), Q.ahead, 1);
    ItemsOne(Filled(Q, item).buffer, pos);
  }

  lemma AppendRefines(w: nat, Q: Queue)
    requires QueueInv(w, Q)
    ensures Refines(Q, Published(Q, Q.pushCount + Q.ahead), Append)
  {
    ItemsSplit(Q.buffer, Q.booked, Tail(Q) - Q.booked, Q.ahead);
  }

  lemma PopRefines(w: nat, Q: Queue)
    requires QueueInv(w, Q) && Q.booked < Tail(Q) && Q.ahead == 0
    ensures Refines(Q, Q.(popCount := Q.popCount + 1, ahead := 1), PopBack)
  {
    ItemsSplit(Q.buffer, Q.booked, Tail(Q) - 1 - Q.booked, 1);
    ItemsOne(Q.buffer, Tail(Q) - 1);
  }

  lemma ReadRefines(w: nat, Q: Queue)
    requires QueueInv(w, Q) && Q.ahead == 1
    ensures Refines(Q, Vacate(Q, Tail(Q)).(ahead := 0, owner := None), Read)
    ensures Cell(Q.buffer, Tail(Q)) == Held(ViewOf(Q).above[0])
  {
    ItemsWrite(Q.buffer, Q.head + Q.moved, Q.booked - Q.head - Q.moved, Tail(Q), Vacant);
    ItemsWrite(Q.buffer, Q.booked, Tail(Q) - Q.booked, Tail(Q), Vacant);
    assert Cell(Q.buffer, Tail(Q)).Held?;
    assert ViewOf(Q).above[0] == ItemAt(Q.buffer, Tail(Q));
  }

  lemma BookRefines(w: nat, Q: Queue, a: nat, n: int)
    requires QueueInv(w, Q) && Q.head == Q.booked && 1 <= n <= Tail(Q) - Q.booked
    ensures Refines(Q, Q.(booked := Q.booked + n, thief := Some(a), moved := 0), Book(n))
  {
    ItemsSplit(Q.buffer, Q.booked, n, Tail(Q) - Q.booked - n);
  }

  lemma LootRefines(w: nat, Q: Queue)
    requires QueueInv(w, Q) && Q.head + Q.moved < Q.booked
    ensures Refines(Q, Looted(Q), Loot)
    ensures Cell(Q.buffer, Q.head + Q.moved) == Held(ViewOf(Q).loot[0])
  {
    var pos := Q.head + Q.moved;
    ItemsSplit(Q.buffer, pos, 1, Q.booked - pos - 1);
    ItemsWrite(Q.buffer, pos + 1, Q.booked - pos - 1, pos, Vacant);
    ItemsWrite(Q.buffer, Q.booked, Tail(Q) - Q.booked, pos, Vacant);
    ItemsWrite(Q.buffer, Tail(Q), Q.ahead, pos, Vacant);
    assert Cell(Q.buffer, pos).Held?;
    assert ViewOf(Q).loot[0] == ItemAt(Q.buffer, pos);
  }

  /** How each event changes the fields of its queue. */
  ghost predicate Shape(Q: Queue, Q': Queue, ev: Event)
    requires |Q.buffer| > 0
  {
    match ev
    case Silent =>
      && Q'.buffer == Q.buffer && Q'.pushCount == Q.pushCount && Q'.popCount == Q.popCount
      && Q'.booked == Q.booked && Q'.ahead == Q.ahead && Q'.cap == Q.cap
      && ((Q'.head == Q.head && Q'.moved == Q.moved)
          || (Q.head + Q.moved == Q.booked == Q'.head && Q'.moved == 0))
    case Fill(x) => Tail(Q) + Q.ahead < Q.head + Q.cap && Q' == Filled(Q, x)
    case Append => Q' == Published(Q, Q.pushCount + Q.ahead)
    case PopBack => Q.booked < Tail(Q) && Q.ahead == 0 && Q' == Q.(popCount := Q.popCount + 1, ahead := 1)
    case Read => Q.ahead == 1 && Q' == Vacate(Q, Tail(Q)).(ahead := 0, owner := None)
    case Book(n) =>
      && Q.head == Q.booked && 1 <= n <= Tail(Q) - Q.booked
      && Q' == Q.(booked := Q.booked + n, thief := Q'.thief, moved := 0)
    case Loot => Q.head + Q.moved < Q.booked && Q' == Looted(Q)
  }

  lemma ShapeRefines(w: nat, Q: Queue, Q': Queue, ev: Event)
    requires QueueInv(w, Q) && QueueInv(w, Q') && Shape(Q, Q', ev)
    ensures Refines(Q, Q', ev)
  {
    match ev
    case Silent =>
    case Fill(x) => FillRefines(w, Q, x);
    case Append => AppendRefines(w, Q);
    case PopBack => PopRefines(w, Q);
    case Read => ReadRefines(w, Q);
    case Book(n) => BookRefines(w, Q, 0, n);
    case Loot => LootRefines(w, Q);
  }

  lemma OwnerShape(w: nat, queues: seq<Queue>, a: nat, pc: Agent, i: Input)
    requires QueuesInv(w, queues) && QueuesTyped(queues) && AgentInv(queues, a, pc) && AgentTyped(|queues|, pc)
    requires Next(false, w, queues, a, pc, i).On? && Next(false, w, queues, a, pc, i).q < |queues|
    requires pc.PushWrite? || pc.PushStore? || pc.Extend?
    ensures var e := Next(false, w, queues, a, pc, i);
      Shape(queues[e.q], e.queue, EventOf(pc, e, i))
  {
  }

  lemma PopShape(w: nat, queues: seq<Queue>, a: nat, pc: Agent, i: Input)
    requires QueuesInv(w, queues) && QueuesTyped(queues) && AgentInv(queues, a, pc) && AgentTyped(|queues|, pc)
    requires Next(false, w, queues, a, pc, i).On? && Next(false, w, queues, a, pc, i).q < |queues|
    requires pc.Pop3? || pc.Pop4?
    ensures var e := Next(false, w, queues, a, pc, i);
      Shape(queues[e.q], e.queue, EventOf(pc, e, i))
  {
  }

  lemma TakeShape(w: nat, queues: seq<Queue>, a: nat, pc: Agent, i: Input)
    requires QueuesInv(w, queues) && QueuesTyped(queues) && AgentInv(queues, a, pc) && AgentTyped(|queues|, pc)
    requires Next(false, w, queues, a, pc, i).On? && Next(false, w, queues, a, pc, i).q < |queues| && pc.Take?
    ensures var e := Next(false, w, queues, a, pc, i);
      Shape(queues[e.q], e.queue, EventOf(pc, e, i))
  {
    TakeIs(w, queues[pc.m.src], pc.m, pc.k);
  }

  lemma BookShape(w: nat, queues: seq<Queue>, a: nat, pc: Agent, i: Input)
    requires QueuesInv(w, queues) && QueuesTyped(queues) && AgentInv(queues, a, pc) && AgentTyped(|queues|, pc)
    requires Next(false, w, queues, a, pc, i).On? && Next(false, w, queues, a, pc, i).q < |queues| && pc.Book4?
    ensures var e := Next(false, w, queues, a, pc, i);
      Shape(queues[e.q], e.queue, EventOf(pc, e, i))
  {
    BookIs(w, queues[pc.src], a, i, pc);
    assert QueueInv(w, queues[pc.src]);
  }

  lemma MoverShape(w: nat, queues: seq<Queue>, a: nat, pc: Agent, i: Input)
    requires QueuesInv(w, queues) && QueuesTyped(queues) && AgentInv(queues, a, pc) && AgentTyped(|queues|, pc)
    requires Next(false, w, queues, a, pc, i).On? && Next(false, w, queues, a, pc, i).q < |queues|
    requires pc.Put? || pc.Publish? || pc.Release?
    ensures var e := Next(false, w, queues, a, pc, i);
      Shape(queues[e.q], e.queue, EventOf(pc, e, i))
  {
  }

  lemma OtherShape(w: nat, queues: seq<Queue>, a: nat, pc: Agent, i: Input)
    requires QueuesInv(w, queues) && QueuesTyped(queues) && AgentInv(queues, a, pc) && AgentTyped(|queues|, pc)
    requires Next(false, w, queues, a, pc, i).On? && Next(false, w, queues, a, pc, i).q < |queues|
    requires !(pc.PushWrite? || pc.PushStore? || pc.Extend? || pc.Pop3? || pc.Pop4?) && !pc.Take? && !pc.Book4? && !(pc.Put? || pc.Publish? || pc.Release?)
    ensures var e := Next(false, w, queues, a, pc, i);
      Shape(queues[e.q], e.queue, EventOf(pc, e, i))
  {
  }

  lemma StepShape(w: nat, queues: seq<Queue>, a: nat, pc: Agent, i: Input)
    requires QueuesInv(w, queues) && QueuesTyped(queues) && AgentInv(queues, a, pc) && AgentTyped(|queues|, pc)
    requires Next(false, w, queues, a, pc, i).On? && Next(false, w, queues, a, pc, i).q < |queues|
    ensures var e := Next(false, w, queues, a, pc, i);
      var ev := EventOf(pc, e, i);
      Shape(queues[e.q], e.queue, ev) && (ev.Fill? ==> queues[e.q].owner.Some?)
  {
    if pc.PushWrite? || pc.PushStore? || pc.Extend? {
      OwnerShape(w, queues, a, pc, i);
    } else if pc.Pop3? || pc.Pop4? {
      PopShape(w, queues, a, pc, i);
    } else if pc.Take? {
      TakeShape(w, queues, a, pc, i);
    } else if pc.Book4? {
      BookShape(w, queues, a, pc, i);
    } else if pc.Put? || pc.Publish? || pc.Release? {
      MoverShape(w, queues, a, pc, i);
    } else {
      OtherShape(w, queues, a, pc, i);
    }
  }

  /** Every step refines: the queue it changes makes exactly the named move of a deque with
      one open steal. */
  lemma StepRefines(w: nat, queues: seq<Queue>, a: nat, pc: Agent, i: Input)
    requires QueuesInv(w, queues) && QueuesTyped(queues) && AgentInv(queues, a, pc) && AgentTyped(|queues|, pc)
    requires Good(w, queues, a, pc, Next(false, w, queues, a, pc, i)) && Next(false, w, queues, a, pc, i).On?
    ensures var e := Next(false, w, queues, a, pc, i);
      Refines(queues[e.q], e.queue, EventOf(pc, e, i))
  {
    var e := Next(false, w, queues, a, pc, i);
    StepShape(w, queues, a, pc, i);
    ShapeRefines(w, queues[e.q], e.queue, EventOf(pc, e, i));
  }

  /** What an agent carries between two queues. */
  function Hand(pc: Agent): Slot {
    if pc.Put? then Held(pc.item) else Vacant
  }

  /** The item a steal or a pop moves out is the one the deque says is due: it goes to the
      consumer, or into the thief's hand. */
  lemma HandsOut(w: nat, queues: seq<Queue>, a: nat, pc: Agent, i: Input)
    requires QueuesInv(w, queues) && QueuesTyped(queues) && AgentInv(queues, a, pc) && AgentTyped(|queues|, pc)
    requires pc.Take? || pc.Pop4?
    ensures var e := Next(false, w, queues, a, pc, i);
      && e.On? && e.q < |queues|
      && var v := ViewOf(queues[e.q]);
      && (pc.Take? ==> v.loot != [] && (if e.pc.Put? then e.pc.item == v.loot[0] && e.got == multiset{} else e.got == multiset{v.loot[0]}))
      && (pc.Pop4? ==> |v.above| == 1 && e.got == multiset{v.above[0]} && e.pc.Idle?)
  {
    if pc.Take? {
      TakeIs(w, queues[pc.m.src], pc.m, pc.k);
      LootRefines(w, queues[pc.m.src]);
    } else {
      ReadRefines(w, queues[pc.q]);
    }
  }

  /** A pop that returns `None` finds the deque empty at that very step. */
  lemma PopNoneIsEmpty(w: nat, queues: seq<Queue>, a: nat, pc: Agent, i: Input)
    requires QueuesInv(w, queues) && QueuesTyped(queues) && AgentInv(queues, a, pc) && AgentTyped(|queues|, pc)
    requires pc.Pop3? && Next(false, w, queues, a, pc, i) == Finish(queues, pc.q)
    ensures ViewOf(queues[pc.q]).deque == []
  {
  }

  /** A booking round that computes no items at all finds the deque empty at that very step,
      however old the words it computed from. */
  lemma NoItemsIsEmpty(w: nat, queues: seq<Queue>, a: nat, pc: Agent)
    requires QueuesInv(w, queues) && AgentInv(queues, a, pc) && pc.Book3?
    requires queues[pc.src].pushCount - pc.pop - pc.head == 0
    ensures ViewOf(queues[pc.src]).deque == []
  {
    assert AgentInv(queues, a, pc);
  }

  function QueueEvent(s: State, a: nat, i: Input, q: nat): Event
    requires Typed(s) && a < |s.agents|
  {
    var e := Next(false, s.w, s.queues, a, s.agents[a], i);
    if e.On? && e.q == q then EventOf(s.agents[a], e, i) else Silent
  }

  /** The moves that a schedule makes on queue `q`. */
  function Events(s: State, acts: seq<Act>, q: nat): seq<Event>
    decreases |acts|
  {
    if acts == [] || !Typed(s) then []
    else if acts[0].agent < |s.agents| then
      [QueueEvent(s, acts[0].agent, acts[0].input, q)] + Events(Step(false, s, acts[0].agent, acts[0].input), acts[1..], q)
    else Events(s, acts[1..], q)
  }

  /** A run of the deque with one open steal, if every move of it is allowed. */
  function Replay(v: View, events: seq<Event>): Option<View>
    decreases |events|
  {
    if events == [] then Some(v)
    else if Allowed(v, events[0]) then Replay(Advance(v, events[0]), events[1..])
    else None
  }

  lemma ApplyRefines(s: State, a: nat, pc: Agent, e: Effect, i: Input, q: nat)
    requires Inv(s) && a < |s.agents| && q < |s.queues| && Good(s.w, s.queues, a, pc, e)
    requires QueuesTyped(s.queues)
    requires e.On? && |e.queue.buffer| > 0 && e.q < |s.queues| ==> Refines(s.queues[e.q], e.queue, EventOf(pc, e, i))
    ensures var s' := Apply(s, a, e);
      && |s'.queues| == |s.queues| && |s'.queues[q].buffer| > 0
      && Refines(s.queues[q], s'.queues[q], if e.On? && e.q == q then EventOf(pc, e, i) else Silent)
  {
  }

  lemma QueueRefines(s: State, a: nat, i: Input, q: nat)
    requires Inv(s) && Typed(s) && a < |s.agents| && q < |s.queues|
    ensures var s' := Step(false, s, a, i);
      && |s'.queues| == |s.queues| && |s'.queues[q].buffer| > 0
      && Refines(s.queues[q], s'.queues[q], QueueEvent(s, a, i, q))
  {
    var pc := s.agents[a];
    var e := Next(false, s.w, s.queues, a, pc, i);
    GoodNext(s.w, s.queues, a, pc, i);
    if e.On? {
      StepRefines(s.w, s.queues, a, pc, i);
    }
    ApplyRefines(s, a, pc, e, i, q);
  }

  /** Whatever the interleaving, every queue of the network runs as a bounded deque. */
  lemma {:induction false} RunRefines(s: State, acts: seq<Act>, q: nat)
    requires Inv(s) && q < |s.queues| && |s.queues[q].buffer| > 0
    ensures Inv(Run(false, s, acts)) && Typed(Run(false, s, acts)) && |Run(false, s, acts).queues| == |s.queues|
    ensures Replay(ViewOf(s.queues[q]), Events(s, acts, q)) == Some(ViewOf(Run(false, s, acts).queues[q]))
    decreases |acts|
  {
    InvTyped(s);
    if acts != [] {
      var a, i := acts[0].agent, acts[0].input;
      if a < |s.agents| {
        StepKeeps(s, a, i);
        QueueRefines(s, a, i, q);
        RunRefines(Step(false, s, a, i), acts[1..], q);
      } else {
        RunRefines(s, acts[1..], q);
      }
    }
  }

  /** The positions an agent may still read, and those it may still write. */
  datatype Range = Range(q: nat, lo: int, hi: int)

  function ReadsOf(pc: Agent): Range {
    match pc
    case Take(m, k) => Range(m.src, m.from + k, m.until)
    case Put(m, k, _) => Range(m.src, m.from + k + 1, m.until)
    case Pop4(q, pos) => Range(q, pos, pos + 1)
    case _ => Range(0, 0, 0)
  }

  function Reserving(to: Sink, n: int): Range {
    if to.Into? then Range(to.r.q, to.r.tail + n, to.r.tail + to.room) else Range(0, 0, 0)
  }

  function WritesOf(queues: seq<Queue>, pc: Agent): Range
    requires AgentTyped(|queues|, pc)
  {
    match pc
    case PushWrite(r, _) => Range(r.q, r.tail, r.tail + 1)
    case Extend(r, n) => Range(r.q, r.tail + n, r.head + queues[r.q].cap)
    case Book1(_, to) => Reserving(to, 0)
    case Book2(_, to, _, _, _) => Reserving(to, 0)
    case Book3(_, to, _, _, _, _) => Reserving(to, 0)
    case Book4(_, to, _, _, _, _, _) => Reserving(to, 0)
    case Take(m, k) => Reserving(m.to, Min(k, Transfer(m)))
    case Put(m, k, _) => Reserving(m.to, k)
    case _ => Range(0, 0, 0)
  }

  /** Two ranges share no physical slot of the ring. */
  ghost predicate Apart(cap: nat, r: Range, r': Range)
    requires cap > 0
  {
    forall p, p' :: r.lo <= p < r.hi && r'.lo <= p' < r'.hi ==> p % cap != p' % cap
  }

  lemma WindowApart(cap: nat, base: int, r: Range, r': Range)
    requires cap > 0
    requires r.lo < r.hi ==> base <= r.lo && r.hi <= base + cap
    requires r'.lo < r'.hi ==> base <= r'.lo && r'.hi <= base + cap
    requires r.lo < r.hi && r'.lo < r'.hi ==> r.hi <= r'.lo || r'.hi <= r.lo
    ensures Apart(cap, r, r')
  {
    forall p, p' | r.lo <= p < r.hi && r'.lo <= p' < r'.hi ensures p % cap != p' % cap {
      if p % cap == p' % cap { ModNear(p, p', cap); }
    }
  }

  /** What an agent still has to read is booked by its own steal, or popped by itself. */
  lemma ReadsWithin(w: nat, queues: seq<Queue>, a: nat, pc: Agent)
    requires AgentInv(queues, a, pc) && QueuesInv(w, queues)
    ensures var r := ReadsOf(pc);
      r.lo < r.hi ==>
        && r.q < |queues|
        && var Q := queues[r.q];
        || (Q.thief == Some(a) && Q.head <= r.lo && r.hi <= Q.booked)
        || (Q.owner == Some(a) && r.lo == Tail(Q) && r.hi == Tail(Q) + Q.ahead && !pc.Take? && !pc.Put?)
  {
  }

  /** What an agent may still write lies above the tail and below the end of the ring. */
  lemma WritesWithin(w: nat, queues: seq<Queue>, a: nat, pc: Agent)
    requires AgentInv(queues, a, pc) && QueuesInv(w, queues) && AgentTyped(|queues|, pc)
    ensures var r := WritesOf(queues, pc);
      r.lo < r.hi ==>
        && r.q < |queues|
        && var Q := queues[r.q];
        && Q.owner == Some(a) && Tail(Q) + Q.ahead <= r.lo && r.hi <= Q.head + Q.cap
  {
  }

  /** No slot that one agent still has to read can be written by any agent, not even by
      itself in a steal from a queue into the same queue. */
  lemma ReadsAreSafe(s: State, a: nat, b: nat)
    requires Inv(s) && Typed(s) && a < |s.agents| && b < |s.agents|
    ensures var r, r' := ReadsOf(s.agents[a]), WritesOf(s.queues, s.agents[b]);
      r.q == r'.q && r.q < |s.queues| ==> Apart(s.queues[r.q].cap, r, r')
  {
    var r, r' := ReadsOf(s.agents[a]), WritesOf(s.queues, s.agents[b]);
    if r.q == r'.q && r.q < |s.queues| && r.lo < r.hi && r'.lo < r'.hi {
      ReadsWithin(s.w, s.queues, a, s.agents[a]);
      WritesWithin(s.w, s.queues, b, s.agents[b]);
      assert QueueInv(s.w, s.queues[r.q]);
      WindowApart(s.queues[r.q].cap, s.queues[r.q].head, r, r');
    }
  }

  /** Two agents never read the same slot, and never both write to one queue. */
  lemma AccessIsExclusive(s: State, a: nat, b: nat)
    requires Inv(s) && Typed(s) && a < |s.agents| && b < |s.agents| && a != b
    ensures var r, r' := ReadsOf(s.agents[a]), ReadsOf(s.agents[b]);
      r.q == r'.q && r.q < |s.queues| ==> Apart(s.queues[r.q].cap, r, r')
    ensures var v, v' := WritesOf(s.queues, s.agents[a]), WritesOf(s.queues, s.agents[b]);
      v.q == v'.q ==> v.lo >= v.hi || v'.lo >= v'.hi
  {
    var r, r' := ReadsOf(s.agents[a]), ReadsOf(s.agents[b]);
    WritesWithin(s.w, s.queues, a, s.agents[a]);
    WritesWithin(s.w, s.queues, b, s.agents[b]);
    if r.q == r'.q && r.q < |s.queues| && r.lo < r.hi && r'.lo < r'.hi {
      ReadsWithin(s.w, s.queues, a, s.agents[a]);
      ReadsWithin(s.w, s.queues, b, s.agents[b]);
      assert QueueInv(s.w, s.queues[r.q]);
      WindowApart(s.queues[r.q].cap, s.queues[r.q].head, r, r');
    }
  }
}
