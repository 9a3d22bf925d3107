/** The shipped wrap-around words simulate unbounded counters. */
module LifoWrap {
  import opened Words
  import opened Ring
  import opened LifoMachine
  import opened LifoSafety

  function WrapQueue(w: nat, Q: Queue): Queue
    requires w > 0
  {
    Q.(pushCount := Q.pushCount % w, popCount := Q.popCount % w, booked := Q.booked % w, head := Q.head % w)
  }

  function WrapReserve(w: nat, r: Reserve): Reserve
    requires w > 0
  {
    Reserve(r.q, r.push % w, r.pop % w, r.tail % w, r.head % w)
  }

  function WrapSink(w: nat, to: Sink): Sink
    requires w > 0
  {
    match to
    case Consumer => Consumer
    case Into(r, room, keep) => Into(WrapReserve(w, r), room, keep)
  }

  function WrapStamp(w: nat, t: Stamp): Stamp
    requires w > 0
  {
    Stamp(t.pop % w, t.head % w)
  }

  function WrapMove(w: nat, m: Move): Move
    requires w > 0
  {
    Move(m.src, WrapSink(w, m.to), m.from % w, m.count, m.until % w)
  }

  /** Every counter an agent holds, reduced to a word. */
  function WrapAgent(w: nat, pc: Agent): Agent
    requires w > 0
  {
    match pc
    case Idle => Idle
    case Tail1(q, goal) => Tail1(q, goal)
    case Tail2(q, goal, push) => Tail2(q, goal, push % w)
    case Tail3(q, goal, push, pop, tail) => Tail3(q, goal, push % w, pop % w, tail % w)
    case PushWrite(r, x) => PushWrite(WrapReserve(w, r), x)
    case PushStore(r) => PushStore(WrapReserve(w, r))
    case Extend(r, n) => Extend(WrapReserve(w, r), n)
    case Book1(src, to) => Book1(src, WrapSink(w, to))
    case Book2(src, to, t, pop, head) => Book2(src, WrapSink(w, to), WrapStamp(w, t), pop % w, head % w)
    case Book3(src, to, t, pop, head, seen) =>
      Book3(src, WrapSink(w, to), WrapStamp(w, t), pop % w, head % w, seen % w)
    case Book4(src, to, t, pop, head, seen, count) =>
      Book4(src, WrapSink(w, to), WrapStamp(w, t), pop % w, head % w, seen % w, count)
    case Take(m, k) => Take(WrapMove(w, m), k)
    case Put(m, k, x) => Put(WrapMove(w, m), k, x)
    case Publish(m) => Publish(WrapMove(w, m))
    case Release(m) => Release(WrapMove(w, m))
    case Pop1(q) => Pop1(q)
    case Pop2(q, pop, head) => Pop2(q, pop % w, head % w)
    case Pop3(q, pop, awaited, head, tail) => Pop3(q, pop % w, awaited % w, head % w, tail % w)
    case Pop4(q, pos) => Pop4(q, pos % w)
  }

  function WrapQueues(w: nat, queues: seq<Queue>): (r: seq<Queue>)
    requires w > 0
    ensures |r| == |queues|
  {
    seq(|queues|, q requires 0 <= q < |queues| => WrapQueue(w, queues[q]))
  }

  function WrapEffect(w: nat, e: Effect): Effect
    requires w > 0
  {
    match e
    case Stay => Stay
    case Fault => Fault
    case Local(pc) => Local(WrapAgent(w, pc))
    case On(pc, q, Q, put, got) => On(WrapAgent(w, pc), q, WrapQueue(w, Q), put, got)
  }

  /** The words that represent a state. */
  function Wrap(s: State): State
    requires s.w > 0
  {
    s.(queues := WrapQueues(s.w, s.queues),
       agents := seq(|s.agents|, a requires 0 <= a < |s.agents| => WrapAgent(s.w, s.agents[a])))
  }

  lemma WrapAgentTyped(w: nat, n: nat, pc: Agent)
    requires w > 0 && AgentTyped(n, pc)
    ensures AgentTyped(n, WrapAgent(w, pc))
  {
  }

  lemma WrapTyped(s: State)
    requires Typed(s)
    ensures Typed(Wrap(s))
  {
    forall a | 0 <= a < |s.agents| ensures AgentTyped(|s.queues|, Wrap(s).agents[a]) {
      WrapAgentTyped(s.w, |s.queues|, s.agents[a]);
    }
  }

  /** How many items a booking round is prepared to take, given the counters it holds. */
  function Offer(wrap: bool, w: nat, Q: Queue, to: Sink, pop: int, head: int, seen: int): int
    requires w > 0
  {
    if N(wrap, w, seen) != N(wrap, w, head) then 0
    else Min(MaxCount(w, to), N(wrap, w, Q.pushCount - pop - head))
  }

  /** The agent's next comparison does not let it go on because a counter has gone round a
      whole number of times since it was loaded. Only booking compares stale words of
      counters that others move. */
  predicate Fresh(w: nat, queues: seq<Queue>, pc: Agent)
    requires w > 0 && AgentTyped(|queues|, pc)
  {
    match pc
    case Book3(src, to, _, pop, head, seen) =>
      Offer(true, w, queues[src], to, pop, head, seen) <= Offer(false, w, queues[src], to, pop, head, seen)
    case Book4(src, _, _, pop, head, _, _) =>
      var Q := queues[src];
      Q.popCount % w == pop % w && Q.booked % w == head % w ==> Q.popCount == pop && Q.booked == head
    case _ => true
  }

  /** The decision of the environment under which the unbounded machine makes the move of the
      shipped words: the same, except that a booking round asks for no more items than the
      words let it see. */
  function Answer(w: nat, queues: seq<Queue>, pc: Agent, i: Input): Input
    requires w > 0 && AgentTyped(|queues|, pc)
  {
    match pc
    case Book3(src, to, _, pop, head, seen) =>
      var count := Min(Wanted(i), Offer(true, w, queues[src], to, pop, head, seen));
      Want(if count < 0 then 0 else count)
    case _ => i
  }

  /** A slot reached through a word is the slot reached through the position. */
  lemma SameCell(w: nat, Q: Queue, p: int)
    requires QueueInv(w, Q) && w > 0
    ensures Cell(Q.buffer, p % w) == Cell(Q.buffer, p)
    ensures forall x :: Write(Q.buffer, p % w, x) == Write(Q.buffer, p, x)
  {
    CellWord(Q.buffer, p, w);
  }

  /** A difference that fits a ring is computed exactly by words. */
  lemma SameDistance(x: int, y: int, w: nat)
    requires w > 0 && 0 <= x - y < w
    ensures (x % w - y % w) % w == x - y
  {
    ModSub(x, y, w);
    ModSmall(x - y, w);
  }

  lemma AgreesPlainLoad(w: nat, queues: seq<Queue>, a: nat, pc: Agent, i: Input)
    requires w > 0 && QueuesTyped(queues) && QueuesTyped(WrapQueues(w, queues))
    requires pc.Tail1? || pc.Book1? || pc.Book2? || pc.Pop1?
    requires AgentTyped(|queues|, pc) && AgentTyped(|queues|, WrapAgent(w, pc))
    ensures Next(true, w, WrapQueues(w, queues), a, WrapAgent(w, pc), i) == WrapEffect(w, Next(false, w, queues, a, pc, i))
  {
  }

  /** Loads that complete a tail. */
  lemma AgreesTailLoad(w: nat, queues: seq<Queue>, a: nat, pc: Agent, i: Input)
    requires w > 0 && QueuesTyped(queues) && QueuesTyped(WrapQueues(w, queues)) && (pc.Tail2? || pc.Pop2?)
    requires AgentTyped(|queues|, pc) && AgentTyped(|queues|, WrapAgent(w, pc))
    ensures Next(true, w, WrapQueues(w, queues), a, WrapAgent(w, pc), i) == WrapEffect(w, Next(false, w, queues, a, pc, i))
  {
    if pc.Tail2? {
      ModSub(pc.push, queues[pc.q].popCount, w);
    } else {
      ModSub(queues[pc.q].pushCount, pc.pop, w);
    }
  }

  lemma AgreesLoad(w: nat, queues: seq<Queue>, a: nat, pc: Agent, i: Input)
    requires w > 0 && QueuesTyped(queues) && QueuesTyped(WrapQueues(w, queues)) && IsLoad(pc)
    requires AgentTyped(|queues|, pc) && AgentTyped(|queues|, WrapAgent(w, pc))
    ensures Next(true, w, WrapQueues(w, queues), a, WrapAgent(w, pc), i) == WrapEffect(w, Next(false, w, queues, a, pc, i))
  {
    if pc.Tail2? || pc.Pop2? {
      AgreesTailLoad(w, queues, a, pc, i);
    } else {
      AgreesPlainLoad(w, queues, a, pc, i);
    }
  }

  lemma AgreesAcquire(w: nat, queues: seq<Queue>, a: nat, q: nat, pc: Agent)
    requires w > 0
    ensures Acquire(WrapQueues(w, queues), a, q, WrapAgent(w, pc)) == WrapEffect(w, Acquire(queues, a, q, pc))
  {
  }

  lemma AgreesBegin(w: nat, queues: seq<Queue>, a: nat, i: Input)
    requires w > 0
    ensures Begin(WrapQueues(w, queues), a, i) == WrapEffect(w, Begin(queues, a, i))
  {
    match i
    case StartPush(q, x) => AgreesAcquire(w, queues, a, q, Tail1(q, ToPush(x)));
    case StartExtend(q) => AgreesAcquire(w, queues, a, q, Tail1(q, ToExtend));
    case StartMeasure(q) => AgreesAcquire(w, queues, a, q, Tail1(q, ToMeasure));
    case StartSteal(src, dst, keep) => AgreesAcquire(w, queues, a, dst, Tail1(dst, ToSteal(src, keep)));
    case StartPop(q) => AgreesAcquire(w, queues, a, q, Pop1(q));
    case _ =>
  }

  lemma AgreesAbort(w: nat, queues: seq<Queue>, to: Sink)
    requires w > 0 && SinkTyped(|queues|, to)
    ensures Abort(WrapQueues(w, queues), WrapSink(w, to)) == WrapEffect(w, Abort(queues, to))
  {
  }

  lemma AgreesReserved(w: nat, queues: seq<Queue>, r: Reserve, goal: Goal)
    requires w > 0 && r.q < |queues| && 0 <= r.tail - r.head < w
    ensures Reserved(true, w, WrapQueues(w, queues), WrapReserve(w, r), goal) == WrapEffect(w, Reserved(false, w, queues, r, goal))
  {
    SameDistance(r.tail, r.head, w);
  }

  lemma AgreesWriteSlot(w: nat, pc: Agent, q: nat, Q: Queue, pos: int, item: Item, put: multiset<Item>)
    requires w > 0 && QueueInv(w, Q)
    ensures WriteSlot(WrapAgent(w, pc), q, WrapQueue(w, Q), pos % w, item, put) == WrapEffect(w, WriteSlot(pc, q, Q, pos, item, put))
  {
    SameCell(w, Q, pos);
  }

  lemma AgreesExtend(w: nat, Q: Queue, i: Input, r: Reserve, n: nat)
    requires w > 0 && QueueInv(w, Q) && 0 <= r.head + Q.cap - (r.tail + n) < w
    ensures StepExtend(true, w, WrapQueue(w, Q), i, WrapReserve(w, r), n) == WrapEffect(w, StepExtend(false, w, Q, i, r, n))
  {
    ModAdd(r.tail, n, w);
    ModAdd(r.head, Q.cap, w);
    if i.Give? && r.tail + n != r.head + Q.cap {
      assert (r.tail + n) % w != (r.head + Q.cap) % w by {
        if (r.tail + n) % w == (r.head + Q.cap) % w { ModNear(r.tail + n, r.head + Q.cap, w); }
      }
      AgreesWriteSlot(w, Extend(r, n + 1), r.q, Q, r.tail + n, i.item, multiset{i.item});
    } else {
      ModAdd(r.tail + n, r.pop % w, w);
      ModAdd(r.pop, r.tail + n, w);
    }
  }

  lemma AgreesStore(w: nat, pc: Agent, q: nat, Q: Queue, push: int, n: int)
    requires w > 0
    ensures Only(WrapAgent(w, pc), q, Published(WrapQueue(w, Q), (push % w + n) % w)) == WrapEffect(w, Only(pc, q, Published(Q, push + n)))
  {
    ModAdd(push, n, w);
  }

  /** A drain stops at the same item. */
  lemma SameEnd(w: nat, m: Move, k: nat)
    requires w > 0 && 0 <= m.until - (m.from + k + 1) < w
    ensures (m.from % w + k + 1) % w == m.until % w <==> m.from + k + 1 == m.until
  {
    ModAdd(m.from, k + 1, w);
    if (m.from + k + 1) % w == m.until % w { ModNear(m.from + k + 1, m.until, w); }
  }

  /** What the thief's step makes of its queue, at a word. */
  lemma AgreesVacate(w: nat, Q: Queue, pos: int)
    requires w > 0 && QueueInv(w, Q)
    ensures Cell(Q.buffer, pos % w) == Cell(Q.buffer, pos)
    ensures Vacate(WrapQueue(w, Q), pos % w).(moved := Q.moved + 1) == WrapQueue(w, Vacate(Q, pos).(moved := Q.moved + 1))
  {
    SameCell(w, Q, pos);
  }

  lemma AgreesTakeSlot(w: nat, Q: Queue, m: Move, k: nat, pos: int, last: bool)
    requires w > 0 && QueueInv(w, Q)
    ensures TakeSlot(WrapQueue(w, Q), WrapMove(w, m), k, pos % w, last) == WrapEffect(w, TakeSlot(Q, m, k, pos, last))
  {
    AgreesVacate(w, Q, pos);
    AgreesTaken(w, Q, WrapQueue(w, Q), m, k, pos, pos % w, last);
  }

  /** Where a steal goes on after moving item `k` out, on words as on unbounded counters. */
  function Onward(m: Move, k: nat, x: Item, last: bool): Agent {
    if m.to.Into? then (if k < Transfer(m) then Put(m, k, x) else Publish(m))
    else if last then Release(m) else Take(m, k + 1)
  }

  lemma OnwardWraps(w: nat, m: Move, k: nat, x: Item, last: bool)
    requires w > 0
    ensures Onward(WrapMove(w, m), k, x, last) == WrapAgent(w, Onward(m, k, x, last))
  {
  }

  lemma TakeSlotIs(Q: Queue, m: Move, k: nat, pos: int, last: bool)
    requires |Q.buffer| > 0
    ensures TakeSlot(Q, m, k, pos, last)
      == match Cell(Q.buffer, pos)
         case Vacant => Fault
         case Held(x) => On(Onward(m, k, x, last), m.src, Vacate(Q, pos).(moved := Q.moved + 1), multiset{},
                            if m.to.Into? && k < Transfer(m) then multiset{} else multiset{x})
  {
  }

  lemma AgreesTaken(w: nat, Q: Queue, C: Queue, m: Move, k: nat, pos: int, word: int, last: bool)
    requires w > 0 && |Q.buffer| > 0 && |C.buffer| > 0 && Cell(C.buffer, word) == Cell(Q.buffer, pos) && C.moved == Q.moved
    requires Vacate(C, word).(moved := C.moved + 1) == WrapQueue(w, Vacate(Q, pos).(moved := Q.moved + 1))
    ensures TakeSlot(C, WrapMove(w, m), k, word, last) == WrapEffect(w, TakeSlot(Q, m, k, pos, last))
  {
    TakeSlotIs(Q, m, k, pos, last);
    TakeSlotIs(C, WrapMove(w, m), k, word, last);
    match Cell(Q.buffer, pos)
    case Vacant =>
    case Held(x) => OnwardWraps(w, m, k, x, last);
  }

  lemma AgreesTake(w: nat, Q: Queue, m: Move, k: nat)
    requires w > 0 && QueueInv(w, Q) && 0 <= m.until - (m.from + k + 1) < w
    ensures StepTake(true, w, WrapQueue(w, Q), WrapMove(w, m), k) == WrapEffect(w, StepTake(false, w, Q, m, k))
  {
    ModAdd(m.from, k, w);
    SameEnd(w, m, k);
    AgreesTakeSlot(w, Q, m, k, m.from + k, m.from + k + 1 == m.until);
  }

  lemma AgreesPut(w: nat, Q: Queue, m: Move, k: nat, x: Item)
    requires w > 0 && QueueInv(w, Q) && m.to.Into?
    ensures StepPut(true, w, WrapQueue(w, Q), WrapMove(w, m), k, x) == WrapEffect(w, StepPut(false, w, Q, m, k, x))
  {
    var pc := if k + 1 < Transfer(m) || m.to.keepLast then Take(m, k + 1) else Publish(m);
    ModAdd(m.to.r.tail, k, w);
    AgreesWriteSlot(w, pc, m.to.r.q, Q, m.to.r.tail + k, x, multiset{});
  }

  /** The owner's CAS needs no bound: the tail cannot move under it, and both the word it
      holds and the current one lie within one ring length below that tail. */
  lemma AgreesPop(w: nat, Q: Queue, i: Input, q: nat, pop: int, head: int, tail: int)
    requires w > 0 && pop == Q.popCount && 0 <= tail - head < w && 0 <= Q.booked - head < w
    ensures StepPop(true, w, WrapQueue(w, Q), i, q, pop % w, pop % w, head % w, tail % w) == WrapEffect(w, StepPop(false, w, Q, i, q, pop, pop, head, tail))
  {
    if tail % w == head % w { ModNear(tail, head, w); }
    if Q.booked % w == head % w { ModNear(Q.booked, head, w); }
    ModAdd(tail, -1, w);
    ModAdd(pop, 1, w);
  }

  lemma AgreesRead(w: nat, Q: Queue, q: nat, pos: int)
    requires w > 0 && QueueInv(w, Q)
    ensures StepRead(WrapQueue(w, Q), q, pos % w) == WrapEffect(w, StepRead(Q, q, pos))
  {
    SameCell(w, Q, pos);
  }

  lemma AgreesCas(w: nat, Q: Queue, a: nat, i: Input, src: nat, to: Sink, t: Stamp, pop: int, head: int, seen: int, count: int)
    requires w > 0
    requires Q.popCount % w == pop % w && Q.booked % w == head % w ==> Q.popCount == pop && Q.booked == head
    ensures StepBook(true, w, WrapQueue(w, Q), a, i, src, WrapSink(w, to), WrapStamp(w, t), pop % w, head % w, seen % w, count)
      == WrapEffect(w, StepBook(false, w, Q, a, i, src, to, t, pop, head, seen, count))
  {
    ModAdd(head, count, w);
  }

  /** What a booking round does once it knows how many items it may take. */
  function Decide(queues: seq<Queue>, i: Input, src: nat, to: Sink, t: Stamp, pop: int, head: int, seen: int, offer: int): Effect
    requires SinkTyped(|queues|, to)
  {
    var count := Min(Wanted(i), offer);
    if count == 0 then Abort(queues, to) else Local(Book4(src, to, t, pop, head, seen, count))
  }

  lemma SizeDecides(w: nat, queues: seq<Queue>, i: Input, src: nat, to: Sink, t: Stamp, pop: int, head: int, seen: int)
    requires w > 0 && src < |queues| && SinkTyped(|queues|, to) && MaxCount(w, to) >= 0
    requires queues[src].pushCount - pop - head >= 0
    ensures StepSize(false, w, queues, i, src, to, t, pop, head, seen)
      == Decide(queues, i, src, to, t, pop, head, seen, Offer(false, w, queues[src], to, pop, head, seen))
  {
  }

  lemma WordCount(push: int, pop: int, head: int, w: nat)
    requires w > 0
    ensures ((push % w - pop % w) % w - head % w) % w == (push - pop - head) % w
  {
    ModSub(push, pop, w);
    var tail := push - pop;
    ModSub(tail, head, w);
  }

  /** A round that has computed `itemCount`, in terms of its offer. */
  lemma RoundDecides(w: nat, queues: seq<Queue>, i: Input, src: nat, to: Sink, t: Stamp, pop: int, head: int, seen: int, itemCount: int)
    requires SinkTyped(|queues|, to) && MaxCount(w, to) >= 0 && itemCount >= 0
    ensures Round(w, queues, i, src, to, t, pop, head, seen, itemCount)
      == Decide(queues, i, src, to, t, pop, head, seen, if seen != head then 0 else Min(MaxCount(w, to), itemCount))
  {
  }

  lemma SizeIsRound(w: nat, queues: seq<Queue>, i: Input, src: nat, to: Sink, t: Stamp, push: int, pop: int, head: int, seen: int, n: int)
    requires w > 0 && src < |queues| && SinkTyped(|queues|, to) && queues[src].pushCount == push
    requires ((push - pop) % w - head) % w == n
    ensures StepSize(true, w, queues, i, src, to, t, pop, head, seen) == Round(w, queues, i, src, to, t, pop, head, seen, n)
  {
  }

  lemma WrappedOffer(w: nat, Q: Queue, to: Sink, pop: int, head: int, seen: int, n: int)
    requires w > 0 && n == ((Q.pushCount % w - pop % w) % w - head % w) % w
    ensures n >= 0 && Offer(true, w, Q, to, pop, head, seen) == if seen % w != head % w then 0 else Min(MaxCount(w, to), n)
  {
    WordCount(Q.pushCount, pop, head, w);
  }

  /** A round on words, with all its words named. */
  lemma WordRound(w: nat, queues: seq<Queue>, i: Input, src: nat, to: Sink, t: Stamp, push: int, pop: int, head: int, seen: int, n: int, offer: int)
    requires w > 0 && src < |queues| && SinkTyped(|queues|, to) && MaxCount(w, to) >= 0 && n >= 0
    requires queues[src].pushCount == push && ((push - pop) % w - head) % w == n
    requires offer == if seen != head then 0 else Min(MaxCount(w, to), n)
    ensures StepSize(true, w, queues, i, src, to, t, pop, head, seen) == Decide(queues, i, src, to, t, pop, head, seen, offer)
  {
    SizeIsRound(w, queues, i, src, to, t, push, pop, head, seen, n);
    RoundDecides(w, queues, i, src, to, t, pop, head, seen, n);
  }

  lemma WrappedSizeDecides(w: nat, queues: seq<Queue>, i: Input, src: nat, to: Sink, t: Stamp, pop: int, head: int, seen: int)
    requires w > 0 && src < |queues| && SinkTyped(|queues|, to) && MaxCount(w, to) >= 0
    ensures StepSize(true, w, WrapQueues(w, queues), i, src, WrapSink(w, to), t, pop % w, head % w, seen % w)
      == Decide(WrapQueues(w, queues), i, src, WrapSink(w, to), t, pop % w, head % w, seen % w, Offer(true, w, queues[src], to, pop, head, seen))
  {
    var push, n := queues[src].pushCount % w, ((queues[src].pushCount % w - pop % w) % w - head % w) % w;
    WrappedOffer(w, queues[src], to, pop, head, seen, n);
    WordRound(w, WrapQueues(w, queues), i, src, WrapSink(w, to), t, push, pop % w, head % w, seen % w, n, Offer(true, w, queues[src], to, pop, head, seen));
  }

  lemma AgreesDecide(w: nat, queues: seq<Queue>, i: Input, src: nat, to: Sink, t: Stamp, pop: int, head: int, seen: int, offer: int)
    requires w > 0 && SinkTyped(|queues|, to)
    ensures Decide(WrapQueues(w, queues), i, src, WrapSink(w, to), WrapStamp(w, t), pop % w, head % w, seen % w, offer)
      == WrapEffect(w, Decide(queues, i, src, to, t, pop, head, seen, offer))
  {
    AgreesAbort(w, queues, to);
  }

  ghost predicate Follows(w: nat, queues: seq<Queue>, a: nat, pc: Agent, i: Input, i': Input)
    requires w > 0 && QueuesTyped(queues) && QueuesTyped(WrapQueues(w, queues))
    requires AgentTyped(|queues|, pc) && AgentTyped(|queues|, WrapAgent(w, pc))
  {
    Next(true, w, WrapQueues(w, queues), a, WrapAgent(w, pc), i) == WrapEffect(w, Next(false, w, queues, a, pc, i'))
  }

  ghost predicate Mimics(w: nat, queues: seq<Queue>, a: nat, pc: Agent, i: Input)
    requires w > 0 && QueuesTyped(queues) && QueuesTyped(WrapQueues(w, queues))
    requires AgentTyped(|queues|, pc) && AgentTyped(|queues|, WrapAgent(w, pc))
  {
    exists i' :: Follows(w, queues, a, pc, i, i')
  }

  /** The shipped words make a move of the unbounded machine, whatever the environment decides. */
  ghost predicate Simulates(w: nat, queues: seq<Queue>, a: nat, pc: Agent)
    requires w > 0 && QueuesTyped(queues) && QueuesTyped(WrapQueues(w, queues))
    requires AgentTyped(|queues|, pc) && AgentTyped(|queues|, WrapAgent(w, pc))
  {
    forall i :: Mimics(w, queues, a, pc, i)
  }

  lemma AgreesOwner(w: nat, queues: seq<Queue>, a: nat, pc: Agent, i: Input)
    requires QueuesInv(w, queues) && QueuesTyped(queues) && QueuesTyped(WrapQueues(w, queues))
    requires AgentInv(queues, a, pc) && AgentTyped(|queues|, pc) && AgentTyped(|queues|, WrapAgent(w, pc))
    requires pc.Idle? || pc.Tail3? || pc.PushWrite? || pc.PushStore? || pc.Extend?
    ensures Next(true, w, WrapQueues(w, queues), a, WrapAgent(w, pc), i) == WrapEffect(w, Next(false, w, queues, a, pc, i))
  {
    match pc
    case Idle => AgreesBegin(w, queues, a, i);
    case Tail3(q, goal, push, pop, tail) => AgreesReserved(w, queues, Reserve(q, push, pop, tail, queues[q].head), goal);
    case PushWrite(r, x) => AgreesWriteSlot(w, PushStore(r), r.q, queues[r.q], r.tail, x, multiset{x});
    case PushStore(r) => AgreesStore(w, Idle, r.q, queues[r.q], r.push, 1);
    case Extend(r, n) => AgreesExtend(w, queues[r.q], i, r, n);
  }

  lemma AgreesPops(w: nat, queues: seq<Queue>, a: nat, pc: Agent, i: Input)
    requires QueuesInv(w, queues) && QueuesTyped(queues) && QueuesTyped(WrapQueues(w, queues))
    requires AgentInv(queues, a, pc) && AgentTyped(|queues|, pc) && AgentTyped(|queues|, WrapAgent(w, pc))
    requires pc.Pop3? || pc.Pop4?
    ensures Next(true, w, WrapQueues(w, queues), a, WrapAgent(w, pc), i) == WrapEffect(w, Next(false, w, queues, a, pc, i))
  {
    match pc
    case Pop3(q, pop, awaited, head, tail) => AgreesPop(w, queues[q], i, q, pop, head, tail);
    case Pop4(q, pos) => AgreesRead(w, queues[q], q, pos);
  }

  lemma AgreesMover(w: nat, queues: seq<Queue>, a: nat, pc: Agent, i: Input)
    requires QueuesInv(w, queues) && QueuesTyped(queues) && QueuesTyped(WrapQueues(w, queues))
    requires AgentInv(queues, a, pc) && AgentTyped(|queues|, pc) && AgentTyped(|queues|, WrapAgent(w, pc))
    requires pc.Take? || pc.Put?
    ensures Next(true, w, WrapQueues(w, queues), a, WrapAgent(w, pc), i) == WrapEffect(w, Next(false, w, queues, a, pc, i))
  {
    match pc
    case Take(m, k) => AgreesTake(w, queues[m.src], m, k);
    case Put(m, k, x) => AgreesPut(w, queues[m.to.r.q], m, k, x);
  }

  lemma AgreesPublish(w: nat, queues: seq<Queue>, m: Move)
    requires w > 0 && m.to.Into? && m.to.r.q < |queues|
    ensures Only(Release(WrapMove(w, m)), m.to.r.q, Published(WrapQueues(w, queues)[m.to.r.q], (m.to.r.push % w + Transfer(m)) % w))
         == WrapEffect(w, Only(Release(m), m.to.r.q, Published(queues[m.to.r.q], m.to.r.push + Transfer(m))))
  {
    AgreesStore(w, Release(m), m.to.r.q, queues[m.to.r.q], m.to.r.push, Transfer(m));
  }

  lemma AgreesCloser(w: nat, queues: seq<Queue>, a: nat, pc: Agent, i: Input)
    requires w > 0 && QueuesTyped(queues) && QueuesTyped(WrapQueues(w, queues))
    requires AgentTyped(|queues|, pc) && AgentTyped(|queues|, WrapAgent(w, pc))
    requires pc.Publish? || pc.Release?
    ensures Next(true, w, WrapQueues(w, queues), a, WrapAgent(w, pc), i) == WrapEffect(w, Next(false, w, queues, a, pc, i))
  {
    if pc.Publish? { AgreesPublish(w, queues, pc.m); }
  }

  lemma AgreesOutsideBooking(w: nat, queues: seq<Queue>, a: nat, pc: Agent, i: Input)
    requires QueuesInv(w, queues) && QueuesTyped(queues) && QueuesTyped(WrapQueues(w, queues))
    requires AgentInv(queues, a, pc) && AgentTyped(|queues|, pc) && AgentTyped(|queues|, WrapAgent(w, pc))
    requires !pc.Book3? && !pc.Book4?
    ensures Next(true, w, WrapQueues(w, queues), a, WrapAgent(w, pc), i) == WrapEffect(w, Next(false, w, queues, a, pc, i))
  {
    if pc.Take? || pc.Put? {
      AgreesMover(w, queues, a, pc, i);
    } else if pc.Publish? || pc.Release? {
      AgreesCloser(w, queues, a, pc, i);
    } else if IsLoad(pc) {
      AgreesLoad(w, queues, a, pc, i);
    } else if pc.Pop3? || pc.Pop4? {
      AgreesPops(w, queues, a, pc, i);
    } else {
      AgreesOwner(w, queues, a, pc, i);
    }
  }

  lemma SizeIs(w: nat, queues: seq<Queue>, a: nat, pc: Agent, i: Input, i': Input)
    requires QueuesInv(w, queues) && QueuesTyped(queues) && QueuesTyped(WrapQueues(w, queues))
    requires AgentInv(queues, a, pc) && AgentTyped(|queues|, pc) && AgentTyped(|queues|, WrapAgent(w, pc)) && pc.Book3?
    ensures var Book3(src, to, t, pop, head, seen) := pc;
      var o, o' := Offer(false, w, queues[src], to, pop, head, seen), Offer(true, w, queues[src], to, pop, head, seen);
      && o >= 0 && o' >= 0
      && Next(false, w, queues, a, pc, i') == Decide(queues, i', src, to, t, pop, head, seen, o)
      && Next(true, w, WrapQueues(w, queues), a, WrapAgent(w, pc), i)
         == WrapEffect(w, Decide(queues, i, src, to, t, pop, head, seen, o'))
  {
    var Book3(src, to, t, pop, head, seen) := pc;
    assert MaxCount(w, to) >= 0;
    SizeDecides(w, queues, i', src, to, t, pop, head, seen);
    WrappedSizeDecides(w, queues, i, src, to, WrapStamp(w, t), pop, head, seen);
    AgreesDecide(w, queues, i, src, to, t, pop, head, seen, Offer(true, w, queues[src], to, pop, head, seen));
  }

  lemma DecideSame(queues: seq<Queue>, i: Input, i': Input, src: nat, to: Sink, t: Stamp, pop: int, head: int, seen: int, o: int, o': int)
    requires SinkTyped(|queues|, to) && 0 <= o' <= o && Wanted(i') == Min(Wanted(i), o')
    ensures Decide(queues, i', src, to, t, pop, head, seen, o) == Decide(queues, i, src, to, t, pop, head, seen, o')
  {
  }

  lemma DecideDiffers(w: nat, queues: seq<Queue>, i': Input, src: nat, to: Sink, t: Stamp, pop: int, head: int, seen: int, o: int, o': int)
    requires w > 0 && SinkTyped(|queues|, to) && 0 <= o < o'
    ensures WrapEffect(w, Decide(queues, i', src, to, t, pop, head, seen, o))
         != WrapEffect(w, Decide(queues, Want(o'), src, to, t, pop, head, seen, o'))
  {
  }

  lemma AgreesSize(w: nat, queues: seq<Queue>, a: nat, pc: Agent, i: Input)
    requires QueuesInv(w, queues) && QueuesTyped(queues) && QueuesTyped(WrapQueues(w, queues))
    requires AgentInv(queues, a, pc) && AgentTyped(|queues|, pc) && AgentTyped(|queues|, WrapAgent(w, pc))
    requires pc.Book3? && Fresh(w, queues, pc)
    ensures Next(true, w, WrapQueues(w, queues), a, WrapAgent(w, pc), i)
         == WrapEffect(w, Next(false, w, queues, a, pc, Answer(w, queues, pc, i)))
  {
    var Book3(src, to, t, pop, head, seen) := pc;
    var o, o' := Offer(false, w, queues[src], to, pop, head, seen), Offer(true, w, queues[src], to, pop, head, seen);
    SizeIs(w, queues, a, pc, i, Answer(w, queues, pc, i));
    DecideSame(queues, i, Answer(w, queues, pc, i), src, to, t, pop, head, seen, o, o');
  }

  /** A fresh step of the shipped words is a step of the unbounded machine. Push, extend, pop,
      draining, moving and releasing are always fresh. */
  lemma FreshSimulates(w: nat, queues: seq<Queue>, a: nat, pc: Agent, i: Input)
    requires QueuesInv(w, queues) && QueuesTyped(queues) && QueuesTyped(WrapQueues(w, queues))
    requires AgentInv(queues, a, pc) && AgentTyped(|queues|, pc) && AgentTyped(|queues|, WrapAgent(w, pc))
    requires Fresh(w, queues, pc)
    ensures Next(true, w, WrapQueues(w, queues), a, WrapAgent(w, pc), i)
         == WrapEffect(w, Next(false, w, queues, a, pc, Answer(w, queues, pc, i)))
  {
    if pc.Book3? {
      AgreesSize(w, queues, a, pc, i);
    } else if pc.Book4? {
      AgreesCas(w, queues[pc.src], a, i, pc.src, pc.to, pc.since, pc.pop, pc.head, pc.seen, pc.count);
    } else {
      AgreesOutsideBooking(w, queues, a, pc, i);
    }
  }

  /** A booking round that is not fresh does what no round of the unbounded machine does. */
  lemma StaleDeviates(w: nat, queues: seq<Queue>, a: nat, pc: Agent, i': Input)
    requires QueuesInv(w, queues) && QueuesTyped(queues) && QueuesTyped(WrapQueues(w, queues))
    requires AgentInv(queues, a, pc) && AgentTyped(|queues|, pc) && AgentTyped(|queues|, WrapAgent(w, pc))
    requires !Fresh(w, queues, pc)
    ensures Next(true, w, WrapQueues(w, queues), a, WrapAgent(w, pc), Overreach(w, queues, pc))
         != WrapEffect(w, Next(false, w, queues, a, pc, i'))
  {
    if pc.Book3? {
      var Book3(src, to, t, pop, head, seen) := pc;
      var o, o' := Offer(false, w, queues[src], to, pop, head, seen), Offer(true, w, queues[src], to, pop, head, seen);
      SizeIs(w, queues, a, pc, Overreach(w, queues, pc), i');
      DecideDiffers(w, queues, i', src, to, t, pop, head, seen, o, o');
    }
  }

  /** The environment's decision that shows a stale round: `count_fn` asks for everything. */
  function Overreach(w: nat, queues: seq<Queue>, pc: Agent): Input
    requires w > 0 && AgentTyped(|queues|, pc)
  {
    match pc
    case Book3(src, to, _, pop, head, seen) =>
      var o := Offer(true, w, queues[src], to, pop, head, seen);
      Want(if o < 0 then 0 else o)
    case _ => Go
  }

  lemma FreshMimics(w: nat, queues: seq<Queue>, a: nat, pc: Agent, i: Input)
    requires QueuesInv(w, queues) && QueuesTyped(queues) && QueuesTyped(WrapQueues(w, queues))
    requires AgentInv(queues, a, pc) && AgentTyped(|queues|, pc) && AgentTyped(|queues|, WrapAgent(w, pc))
    requires Fresh(w, queues, pc)
    ensures Mimics(w, queues, a, pc, i)
  {
    FreshSimulates(w, queues, a, pc, i);
    assert Follows(w, queues, a, pc, i, Answer(w, queues, pc, i));
  }

  lemma StaleMimicsNothing(w: nat, queues: seq<Queue>, a: nat, pc: Agent)
    requires QueuesInv(w, queues) && QueuesTyped(queues) && QueuesTyped(WrapQueues(w, queues))
    requires AgentInv(queues, a, pc) && AgentTyped(|queues|, pc) && AgentTyped(|queues|, WrapAgent(w, pc))
    requires !Fresh(w, queues, pc)
    ensures !Mimics(w, queues, a, pc, Overreach(w, queues, pc))
  {
    forall i' ensures !Follows(w, queues, a, pc, Overreach(w, queues, pc), i') {
      StaleDeviates(w, queues, a, pc, i');
    }
  }

  /** The shipped words simulate the unbounded counters exactly when the step is fresh. */
  lemma SimulatesIffFresh(w: nat, queues: seq<Queue>, a: nat, pc: Agent)
    requires QueuesInv(w, queues) && QueuesTyped(queues) && QueuesTyped(WrapQueues(w, queues))
    requires AgentInv(queues, a, pc) && AgentTyped(|queues|, pc) && AgentTyped(|queues|, WrapAgent(w, pc))
    ensures Simulates(w, queues, a, pc) <==> Fresh(w, queues, pc)
  {
    if Fresh(w, queues, pc) {
      forall i ensures Mimics(w, queues, a, pc, i) {
        FreshMimics(w, queues, a, pc, i);
      }
    } else {
      StaleMimicsNothing(w, queues, a, pc);
    }
  }

  /** The documented bound: since a booking call began, fewer than one round of words of pops,
      and of stolen items. */
  predicate Bounded(w: nat, Q: Queue, since: Stamp) {
    Q.popCount - since.pop < w && Q.booked - since.head < w
  }

  /** Under the documented bound a booking call is never fooled, although it never reloads
      the released head. */
  lemma BoundedIsFresh(w: nat, queues: seq<Queue>, a: nat, pc: Agent)
    requires QueuesInv(w, queues) && AgentInv(queues, a, pc) && AgentTyped(|queues|, pc)
    requires pc.Book3? || pc.Book4? ==> Bounded(w, queues[pc.src], pc.since)
    ensures Fresh(w, queues, pc)
  {
    if pc.Book3? {
      var Q := queues[pc.src];
      if pc.seen % w == pc.head % w { ModNear(pc.seen, pc.head, w); }
      ModBelow(Q.pushCount - pc.pop - pc.head, w);
    } else if pc.Book4? {
      var Q := queues[pc.src];
      if Q.popCount % w == pc.pop % w { ModNear(Q.popCount, pc.pop, w); }
      if Q.booked % w == pc.head % w { ModNear(Q.booked, pc.head, w); }
    }
  }

  /** The schedule of the unbounded machine that the shipped words follow. */
  function Followed(s: State, acts: seq<Act>): seq<Act>
    decreases |acts|
  {
    if acts == [] || !Typed(s) then acts
    else if acts[0].agent < |s.agents| then
      var act := Act(acts[0].agent, Answer(s.w, s.queues, s.agents[acts[0].agent], acts[0].input));
      [act] + Followed(Step(false, s, act.agent, act.input), acts[1..])
    else [acts[0]] + Followed(s, acts[1..])
  }

  /** Along the schedule, no booking call is overtaken by a whole round of words. */
  ghost predicate BoundedRun(s: State, acts: seq<Act>)
    decreases |acts|
  {
    if acts == [] || !Typed(s) then true
    else if acts[0].agent < |s.agents| then
      var pc := s.agents[acts[0].agent];
      && (pc.Book3? || pc.Book4? ==> Bounded(s.w, s.queues[pc.src], pc.since))
      && BoundedRun(Step(false, s, acts[0].agent, acts[0].input), acts[1..])
    else BoundedRun(s, acts[1..])
  }

  lemma WrapApply(s: State, a: nat, e: Effect)
    requires s.w > 0 && a < |s.agents|
    ensures Wrap(Apply(s, a, e)) == Apply(Wrap(s), a, WrapEffect(s.w, e))
  {
    assert Wrap(Apply(s, a, e)).agents == Apply(Wrap(s), a, WrapEffect(s.w, e)).agents;
    assert Wrap(Apply(s, a, e)).queues == Apply(Wrap(s), a, WrapEffect(s.w, e)).queues;
  }

  lemma WrapStep(s: State, a: nat, i: Input)
    requires Inv(s) && Typed(s) && Typed(Wrap(s)) && a < |s.agents| && Fresh(s.w, s.queues, s.agents[a])
    ensures Step(true, Wrap(s), a, i) == Wrap(Step(false, s, a, Answer(s.w, s.queues, s.agents[a], i)))
  {
    var pc := s.agents[a];
    WrapAgentTyped(s.w, |s.queues|, pc);
    FreshSimulates(s.w, s.queues, a, pc, i);
    WrapApply(s, a, Next(false, s.w, s.queues, a, pc, Answer(s.w, s.queues, pc, i)));
  }

  /** Every run of the shipped words is the image of a run of the unbounded counters, as
      long as no booking call is overtaken. */
  lemma {:induction false} WrapRun(s: State, acts: seq<Act>)
    requires Inv(s) && BoundedRun(s, Followed(s, acts))
    ensures Inv(Run(false, s, Followed(s, acts)))
    ensures Run(true, Wrap(s), acts) == Wrap(Run(false, s, Followed(s, acts)))
    decreases |acts|
  {
    InvTyped(s);
    WrapTyped(s);
    if acts != [] {
      var a := acts[0].agent;
      if a < |s.agents| {
        var i := Answer(s.w, s.queues, s.agents[a], acts[0].input);
        assert Followed(s, acts)[1..] == Followed(Step(false, s, a, i), acts[1..]);
        BoundedIsFresh(s.w, s.queues, a, s.agents[a]);
        WrapStep(s, a, acts[0].input);
        StepKeeps(s, a, i);
        WrapRun(Step(false, s, a, i), acts[1..]);
      } else {
        assert Followed(s, acts)[1..] == Followed(s, acts[1..]);
        WrapRun(s, acts[1..]);
      }
    }
  }
}
