/** The shipped wrap-around words of the FIFO queue simulate unbounded positions. */
module FifoWrap {
  import opened Words
  import opened Ring
  import opened FifoMachine
  import opened FifoSafety

  function WrapQueue(w: nat, Q: Queue): Queue
    requires w > 0
  {
    Q.(tail := Q.tail % w, worker := Q.worker % w, stealer := Q.stealer % w, until := Q.until % w,
       reading := if Q.reading.Some? then Some(Q.reading.value % w) else None)
  }

  function WrapReserve(w: nat, r: Reserve): Reserve
    requires w > 0
  {
    Reserve(r.q, r.tail % w, r.head % w)
  }

  function WrapSink(w: nat, to: Sink): Sink
    requires w > 0
  {
    match to
    case Consumer => Consumer
    case Into(r, room, keep) => Into(WrapReserve(w, r), room, keep)
  }

  function WrapMove(w: nat, m: Move): Move
    requires w > 0
  {
    Move(m.src, WrapSink(w, m.to), m.from % w, m.count, m.until % w)
  }

  /** Every position an agent holds, reduced to a word. */
  function WrapAgent(w: nat, pc: Agent): Agent
    requires w > 0
  {
    match pc
    case Idle => Idle
    case Room1(q, goal) => Room1(q, goal)
    case Room2(q, goal, stealer) => Room2(q, goal, stealer % w)
    case Dest1(q, src, keep) => Dest1(q, src, keep)
    case Dest2(q, src, keep, tail) => Dest2(q, src, keep, tail % w)
    case Empty1(q) => Empty1(q)
    case Empty2(q, worker) => Empty2(q, worker % w)
    case PushWrite(r, x) => PushWrite(WrapReserve(w, r), x)
    case PushStore(r) => PushStore(WrapReserve(w, r))
    case Extend(r, n) => Extend(WrapReserve(w, r), n)
    case Book1(src, to) => Book1(src, WrapSink(w, to))
    case Book2(src, to, t, worker, stealer) => Book2(src, WrapSink(w, to), t % w, worker % w, stealer % w)
    case Book3(src, to, t, worker, stealer, count) => Book3(src, WrapSink(w, to), t % w, worker % w, stealer % w, count)
    case Take(m, k) => Take(WrapMove(w, m), k)
    case Put(m, k, x) => Put(WrapMove(w, m), k, x)
    case Publish(m) => Publish(WrapMove(w, m))
    case Done1(m) => Done1(WrapMove(w, m))
    case Done2(m, worker, stealer) => Done2(WrapMove(w, m), worker % w, stealer % w)
    case Pop1(q) => Pop1(q)
    case Pop2(q, worker, stealer) => Pop2(q, worker % w, stealer % w)
    case Pop3(q, worker, stealer) => Pop3(q, worker % w, stealer % w)
    case Pop4(q, pos) => Pop4(q, pos % w)
  }

  function WrapQueues(w: nat, queues: seq<Queue>): (r: seq<Queue>)
    requires w > 0
    ensures |r| == |queues|
  {
    seq(|queues|, q requires 0 <= q < |queues| => WrapQueue(w, queues[q]))
  }

  function WrapEffect(w: nat, e: Effect): Effect
    requires w > 0
  {
    match e
    case Stay => Stay
    case Fault => Fault
    case Local(pc) => Local(WrapAgent(w, pc))
    case On(pc, q, Q, put, got) => On(WrapAgent(w, pc), q, WrapQueue(w, Q), put, got)
  }

  /** The words that represent a state. */
  function Wrap(s: State): State
    requires s.w > 0
  {
    s.(queues := WrapQueues(s.w, s.queues),
       agents := seq(|s.agents|, a requires 0 <= a < |s.agents| => WrapAgent(s.w, s.agents[a])))
  }

  lemma WrapAgentTyped(w: nat, n: nat, pc: Agent)
    requires w > 0 && AgentTyped(n, pc)
    ensures AgentTyped(n, WrapAgent(w, pc))
  {
  }

  lemma WrapTyped(s: State)
    requires Typed(s)
    ensures Typed(Wrap(s))
  {
    forall a | 0 <= a < |s.agents| ensures AgentTyped(|s.queues|, Wrap(s).agents[a]) {
      WrapAgentTyped(s.w, |s.queues|, s.agents[a]);
    }
  }

  /** The booking CAS does not succeed merely because both heads have gone round a whole
      number of times since they were loaded. Nothing else compares words that can be stale
      by more than one ring length. */
  predicate Fresh(w: nat, queues: seq<Queue>, pc: Agent)
    requires w > 0 && AgentTyped(|queues|, pc)
  {
    match pc
    case Book3(src, _, _, worker, stealer, _) =>
      var Q := queues[src];
      Q.worker % w == worker % w && Q.stealer % w == stealer % w ==> Q.worker == worker && Q.stealer == stealer
    case _ => true
  }

  /** How many items a booking round is prepared to take, given the heads it holds. */
  function Offer(wrap: bool, w: nat, Q: Queue, to: Sink, worker: int, stealer: int): int
    requires w > 0
  {
    if N(wrap, w, stealer) != N(wrap, w, worker) then 0
    else Min(MaxCount(w, to), N(wrap, w, Q.tail - worker))
  }

  /** The decision of the environment under which the unbounded machine makes the move of the
      shipped words: the same, except that a booking round asks for no more items than the
      words let it see. */
  function Answer(w: nat, queues: seq<Queue>, pc: Agent, i: Input): Input
    requires w > 0 && AgentTyped(|queues|, pc)
  {
    match pc
    case Book2(src, to, _, worker, stealer) =>
      var count := Min(Wanted(i), Offer(true, w, queues[src], to, worker, stealer));
      Want(if count < 0 then 0 else count)
    case _ => i
  }

  /** A slot reached through a word is the slot reached through the position. */
  lemma SameCell(w: nat, Q: Queue, p: int)
    requires QueueInv(w, Q) && w > 0
    ensures Cell(Q.buffer, p % w) == Cell(Q.buffer, p)
    ensures forall x :: Write(Q.buffer, p % w, x) == Write(Q.buffer, p, x)
  {
    CellWord(Q.buffer, p, w);
  }

  /** A difference that fits a ring is computed exactly by words. */
  lemma SameDistance(x: int, y: int, w: nat)
    requires w > 0 && 0 <= x - y < w
    ensures (x % w - y % w) % w == x - y
  {
    ModSub(x, y, w);
    ModSmall(x - y, w);
  }

  /** Nearby positions are equal exactly when their words are. */
  lemma SameWord(x: int, y: int, w: nat)
    requires w > 0 && 0 - w < x - y < w
    ensures x % w == y % w <==> x == y
  {
    if x % w == y % w { ModNear(x, y, w); }
  }

  lemma AgreesLoad(w: nat, queues: seq<Queue>, a: nat, pc: Agent, i: Input)
    requires w > 0 && QueuesTyped(queues) && QueuesTyped(WrapQueues(w, queues)) && IsLoad(pc)
    requires AgentTyped(|queues|, pc) && AgentTyped(|queues|, WrapAgent(w, pc))
    ensures Next(true, w, WrapQueues(w, queues), a, WrapAgent(w, pc), i) == WrapEffect(w, Next(false, w, queues, a, pc, i))
  {
  }

  lemma AgreesAcquire(w: nat, queues: seq<Queue>, a: nat, q: nat, pc: Agent)
    requires w > 0
    ensures Acquire(WrapQueues(w, queues), a, q, WrapAgent(w, pc)) == WrapEffect(w, Acquire(queues, a, q, pc))
  {
  }

  lemma AgreesBegin(w: nat, queues: seq<Queue>, a: nat, i: Input)
    requires w > 0
    ensures Begin(WrapQueues(w, queues), a, i) == WrapEffect(w, Begin(queues, a, i))
  {
    match i
    case StartPush(q, x) => AgreesAcquire(w, queues, a, q, Room1(q, ToPush(x)));
    case StartExtend(q) => AgreesAcquire(w, queues, a, q, Room1(q, ToExtend));
    case StartMeasure(q) => AgreesAcquire(w, queues, a, q, Room1(q, ToMeasure));
    case StartIsEmpty(q) => AgreesAcquire(w, queues, a, q, Empty1(q));
    case StartSteal(src, dst, keep) => AgreesAcquire(w, queues, a, dst, Dest1(dst, src, keep));
    case StartPop(q) => AgreesAcquire(w, queues, a, q, Pop1(q));
    case _ =>
  }

  lemma AgreesFinish(w: nat, queues: seq<Queue>, q: nat)
    requires w > 0 && q < |queues|
    ensures Finish(WrapQueues(w, queues), q) == WrapEffect(w, Finish(queues, q))
  {
  }

  lemma AgreesAbort(w: nat, queues: seq<Queue>, to: Sink)
    requires w > 0 && SinkTyped(|queues|, to)
    ensures Abort(WrapQueues(w, queues), WrapSink(w, to)) == WrapEffect(w, Abort(queues, to))
  {
  }

  lemma AgreesReserved(w: nat, queues: seq<Queue>, r: Reserve, goal: Goal)
    requires w > 0 && r.q < |queues| && 0 <= r.tail - r.head < w
    ensures Reserved(true, w, WrapQueues(w, queues), WrapReserve(w, r), goal) == WrapEffect(w, Reserved(false, w, queues, r, goal))
  {
    SameDistance(r.tail, r.head, w);
  }

  lemma AgreesMeasured(w: nat, queues: seq<Queue>, r: Reserve, src: nat, keep: bool)
    requires w > 0 && r.q < |queues| && 0 <= r.tail - r.head < w
    ensures Measured(true, w, WrapQueues(w, queues), WrapReserve(w, r), src, keep)
         == WrapEffect(w, Measured(false, w, queues, r, src, keep))
  {
    SameDistance(r.tail, r.head, w);
  }

  lemma AgreesWriteSlot(w: nat, pc: Agent, q: nat, Q: Queue, pos: int, item: Item, put: multiset<Item>)
    requires w > 0 && QueueInv(w, Q)
    ensures WriteSlot(WrapAgent(w, pc), q, WrapQueue(w, Q), pos % w, item, put) == WrapEffect(w, WriteSlot(pc, q, Q, pos, item, put))
  {
    SameCell(w, Q, pos);
  }

  lemma AgreesExtend(w: nat, Q: Queue, i: Input, r: Reserve, n: nat)
    requires w > 0 && QueueInv(w, Q) && 0 <= r.head + Q.cap - (r.tail + n) < w
    ensures StepExtend(true, w, WrapQueue(w, Q), i, WrapReserve(w, r), n) == WrapEffect(w, StepExtend(false, w, Q, i, r, n))
  {
    ModAdd(r.tail, n, w);
    ModAdd(r.head, Q.cap, w);
    SameWord(r.tail + n, r.head + Q.cap, w);
    if i.Give? && r.tail + n != r.head + Q.cap {
      AgreesWriteSlot(w, Extend(r, n + 1), r.q, Q, r.tail + n, i.item, multiset{i.item});
    }
  }

  lemma AgreesStore(w: nat, pc: Agent, q: nat, Q: Queue, tail: int, n: int)
    requires w > 0
    ensures Only(WrapAgent(w, pc), q, Published(WrapQueue(w, Q), (tail % w + n) % w)) == WrapEffect(w, Only(pc, q, Published(Q, tail + n)))
  {
    ModAdd(tail, n, w);
  }

  /** A drain stops at the same item. */
  lemma SameEnd(w: nat, m: Move, k: nat)
    requires w > 0 && 0 <= m.until - (m.from + k + 1) < w
    ensures (m.from % w + k + 1) % w == m.until % w <==> m.from + k + 1 == m.until
  {
    ModAdd(m.from, k + 1, w);
    SameWord(m.from + k + 1, m.until, w);
  }

  /** What the thief's step makes of its queue, at a word. */
  lemma AgreesVacate(w: nat, Q: Queue, pos: int)
    requires w > 0 && QueueInv(w, Q)
    ensures Cell(Q.buffer, pos % w) == Cell(Q.buffer, pos)
    ensures Vacate(WrapQueue(w, Q), pos % w).(moved := Q.moved + 1) == WrapQueue(w, Vacate(Q, pos).(moved := Q.moved + 1))
  {
    SameCell(w, Q, pos);
  }

  lemma AgreesTakeSlot(w: nat, Q: Queue, m: Move, k: nat, pos: int, last: bool)
    requires w > 0 && QueueInv(w, Q)
    ensures TakeSlot(WrapQueue(w, Q), WrapMove(w, m), k, pos % w, last) == WrapEffect(w, TakeSlot(Q, m, k, pos, last))
  {
    AgreesVacate(w, Q, pos);
    AgreesTaken(w, Q, WrapQueue(w, Q), m, k, pos, pos % w, last);
  }

  /** Where a steal goes on after moving item `k` out, on words as on unbounded counters. */
  function Onward(m: Move, k: nat, x: Item, last: bool): Agent {
    if m.to.Into? then (if k < Transfer(m) then Put(m, k, x) else Publish(m))
    else if last then Done1(m) else Take(m, k + 1)
  }

  lemma OnwardWraps(w: nat, m: Move, k: nat, x: Item, last: bool)
    requires w > 0
    ensures Onward(WrapMove(w, m), k, x, last) == WrapAgent(w, Onward(m, k, x, last))
  {
  }

  lemma TakeSlotIs(Q: Queue, m: Move, k: nat, pos: int, last: bool)
    requires |Q.buffer| > 0
    ensures TakeSlot(Q, m, k, pos, last)
      == match Cell(Q.buffer, pos)
         case Vacant => Fault
         case Held(x) => On(Onward(m, k, x, last), m.src, Vacate(Q, pos).(moved := Q.moved + 1), multiset{},
                            if m.to.Into? && k < Transfer(m) then multiset{} else multiset{x})
  {
  }

  lemma AgreesTaken(w: nat, Q: Queue, C: Queue, m: Move, k: nat, pos: int, word: int, last: bool)
    requires w > 0 && |Q.buffer| > 0 && |C.buffer| > 0 && Cell(C.buffer, word) == Cell(Q.buffer, pos) && C.moved == Q.moved
    requires Vacate(C, word).(moved := C.moved + 1) == WrapQueue(w, Vacate(Q, pos).(moved := Q.moved + 1))
    ensures TakeSlot(C, WrapMove(w, m), k, word, last) == WrapEffect(w, TakeSlot(Q, m, k, pos, last))
  {
    TakeSlotIs(Q, m, k, pos, last);
    TakeSlotIs(C, WrapMove(w, m), k, word, last);
    match Cell(Q.buffer, pos)
    case Vacant =>
    case Held(x) => OnwardWraps(w, m, k, x, last);
  }

  lemma AgreesTake(w: nat, Q: Queue, m: Move, k: nat)
    requires w > 0 && QueueInv(w, Q) && 0 <= m.until - (m.from + k + 1) < w
    ensures StepTake(true, w, WrapQueue(w, Q), WrapMove(w, m), k) == WrapEffect(w, StepTake(false, w, Q, m, k))
  {
    ModAdd(m.from, k, w);
    SameEnd(w, m, k);
    AgreesTakeSlot(w, Q, m, k, m.from + k, m.from + k + 1 == m.until);
  }

  lemma AgreesPut(w: nat, Q: Queue, m: Move, k: nat, x: Item)
    requires w > 0 && QueueInv(w, Q) && m.to.Into?
    ensures StepPut(true, w, WrapQueue(w, Q), WrapMove(w, m), k, x) == WrapEffect(w, StepPut(false, w, Q, m, k, x))
  {
    var pc := if k + 1 < Transfer(m) || m.to.keepLast then Take(m, k + 1) else Publish(m);
    ModAdd(m.to.r.tail, k, w);
    AgreesWriteSlot(w, pc, m.to.r.q, Q, m.to.r.tail + k, x, multiset{});
  }

  /** The completion CAS needs no bound: the stealer head stands still under it, and the
      worker head cannot get further than one ring length ahead of it. */
  lemma AgreesDone(w: nat, Q: Queue, i: Input, m: Move, worker: int, stealer: int)
    requires w > 0 && QueueInv(w, Q) && stealer == m.from == Q.stealer && Loaded(Q, worker, stealer)
    ensures StepDone(WrapQueue(w, Q), i, WrapMove(w, m), worker % w, stealer % w) == WrapEffect(w, StepDone(Q, i, m, worker, stealer))
  {
    SameWord(Q.worker, worker, w);
  }

  lemma AgreesPop(w: nat, queues: seq<Queue>, q: nat, worker: int, stealer: int)
    requires QueuesInv(w, queues) && q < |queues| && 0 <= queues[q].tail - worker < w
    ensures StepPop(WrapQueues(w, queues), q, worker % w, stealer % w) == WrapEffect(w, StepPop(queues, q, worker, stealer))
  {
    SameWord(queues[q].tail, worker, w);
    AgreesFinish(w, queues, q);
  }

  /** The pop CAS needs no bound: the tail stands still under it, and both heads it holds lie
      within one ring length below that tail. */
  lemma AgreesClaim(w: nat, Q: Queue, i: Input, q: nat, worker: int, stealer: int)
    requires w > 0 && QueueInv(w, Q) && Loaded(Q, worker, stealer) && Q.tail <= stealer + Q.cap
    ensures StepClaim(true, w, WrapQueue(w, Q), i, q, worker % w, stealer % w) == WrapEffect(w, StepClaim(false, w, Q, i, q, worker, stealer))
  {
    SameWord(Q.worker, worker, w);
    SameWord(Q.stealer, stealer, w);
    SameWord(stealer, worker, w);
    ModAdd(worker, 1, w);
    ModAdd(stealer, 1, w);
    ModAdd(stealer, 0, w);
  }

  lemma AgreesRead(w: nat, Q: Queue, q: nat, pos: int)
    requires w > 0 && QueueInv(w, Q)
    ensures StepRead(WrapQueue(w, Q), q, pos % w) == WrapEffect(w, StepRead(Q, q, pos))
  {
    SameCell(w, Q, pos);
  }

  lemma AgreesCas(w: nat, Q: Queue, a: nat, i: Input, src: nat, to: Sink, t: int, worker: int, stealer: int, count: int)
    requires w > 0
    requires Q.worker % w == worker % w && Q.stealer % w == stealer % w ==> Q.worker == worker && Q.stealer == stealer
    ensures StepBook(true, w, WrapQueue(w, Q), a, i, src, WrapSink(w, to), t % w, worker % w, stealer % w, count)
      == WrapEffect(w, StepBook(false, w, Q, a, i, src, to, t, worker, stealer, count))
  {
    ModAdd(worker, count, w);
  }

  /** What a booking round does once it knows how many items it may take. */
  function Decide(queues: seq<Queue>, i: Input, src: nat, to: Sink, t: int, worker: int, stealer: int, offer: int): Effect
    requires SinkTyped(|queues|, to)
  {
    var count := Min(Wanted(i), offer);
    if count == 0 then Abort(queues, to) else Local(Book3(src, to, t, worker, stealer, count))
  }

  lemma SizeDecides(w: nat, queues: seq<Queue>, i: Input, src: nat, to: Sink, t: int, worker: int, stealer: int)
    requires w > 0 && src < |queues| && SinkTyped(|queues|, to) && MaxCount(w, to) >= 0 && queues[src].tail - worker >= 0
    ensures StepSize(false, w, queues, i, src, to, t, worker, stealer)
      == Decide(queues, i, src, to, t, worker, stealer, Offer(false, w, queues[src], to, worker, stealer))
  {
  }

  lemma WrappedSizeDecides(w: nat, queues: seq<Queue>, i: Input, src: nat, to: Sink, t: int, worker: int, stealer: int)
    requires w > 0 && src < |queues| && SinkTyped(|queues|, to) && MaxCount(w, to) >= 0
    ensures StepSize(true, w, WrapQueues(w, queues), i, src, WrapSink(w, to), t, worker % w, stealer % w)
      == Decide(WrapQueues(w, queues), i, src, WrapSink(w, to), t, worker % w, stealer % w, Offer(true, w, queues[src], to, worker, stealer))
  {
    ModSub(queues[src].tail, worker, w);
  }

  lemma AgreesDecide(w: nat, queues: seq<Queue>, i: Input, src: nat, to: Sink, t: int, worker: int, stealer: int, offer: int)
    requires w > 0 && SinkTyped(|queues|, to)
    ensures Decide(WrapQueues(w, queues), i, src, WrapSink(w, to), t % w, worker % w, stealer % w, offer)
      == WrapEffect(w, Decide(queues, i, src, to, t, worker, stealer, offer))
  {
    AgreesAbort(w, queues, to);
  }

  lemma DecideSame(queues: seq<Queue>, i: Input, i': Input, src: nat, to: Sink, t: int, worker: int, stealer: int, o: int, o': int)
    requires SinkTyped(|queues|, to) && 0 <= o' <= o && Wanted(i') == Min(Wanted(i), o')
    ensures Decide(queues, i', src, to, t, worker, stealer, o) == Decide(queues, i, src, to, t, worker, stealer, o')
  {
  }

  /** The words never offer more than there is: the two heads were loaded together, so they
      compare exactly, and reducing a count cannot increase it. */
  lemma OfferNeverGrows(w: nat, Q: Queue, to: Sink, worker: int, stealer: int)
    requires w > 0 && QueueInv(w, Q) && Loaded(Q, worker, stealer) && MaxCount(w, to) >= 0
    ensures 0 <= Offer(true, w, Q, to, worker, stealer) <= Offer(false, w, Q, to, worker, stealer)
  {
    SameWord(stealer, worker, w);
    ModBelow(Q.tail - worker, w);
  }

  lemma AgreesSize(w: nat, queues: seq<Queue>, a: nat, pc: Agent, i: Input)
    requires QueuesInv(w, queues) && QueuesTyped(queues) && QueuesTyped(WrapQueues(w, queues))
    requires AgentInv(queues, a, pc) && AgentTyped(|queues|, pc) && AgentTyped(|queues|, WrapAgent(w, pc)) && pc.Book2?
    ensures Next(true, w, WrapQueues(w, queues), a, WrapAgent(w, pc), i)
         == WrapEffect(w, Next(false, w, queues, a, pc, Answer(w, queues, pc, i)))
  {
    var Book2(src, to, t, worker, stealer) := pc;
    var o, o' := Offer(false, w, queues[src], to, worker, stealer), Offer(true, w, queues[src], to, worker, stealer);
    var i' := Answer(w, queues, pc, i);
    OfferNeverGrows(w, queues[src], to, worker, stealer);
    SizeDecides(w, queues, i', src, to, t, worker, stealer);
    WrappedSizeDecides(w, queues, i, src, to, t % w, worker, stealer);
    AgreesDecide(w, queues, i, src, to, t, worker, stealer, o');
    DecideSame(queues, i, i', src, to, t, worker, stealer, o, o');
  }

  lemma AgreesOwner(w: nat, queues: seq<Queue>, a: nat, pc: Agent, i: Input)
    requires QueuesInv(w, queues) && QueuesTyped(queues) && QueuesTyped(WrapQueues(w, queues))
    requires AgentInv(queues, a, pc) && AgentTyped(|queues|, pc) && AgentTyped(|queues|, WrapAgent(w, pc))
    requires pc.Idle? || pc.Room2? || pc.Dest2? || pc.Empty2? || pc.PushWrite? || pc.PushStore? || pc.Extend?
    ensures Next(true, w, WrapQueues(w, queues), a, WrapAgent(w, pc), i) == WrapEffect(w, Next(false, w, queues, a, pc, i))
  {
    match pc
    case Idle => AgreesBegin(w, queues, a, i);
    case Room2(q, goal, stealer) => AgreesReserved(w, queues, Reserve(q, queues[q].tail, stealer), goal);
    case Dest2(q, src, keep, tail) => AgreesMeasured(w, queues, Reserve(q, tail, queues[q].stealer), src, keep);
    case Empty2(q, _) => AgreesFinish(w, queues, q);
    case PushWrite(r, x) => AgreesWriteSlot(w, PushStore(r), r.q, queues[r.q], r.tail, x, multiset{x});
    case PushStore(r) => AgreesStore(w, Idle, r.q, queues[r.q], r.tail, 1);
    case Extend(r, n) => AgreesExtend(w, queues[r.q], i, r, n);
  }

  lemma AgreesPops(w: nat, queues: seq<Queue>, a: nat, pc: Agent, i: Input)
    requires QueuesInv(w, queues) && QueuesTyped(queues) && QueuesTyped(WrapQueues(w, queues))
    requires AgentInv(queues, a, pc) && AgentTyped(|queues|, pc) && AgentTyped(|queues|, WrapAgent(w, pc))
    requires pc.Pop2? || pc.Pop3? || pc.Pop4?
    ensures Next(true, w, WrapQueues(w, queues), a, WrapAgent(w, pc), i) == WrapEffect(w, Next(false, w, queues, a, pc, i))
  {
    match pc
    case Pop2(q, worker, stealer) => AgreesPop(w, queues, q, worker, stealer);
    case Pop3(q, worker, stealer) => AgreesClaim(w, queues[q], i, q, worker, stealer);
    case Pop4(q, pos) => AgreesRead(w, queues[q], q, pos);
  }

  lemma AgreesMover(w: nat, queues: seq<Queue>, a: nat, pc: Agent, i: Input)
    requires QueuesInv(w, queues) && QueuesTyped(queues) && QueuesTyped(WrapQueues(w, queues))
    requires AgentInv(queues, a, pc) && AgentTyped(|queues|, pc) && AgentTyped(|queues|, WrapAgent(w, pc))
    requires pc.Take? || pc.Put?
    ensures Next(true, w, WrapQueues(w, queues), a, WrapAgent(w, pc), i) == WrapEffect(w, Next(false, w, queues, a, pc, i))
  {
    match pc
    case Take(m, k) => AgreesTake(w, queues[m.src], m, k);
    case Put(m, k, x) => AgreesPut(w, queues[m.to.r.q], m, k, x);
  }

  lemma AgreesPublish(w: nat, queues: seq<Queue>, m: Move)
    requires w > 0 && m.to.Into? && m.to.r.q < |queues|
    ensures Only(Done1(WrapMove(w, m)), m.to.r.q, Published(WrapQueues(w, queues)[m.to.r.q], (m.to.r.tail % w + Transfer(m)) % w))
         == WrapEffect(w, Only(Done1(m), m.to.r.q, Published(queues[m.to.r.q], m.to.r.tail + Transfer(m))))
  {
    AgreesStore(w, Done1(m), m.to.r.q, queues[m.to.r.q], m.to.r.tail, Transfer(m));
  }

  lemma AgreesCloser(w: nat, queues: seq<Queue>, a: nat, pc: Agent, i: Input)
    requires QueuesInv(w, queues) && QueuesTyped(queues) && QueuesTyped(WrapQueues(w, queues))
    requires AgentInv(queues, a, pc) && AgentTyped(|queues|, pc) && AgentTyped(|queues|, WrapAgent(w, pc))
    requires pc.Publish? || pc.Done2?
    ensures Next(true, w, WrapQueues(w, queues), a, WrapAgent(w, pc), i) == WrapEffect(w, Next(false, w, queues, a, pc, i))
  {
    match pc
    case Publish(m) => AgreesPublish(w, queues, m);
    case Done2(m, worker, stealer) => AgreesDone(w, queues[m.src], i, m, worker, stealer);
  }

  /** A fresh step of the shipped words is a step of the unbounded machine. Everything but the
      booking CAS is always fresh. */
  lemma FreshSimulates(w: nat, queues: seq<Queue>, a: nat, pc: Agent, i: Input)
    requires QueuesInv(w, queues) && QueuesTyped(queues) && QueuesTyped(WrapQueues(w, queues))
    requires AgentInv(queues, a, pc) && AgentTyped(|queues|, pc) && AgentTyped(|queues|, WrapAgent(w, pc))
    requires Fresh(w, queues, pc)
    ensures Next(true, w, WrapQueues(w, queues), a, WrapAgent(w, pc), i)
         == WrapEffect(w, Next(false, w, queues, a, pc, Answer(w, queues, pc, i)))
  {
    if pc.Book2? {
      AgreesSize(w, queues, a, pc, i);
    } else if pc.Book3? {
      AgreesCas(w, queues[pc.src], a, i, pc.src, pc.to, pc.since, pc.worker, pc.stealer, pc.count);
    } else if IsLoad(pc) {
      AgreesLoad(w, queues, a, pc, i);
    } else if pc.Pop2? || pc.Pop3? || pc.Pop4? {
      AgreesPops(w, queues, a, pc, i);
    } else if pc.Take? || pc.Put? {
      AgreesMover(w, queues, a, pc, i);
    } else if pc.Publish? || pc.Done2? {
      AgreesCloser(w, queues, a, pc, i);
    } else {
      AgreesOwner(w, queues, a, pc, i);
    }
  }

  /** A booking CAS that is not fresh succeeds where no decision of the environment lets the
      unbounded one succeed. */
  lemma StaleDeviates(w: nat, queues: seq<Queue>, a: nat, pc: Agent, i': Input)
    requires QueuesTyped(queues) && w > 0 && QueuesTyped(WrapQueues(w, queues))
    requires AgentTyped(|queues|, pc) && AgentTyped(|queues|, WrapAgent(w, pc))
    requires !Fresh(w, queues, pc)
    ensures Next(true, w, WrapQueues(w, queues), a, WrapAgent(w, pc), Go)
         != WrapEffect(w, Next(false, w, queues, a, pc, i'))
  {
  }

  /** Since a booking call began, fewer items left the front of the queue than a whole round
      of words. */
  predicate Bounded(w: nat, Q: Queue, since: int) {
    Q.worker - since < w
  }

  lemma BoundedIsFresh(w: nat, queues: seq<Queue>, a: nat, pc: Agent)
    requires QueuesInv(w, queues) && AgentInv(queues, a, pc) && AgentTyped(|queues|, pc)
    requires pc.Book3? ==> Bounded(w, queues[pc.src], pc.since)
    ensures Fresh(w, queues, pc)
  {
    if pc.Book3? {
      var Q := queues[pc.src];
      SameWord(Q.worker, pc.worker, w);
      if Q.worker == pc.worker { SameWord(Q.stealer, pc.stealer, w); }
    }
  }

  /** The schedule of the unbounded machine that the shipped words follow. */
  function Followed(s: State, acts: seq<Act>): seq<Act>
    decreases |acts|
  {
    if acts == [] || !Typed(s) then acts
    else if acts[0].agent < |s.agents| then
      var act := Act(acts[0].agent, Answer(s.w, s.queues, s.agents[acts[0].agent], acts[0].input));
      [act] + Followed(Step(false, s, act.agent, act.input), acts[1..])
    else [acts[0]] + Followed(s, acts[1..])
  }

  /** Along the schedule, no booking call is overtaken by a whole round of words. */
  ghost predicate BoundedRun(s: State, acts: seq<Act>)
    decreases |acts|
  {
    if acts == [] || !Typed(s) then true
    else if acts[0].agent < |s.agents| then
      var pc := s.agents[acts[0].agent];
      && (pc.Book3? ==> Bounded(s.w, s.queues[pc.src], pc.since))
      && BoundedRun(Step(false, s, acts[0].agent, acts[0].input), acts[1..])
    else BoundedRun(s, acts[1..])
  }

  lemma WrapApply(s: State, a: nat, e: Effect)
    requires s.w > 0 && a < |s.agents|
    ensures Wrap(Apply(s, a, e)) == Apply(Wrap(s), a, WrapEffect(s.w, e))
  {
    assert Wrap(Apply(s, a, e)).agents == Apply(Wrap(s), a, WrapEffect(s.w, e)).agents;
    assert Wrap(Apply(s, a, e)).queues == Apply(Wrap(s), a, WrapEffect(s.w, e)).queues;
  }

  lemma WrapStep(s: State, a: nat, i: Input)
    requires Inv(s) && Typed(s) && Typed(Wrap(s)) && a < |s.agents| && Fresh(s.w, s.queues, s.agents[a])
    ensures Step(true, Wrap(s), a, i) == Wrap(Step(false, s, a, Answer(s.w, s.queues, s.agents[a], i)))
  {
    var pc := s.agents[a];
    WrapAgentTyped(s.w, |s.queues|, pc);
    FreshSimulates(s.w, s.queues, a, pc, i);
    WrapApply(s, a, Next(false, s.w, s.queues, a, pc, Answer(s.w, s.queues, pc, i)));
  }

  /** Every run of the shipped words is the image of a run of the unbounded positions, as
      long as no booking call is overtaken. */
  lemma {:induction false} WrapRun(s: State, acts: seq<Act>)
    requires Inv(s) && BoundedRun(s, Followed(s, acts))
    ensures Inv(Run(false, s, Followed(s, acts)))
    ensures Run(true, Wrap(s), acts) == Wrap(Run(false, s, Followed(s, acts)))
    decreases |acts|
  {
    InvTyped(s);
    WrapTyped(s);
    if acts != [] {
      var a := acts[0].agent;
      if a < |s.agents| {
        var i := Answer(s.w, s.queues, s.agents[a], acts[0].input);
        assert Followed(s, acts)[1..] == Followed(Step(false, s, a, i), acts[1..]);
        BoundedIsFresh(s.w, s.queues, a, s.agents[a]);
        WrapStep(s, a, acts[0].input);
        StepKeeps(s, a, i);
        WrapRun(Step(false, s, a, i), acts[1..]);
      } else {
        assert Followed(s, acts)[1..] == Followed(s, acts[1..]);
        WrapRun(s, acts[1..]);
      }
    }
  }
}
