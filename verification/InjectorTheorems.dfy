/** What the injector promises: it is a queue, ordered by tickets; its blocks are reclaimed once;
    its length is exact; and dropping it releases what is left. */
module InjectorTheorems {
  import opened Words
  import opened InjectorMachine
  import opened InjectorSafety

  /** The value pushed with ticket `x`. */
  function Due(q: Queue, x: nat): Item {
    if Lap(x) < |q.blocks| && Off(x) < |q.blocks[Lap(x)].slots| then q.blocks[Lap(x)].slots[Off(x)].due else 0
  }

  /** The values of the tickets from `x` up to the tail; boundaries carry none. */
  function Contents(q: Queue, x: nat): seq<Item>
    requires x <= q.tail
    decreases q.tail - x
  {
    if x == q.tail then [] else (if Off(x) < 31 then [Due(q, x)] else []) + Contents(q, x + 1)
  }

  /** The queue as its callers see it: pushed, and not yet claimed by a pop. */
  function Pending(q: Queue): seq<Item>
    requires q.head <= q.tail
  {
    Contents(q, q.head)
  }

  lemma NextContents(q: Queue, x: nat)
    requires x < q.tail
    ensures Contents(q, x) == (if Off(x) < 31 then [Due(q, x)] else []) + Contents(q, x + 1)
  {
  }

  lemma {:induction false} ContentsLength(q: Queue, x: nat)
    requires x <= q.tail
    ensures |Contents(q, x)| == Rank(q.tail) - Rank(x)
    decreases q.tail - x
  {
    if x < q.tail { ContentsLength(q, x + 1); }
  }

  /** The tail may have moved over a boundary, or past one new ticket. */
  lemma {:induction false} ContentsMoved(q: Queue, q': Queue, x: nat)
    requires x <= q.tail && (q'.tail == q.tail || q'.tail == q.tail + 1)
    requires forall y :: x <= y < q.tail && Off(y) < 31 ==> Due(q', y) == Due(q, y)
    ensures Contents(q', x)
      == Contents(q, x) + if q'.tail == q.tail + 1 && Off(q.tail) < 31 then [Due(q', q.tail)] else []
    decreases q.tail - x
  {
    if x < q.tail {
      ContentsMoved(q, q', x + 1);
    } else if q'.tail == q.tail + 1 {
      assert Contents(q', x + 1) == [];
    }
  }

  /** A ticket that was handed out has a slot, and its value no longer changes. */
  lemma DueKept(q: Queue, q': Queue, a: nat, x: nat)
    requires QueueInv(q) && Evolves(q, q', a) && x < q.tail && Off(x) < 31
    ensures Due(q', x) == Due(q, x)
  {
    var b := Lap(x);
    assert BlockInv(q.head, q.tail, |q.blocks|, b, q.blocks[b]);
    assert SlotInv(q.head, q.tail, 32 * b + Off(x), q.blocks[b].slots[Off(x)]);
    assert BlockEvolves(q.blocks[b], q'.blocks[b], a);
  }

  lemma ContentsKept(q: Queue, q': Queue, a: nat, x: nat)
    requires QueueInv(q) && Evolves(q, q', a) && x <= q.tail && (q'.tail == q.tail || q'.tail == q.tail + 1)
    ensures Contents(q', x)
      == Contents(q, x) + if q'.tail == q.tail + 1 && Off(q.tail) < 31 then [Due(q', q.tail)] else []
  {
    forall y | x <= y < q.tail && Off(y) < 31 ensures Due(q', y) == Due(q, y) { DueKept(q, q', a, y); }
    ContentsMoved(q, q', x);
  }

  /** Which indices a step moves: each event takes the ticket the index stood at, and an index
      otherwise only moves over a boundary. */
  ghost predicate Ticks(q: Queue, q': Queue, ev: Event) {
    match ev
    case Enqueue(v) => q'.tail == q.tail + 1 && Off(q.tail) < 31 && Due(q', q.tail) == v && q'.head == q.head
    case Dequeue => q'.head == q.head + 1 && Off(q.head) < 31 && q'.tail == q.tail && q.head < q.tail
    case Silent =>
      && (q'.tail == q.tail || (q'.tail == q.tail + 1 && Off(q.tail) == 31))
      && (q'.head == q.head || (q'.head == q.head + 1 && Off(q.head) == 31))
  }

  lemma TicketTicks(q: Queue, a: nat, pc: Agent, i: Input)
    requires QueueInv(q) && AgentInv(q, a, pc) && OwnTokens(q, a, pc) && pc.PushTry? && pc.b.Some?
    ensures var e := StepPush(q, a, i, pc.v, pc.spare, pc.t, pc.b);
      e.Do? && Ticks(q, e.q, e.ev) && (e.ev != Silent ==> e.ev == Enqueue(pc.v))
  {
    if Off(pc.t) != 31 && q.tail == pc.t && !i.Flaky? {
      TicketLive(q);
      TicketIs(q, a, pc.v, pc.spare || Off(pc.t) == 30);
    }
  }

  lemma ClaimTicks(q: Queue, a: nat, pc: Agent, i: Input)
    requires QueueInv(q) && AgentInv(q, a, pc) && OwnTokens(q, a, pc) && pc.PopTry? && pc.b.Some?
    ensures var e := StepPop(q, a, i, pc.h, pc.f, pc.f', pc.b);
      e.Do? && Ticks(q, e.q, e.ev) && (e.ev == Dequeue || e.ev == Silent)
  {
    if q.head == pc.h && q.flag == pc.f && !i.Flaky? {
      ClaimLive(q);
      ClaimIs(q, a, pc.f');
    }
  }

  /** The step moves neither index. */
  predicate Stays(q: Queue, e: Effect) {
    e.Do? ==> e.ev == Silent && e.q.head == q.head && e.q.tail == q.tail
  }

  lemma QuietStays(q: Queue, a: nat, pc: Agent, i: Input)
    requires IsQuiet(pc)
    ensures Stays(q, Next(q, a, pc, i))
  {
  }

  lemma ProducerStays(q: Queue, a: nat, pc: Agent, i: Input)
    requires pc.PushFirst? || pc.Install? || pc.Link? || pc.Fill? || pc.Mark? || (pc.PushTry? && pc.b.None?)
    ensures Stays(q, Next(q, a, pc, i))
  {
  }

  lemma ConsumerStays(q: Queue, a: nat, pc: Agent, i: Input)
    requires pc.AwaitNext? || pc.Peek? || pc.MoveBlock? || pc.AwaitWrite? || (pc.PopTry? && pc.b.None?)
    ensures Stays(q, Next(q, a, pc, i))
  {
  }

  lemma ReaderStays(q: Queue, a: nat, pc: Agent, i: Input)
    requires pc.Read? || pc.SetRead? || pc.Sweep? || pc.Leave?
    ensures Stays(q, Next(q, a, pc, i))
  {
  }

  lemma BoundaryTicks(q: Queue, a: nat, pc: Agent, i: Input)
    requires AgentInv(q, a, pc) && (pc.Advance? || pc.MoveIndex?)
    ensures var e := Next(q, a, pc, i); e.Do? && Ticks(q, e.q, e.ev) && e.ev == Silent
  {
  }

  lemma OtherTicks(q: Queue, a: nat, pc: Agent, i: Input)
    requires AgentInv(q, a, pc) && Next(q, a, pc, i).Do?
    requires !((pc.PushTry? && pc.b.Some?) || (pc.PopTry? && pc.b.Some?))
    ensures var e := Next(q, a, pc, i); Ticks(q, e.q, e.ev) && e.ev == Silent
  {
    if IsQuiet(pc) {
      QuietStays(q, a, pc, i);
    } else if pc.Advance? || pc.MoveIndex? {
      BoundaryTicks(q, a, pc, i);
    } else if pc.Read? || pc.SetRead? || pc.Sweep? || pc.Leave? {
      ReaderStays(q, a, pc, i);
    } else if pc.AwaitNext? || pc.Peek? || pc.MoveBlock? || pc.AwaitWrite? || pc.PopTry? {
      ConsumerStays(q, a, pc, i);
    } else {
      ProducerStays(q, a, pc, i);
    }
  }

  lemma StepTicks(q: Queue, a: nat, pc: Agent, i: Input)
    requires QueueInv(q) && AgentInv(q, a, pc) && OwnTokens(q, a, pc) && Next(q, a, pc, i).Do?
    ensures var e := Next(q, a, pc, i); Ticks(q, e.q, e.ev)
  {
    if pc.PushTry? && pc.b.Some? {
      TicketTicks(q, a, pc, i);
    } else if pc.PopTry? && pc.b.Some? {
      ClaimTicks(q, a, pc, i);
    } else {
      OtherTicks(q, a, pc, i);
    }
  }

  /** What a step does to the queue as its callers see it. */
  ghost predicate Refines(before: seq<Item>, after: seq<Item>, ev: Event) {
    match ev
    case Enqueue(v) => after == before + [v]
    case Dequeue => before != [] && after == before[1..]
    case Silent => after == before
  }

  /** The queue after an index moved, from the contents at the old head. */
  lemma HeadMoves(q: Queue, q': Queue, ev: Event)
    requires q.head <= q.tail && q'.head <= q'.tail && Ticks(q, q', ev) && q.tail <= q'.tail
    requires Contents(q', q.head) == Contents(q, q.head) + if ev.Enqueue? then [ev.v] else []
    ensures Refines(Pending(q), Pending(q'), ev)
  {
    if !ev.Enqueue? {
      assert Contents(q, q.head) + [] == Contents(q, q.head);
      if q'.head != q.head {
        NextContents(q', q.head);
        assert [] + Contents(q', q.head + 1) == Contents(q', q.head + 1);
      }
    }
  }

  lemma TickRefines(q: Queue, q': Queue, a: nat, ev: Event)
    requires QueueInv(q) && Evolves(q, q', a) && Ticks(q, q', ev) && q'.head <= q'.tail
    ensures Refines(Pending(q), Pending(q'), ev)
  {
    ContentsKept(q, q', a, q.head);
    HeadMoves(q, q', ev);
  }

  /** Every step refines a queue: a successful tail CAS appends the pushed value, a successful
      head CAS removes the front, and nothing else changes it. */
  lemma StepRefines(q: Queue, a: nat, pc: Agent, i: Input)
    requires QueueInv(q) && AgentInv(q, a, pc) && OwnTokens(q, a, pc)
    ensures var e := Next(q, a, pc, i);
      e.Do? && e.q.head <= e.q.tail && Refines(Pending(q), Pending(e.q), e.ev)
  {
    var e := Next(q, a, pc, i);
    GoodNext(q, a, pc, i);
    StepTicks(q, a, pc, i);
    TickRefines(q, e.q, a, e.ev);
  }

  /** The values that a schedule enqueues, and those it dequeues, in ticket order. */
  function Pushes(s: State, acts: seq<Act>): seq<Item>
    decreases |acts|
  {
    if acts == [] then []
    else if acts[0].agent < |s.agents| then
      var e := Next(s.q, acts[0].agent, s.agents[acts[0].agent], acts[0].input);
      (if e.Do? && e.ev.Enqueue? then [e.ev.v] else []) + Pushes(Step(s, acts[0].agent, acts[0].input), acts[1..])
    else Pushes(s, acts[1..])
  }

  function Pops(s: State, acts: seq<Act>): seq<Item>
    decreases |acts|
  {
    if acts == [] then []
    else if acts[0].agent < |s.agents| then
      var e := Next(s.q, acts[0].agent, s.agents[acts[0].agent], acts[0].input);
      (if e.Do? && e.ev.Dequeue? then [Due(s.q, s.q.head)] else []) + Pops(Step(s, acts[0].agent, acts[0].input), acts[1..])
    else Pops(s, acts[1..])
  }

  lemma PendingFront(q: Queue)
    requires q.head < q.tail && Off(q.head) < 31
    ensures Pending(q) == [Due(q, q.head)] + Pending(q)[1..]
  {
  }

  lemma MoveInOrder(s: State, a: nat, i: Input)
    requires Inv(s) && a < |s.agents|
    ensures var e := Next(s.q, a, s.agents[a], i);
      && e.Do? && e.q.head <= e.q.tail
      && Pending(s.q) + (if e.ev.Enqueue? then [e.ev.v] else [])
         == (if e.ev.Dequeue? then [Due(s.q, s.q.head)] else []) + Pending(e.q)
  {
    var e := Next(s.q, a, s.agents[a], i);
    OwnFromTokens(s.q, s.agents, a);
    StepRefines(s.q, a, s.agents[a], i);
    StepTicks(s.q, a, s.agents[a], i);
    if e.ev.Dequeue? { PendingFront(s.q); }
  }

  /** First in, first out, over every interleaving: the dequeued values are a prefix of what was
      there plus the enqueued ones, and the queue holds the rest. */
  lemma {:induction false} RunIsFifo(s: State, acts: seq<Act>)
    requires Inv(s)
    ensures Inv(Run(s, acts)) && Run(s, acts).q.head <= Run(s, acts).q.tail
    ensures Pending(s.q) + Pushes(s, acts) == Pops(s, acts) + Pending(Run(s, acts).q)
    decreases |acts|
  {
    if acts != [] {
      var a, i := acts[0].agent, acts[0].input;
      if a < |s.agents| {
        var s', e := Step(s, a, i), Next(s.q, a, s.agents[a], i);
        StepKeeps(s, a, i);
        MoveInOrder(s, a, i);
        RunIsFifo(s', acts[1..]);
        Regroup(Pending(s.q), if e.ev.Enqueue? then [e.ev.v] else [], Pushes(s', acts[1..]),
                if e.ev.Dequeue? then [Due(s.q, s.q.head)] else [], Pops(s', acts[1..]), Pending(s'.q), Pending(Run(s, acts).q));
      } else {
        RunIsFifo(s, acts[1..]);
      }
    }
  }

  /** From a new queue on, what was dequeued is a prefix of what was enqueued, under every
      schedule of any number of producers and consumers. */
  lemma PopsArePrefix(n: nat, acts: seq<Act>)
    ensures var s := Run(Init(n), acts);
      && !s.fault && s.q.head <= s.q.tail
      && Pops(Init(n), acts) <= Pushes(Init(n), acts)
      && Pending(s.q) == Pushes(Init(n), acts)[|Pops(Init(n), acts)|..]
  {
    InitInv(n);
    RunIsFifo(Init(n), acts);
    assert Pending(Init(n).q) + Pushes(Init(n), acts) == Pushes(Init(n), acts);
  }

  lemma WhoReturns(q: Queue, a: nat, pc: Agent, i: Input)
    requires Next(q, a, pc, i).Do? && Next(q, a, pc, i).answer.Value?
    ensures (pc.SetRead? || pc.Sweep? || pc.Leave?) && Next(q, a, pc, i).answer.v == pc.v
  {
  }

  /** A pop that answers with a value answers with the value pushed with its own ticket. */
  lemma AnswersDue(q: Queue, a: nat, pc: Agent, i: Input)
    requires QueueInv(q) && AgentInv(q, a, pc) && Next(q, a, pc, i).Do? && Next(q, a, pc, i).answer.Value?
    ensures (pc.SetRead? || pc.Sweep? || pc.Leave?) && Next(q, a, pc, i).answer.v == Due(q, pc.h) && pc.h < q.tail
  {
    WhoReturns(q, a, pc, i);
    assert BlockInv(q.head, q.tail, |q.blocks|, Lap(pc.h), q.blocks[Lap(pc.h)]);
    assert SlotInv(q.head, q.tail, 32 * Lap(pc.h) + Off(pc.h), q.blocks[Lap(pc.h)].slots[Off(pc.h)]);
  }

  lemma WhoAnswers(q: Queue, a: nat, pc: Agent, i: Input)
    requires Next(q, a, pc, i).Do?
    ensures Next(q, a, pc, i).answer == Nothing ==> pc.PopCheck? && pc.h == q.tail
    ensures Next(q, a, pc, i).answer == Truth(true) ==> pc.Empty2? && pc.h == q.tail
  {
  }

  /** `None`, and `true` from `is_empty`, mean that the queue is empty at that very step. */
  lemma NothingIsEmpty(q: Queue, a: nat, pc: Agent, i: Input)
    requires HeadInv(q) && AgentInv(q, a, pc) && Next(q, a, pc, i).Do?
    requires Next(q, a, pc, i).answer == Nothing || Next(q, a, pc, i).answer == Truth(true)
    ensures Pending(q) == []
  {
    WhoAnswers(q, a, pc, i);
    assert q.head == q.tail;
  }

  /** `len` answers the length of the queue at the step that loaded the head: that is what
      `Len3.n` records, and the answer is `n`. */
  lemma LenIsExact(q: Queue, a: nat, pc: Agent, i: Input)
    requires QueueInv(q) && AgentInv(q, a, pc)
    ensures pc.Len2? ==> Next(q, a, pc, i).Do? && Next(q, a, pc, i).pc == Len3(pc.t, q.head, q.flag, |Pending(q)|)
    ensures pc.Len3? && Next(q, a, pc, i).Do? && Next(q, a, pc, i).answer.Length? ==> Next(q, a, pc, i).answer.n == pc.n
  {
    if pc.Len2? { ContentsLength(q, q.head); }
  }

  /** Two agents never hold the same ticket, and at most one carries the duty for a block. */
  lemma RolesAreExclusive(s: State, a: nat, c: nat)
    requires Inv(s) && a < |s.agents| && c < |s.agents| && a != c
    ensures RoleOf(s.agents[a]) != NoRole ==> RoleOf(s.agents[a]) != RoleOf(s.agents[c])
  {
    assert AgentInv(s.q, a, s.agents[a]) && AgentInv(s.q, c, s.agents[c]);
  }

  /** Freed means that every slot's value was moved out and that no writer and no reader is left. */
  lemma FreedIsDone(q: Queue, b: nat, k: nat)
    requires QueueInv(q) && b < |q.blocks| && k < 31 && q.blocks[b].duty == Freed
    ensures |q.blocks[b].slots| == 31
    ensures var s := q.blocks[b].slots[k]; s.write && s.taken && s.writer.None? && s.reader.None?
    ensures 32 * (b + 1) <= q.head + 1
  {
    var B := q.blocks[b];
    assert BlockInv(q.head, q.tail, |q.blocks|, b, B);
    assert SlotInv(q.head, q.tail, 32 * b + k, B.slots[k]);
    assert SlotInv(q.head, q.tail, 32 * b + 30, B.slots[30]);
  }

  /** No agent is inside a call that holds a ticket or a duty. */
  ghost predicate Quiescent(s: State) {
    forall a :: 0 <= a < |s.agents| ==> RoleOf(s.agents[a]) == NoRole && !s.agents[a].PushFirst?
  }

  /** Once nobody is inside the queue, exactly the blocks behind the head have been freed. */
  lemma QuiescentBlock(s: State, b: nat)
    requires Inv(s) && Quiescent(s) && b < |s.q.blocks|
    ensures s.q.blocks[b].duty == Freed <==> b < Lap(s.q.head)
    ensures b + 1 < |s.q.blocks| ==> s.q.blocks[b].next == Some(b + 1)
  {
    var q, B := s.q, s.q.blocks[b];
    assert BlockInv(q.head, q.tail, |q.blocks|, b, B);
    assert BlockTokens(b, B, s.agents);
    assert SlotInv(q.head, q.tail, 32 * b + 30, B.slots[30]);
    assert HeadInv(q);
    assert Off(q.head) < 31;
  }

  /** And every ticket that is not yet claimed has its value in place. */
  lemma QuiescentSlot(s: State, x: nat)
    requires Inv(s) && Quiescent(s) && s.q.head <= x < s.q.tail && Off(x) < 31
    ensures Live(s.q, Lap(x)) && SlotOf(s.q, Lap(x), Off(x)).value == Some(Due(s.q, x))
  {
    var q, b := s.q, Lap(x);
    assert TailInv(q);
    assert BlockInv(q.head, q.tail, |q.blocks|, b, q.blocks[b]);
    assert BlockTokens(b, q.blocks[b], s.agents);
    assert SlotInv(q.head, q.tail, 32 * b + Off(x), q.blocks[b].slots[Off(x)]);
    QuiescentBlock(s, b);
  }

  lemma QuiescentEnds(s: State)
    requires Inv(s) && Quiescent(s)
    ensures s.q.head <= s.q.tail
    ensures if s.q.headBlock.None? then s.q.blocks == [] && s.q.head == s.q.tail == 0
            else s.q.headBlock == Some(Lap(s.q.head)) && |s.q.blocks| == Lap(s.q.tail) + 1
  {
    assert TailInv(s.q) && HeadInv(s.q) && Tokens(s.q, s.agents);
  }

  /** The state in which the queue is dropped: every unclaimed ticket has its value in place,
      and the blocks from the head's on are live and linked. */
  ghost predicate Settled(q: Queue) {
    && q.head <= q.tail
    && (if q.headBlock.None? then q.blocks == [] && q.tail == q.head == 0
        else q.headBlock == Some(Lap(q.head)) && |q.blocks| == Lap(q.tail) + 1)
    && (forall x :: q.head <= x < q.tail && Off(x) < 31 ==> Filled(q, x))
    && (forall b :: Lap(q.head) <= b < |q.blocks| ==> Chained(q, b))
  }

  ghost predicate Filled(q: Queue, x: nat)
    requires Off(x) < 31
  {
    Live(q, Lap(x)) && SlotOf(q, Lap(x), Off(x)).value == Some(Due(q, x))
  }

  ghost predicate Chained(q: Queue, b: nat)
    requires b < |q.blocks|
  {
    q.blocks[b].duty != Freed && (b + 1 < |q.blocks| ==> q.blocks[b].next == Some(b + 1))
  }

  /** Once nobody is inside the queue it can be dropped, and the blocks before the head's, and
      no others, are already freed. */
  lemma QuiescentIsSettled(s: State)
    requires Inv(s) && Quiescent(s)
    ensures Settled(s.q)
    ensures forall b :: 0 <= b < |s.q.blocks| ==> (b < Lap(s.q.head) <==> s.q.blocks[b].duty == Freed)
  {
    QuiescentEnds(s);
    forall x | s.q.head <= x < s.q.tail && Off(x) < 31 ensures Filled(s.q, x) { QuiescentSlot(s, x); }
    forall b | 0 <= b < |s.q.blocks|
      ensures b < Lap(s.q.head) <==> s.q.blocks[b].duty == Freed
      ensures Lap(s.q.head) <= b ==> Chained(s.q, b)
    {
      QuiescentBlock(s, b);
    }
  }

  lemma NextLap(x: nat)
    ensures Lap(x + 1) == if Off(x) < 31 then Lap(x) else Lap(x) + 1
  {
  }

  /** How far the loop of `drop` has come at `head`. */
  ghost predicate Dropping(q: Queue, head: nat, block: Option<nat>, dropped: seq<Item>, freed: seq<nat>) {
    && q.head <= head <= q.tail
    && block == (if q.headBlock.None? then None else Some(Lap(head)))
    && dropped + Contents(q, head) == Contents(q, q.head)
    && |freed| == Lap(head) - Lap(q.head)
    && (forall i :: 0 <= i < |freed| ==> freed[i] == Lap(q.head) + i)
  }

  /** One turn of that loop: a value, or at a boundary a block. */
  method DropOne(q: Queue, head: nat, block: Option<nat>, dropped: seq<Item>, freed: seq<nat>)
    returns (block': Option<nat>, dropped': seq<Item>, freed': seq<nat>)
    requires Settled(q) && Dropping(q, head, block, dropped, freed) && head != q.tail
    ensures Dropping(q, head + 1, block', dropped', freed')
  {
    NextContents(q, head);
    NextLap(head);
    var b := block.value;
    block', dropped', freed' := block, dropped, freed;
    if Off(head) < BLOCK_CAP {
      assert Filled(q, head);
      dropped' := dropped + [SlotOf(q, b, Off(head)).value.value];
    } else {
      assert Chained(q, b);
      freed' := freed + [b];
      block' := q.blocks[b].next;
    }
  }

  /** `Injector::drop`: it releases every pending value once, in order, and every block from the
      head's on once. */
  method Drop(q: Queue) returns (dropped: seq<Item>, freed: seq<nat>)
    requires Settled(q)
    ensures dropped == Pending(q)
    ensures |freed| == if q.blocks == [] then 0 else |q.blocks| - Lap(q.head)
    ensures forall i :: 0 <= i < |freed| ==> freed[i] == Lap(q.head) + i
  {
    var head, block := q.head, q.headBlock;
    dropped, freed := [], [];
    while head != q.tail
      invariant Dropping(q, head, block, dropped, freed)
      decreases q.tail - head
    {
      block, dropped, freed := DropOne(q, head, block, dropped, freed);
      head := head + 1;
    }
    if block.Some? { freed := freed + [block.value]; }
  }
}
