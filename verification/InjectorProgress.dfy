/** No call on the injector gets stuck by itself: run alone it ends within a bounded number of its
    own steps, or waits for a named other call, which does not wait in turn for ever. */
module InjectorProgress {
  import opened Words
  import opened InjectorMachine
  import opened InjectorSafety
  import opened InjectorTheorems

  /** The step of `a` would only look again at what another agent has yet to do. */
  predicate Waits(q: Queue, pc: Agent) {
    match pc
    case PushLoad(_, _) => Off(q.tail) == 31
    case PushBlock(_, _, _) => Off(q.tail) == 31
    case PushTry(_, _, _, _) => Off(q.tail) == 31
    case PopLoad => HeadBusy(q)
    case PopBlock(_, _) => HeadBusy(q)
    case PopCheck(_, _, _) => HeadBusy(q)
    case PopTry(_, _, _, _) => HeadBusy(q)
    case AwaitNext(_, block) => block < |q.blocks| && q.blocks[block].next.None?
    case AwaitWrite(h, block) => Live(q, block) && Off(h) < 31 && !SlotOf(q, block, Off(h)).write
    case _ => false
  }

  /** A consumer is moving the head over a boundary, or the first block is not stored there yet. */
  predicate HeadBusy(q: Queue) {
    Off(q.head) == 31 || (q.headBlock.None? && q.tail > 0)
  }

  /** How many of its own steps a call that runs alone is from its end. */
  function Rank(q: Queue, pc: Agent): nat {
    match pc
    case Idle => 0
    case PushLoad(_, _) => if q.tailBlock.Some? then 8 else 13
    case PushBlock(_, _, t) => if q.tailBlock.None? then 12 else if t == q.tail then 7 else 10
    case PushTry(_, _, t, b) => if b.None? && q.tailBlock.None? then 11 else if b.Some? && t == q.tail then 6 else 9
    case PushFirst(_, _, _, _) => 10
    case Install(_, _, _) => 5
    case Advance(_, _, _, _) => 4
    case Link(_, _, _, _) => 3
    case Fill(_, _, _) => 2
    case Mark(_, _, _) => 1
    case PopLoad => 80
    case PopBlock(h, f) => if h == q.head && f == q.flag then 79 else 83
    case PopCheck(h, f, b) => if h == q.head && f == q.flag && b == q.headBlock then 78 else 82
    case PopTry(h, f, _, b) => if h == q.head && f == q.flag && b.Some? then 77 else 81
    case AwaitNext(_, _) => 76
    case Peek(_, _, _) => 75
    case MoveBlock(_, _, _, _) => 74
    case MoveIndex(_, _, _, _) => 73
    case AwaitWrite(_, _) => 72
    case Read(_, _) => 71
    case SetRead(_, _, _) => 70
    case Sweep(_, _, i, _) => if i < 31 then 2 * (32 - i) else 1
    case Leave(_, _, i, _) => if i < 31 then 2 * (32 - i) - 1 else 1
    case Empty1 => 2
    case Empty2(_) => 1
    case Len1 => 3
    case Len2(t) => if t == q.tail then 2 else 5
    case Len3(t, _, _, _) => if t == q.tail then 1 else 4
  }

  lemma RankBound(q: Queue, pc: Agent)
    ensures Rank(q, pc) <= 83
  {
  }

  /** An own step that changes nobody's words brings the call nearer to its end. */
  ghost predicate Nearer(q: Queue, pc: Agent, e: Effect) {
    e.Do? && Rank(e.q, e.pc) < Rank(q, pc)
  }

  lemma ProducerNearer(q: Queue, a: nat, pc: Agent)
    requires QueueInv(q) && AgentInv(q, a, pc) && Next(q, a, pc, Go).Do? && !Waits(q, pc)
    requires pc.PushLoad? || pc.PushBlock? || pc.PushTry? || pc.PushFirst?
    ensures Nearer(q, pc, Next(q, a, pc, Go))
  {
  }

  lemma WriterNearer(q: Queue, a: nat, pc: Agent)
    requires Next(q, a, pc, Go).Do? && (pc.Install? || pc.Advance? || pc.Link? || pc.Fill? || pc.Mark?)
    ensures Nearer(q, pc, Next(q, a, pc, Go))
  {
  }

  lemma ConsumerNearer(q: Queue, a: nat, pc: Agent)
    requires QueueInv(q) && AgentInv(q, a, pc) && Next(q, a, pc, Go).Do? && !Waits(q, pc)
    requires pc.PopLoad? || pc.PopBlock? || pc.PopCheck? || pc.PopTry?
    ensures Nearer(q, pc, Next(q, a, pc, Go))
  {
  }

  lemma MoverNearer(q: Queue, a: nat, pc: Agent)
    requires Next(q, a, pc, Go).Do? && !Waits(q, pc)
    requires pc.AwaitNext? || pc.Peek? || pc.MoveBlock? || pc.MoveIndex? || pc.AwaitWrite?
    ensures Nearer(q, pc, Next(q, a, pc, Go))
  {
  }

  lemma ReaderNearer(q: Queue, a: nat, pc: Agent)
    requires AgentInv(q, a, pc) && Next(q, a, pc, Go).Do? && (pc.Read? || pc.SetRead? || pc.Sweep? || pc.Leave?)
    ensures Nearer(q, pc, Next(q, a, pc, Go))
  {
  }

  lemma AskerNearer(q: Queue, a: nat, pc: Agent)
    requires Next(q, a, pc, Go).Do? && (pc.Empty1? || pc.Empty2? || pc.Len1? || pc.Len2? || pc.Len3?)
    ensures Nearer(q, pc, Next(q, a, pc, Go))
  {
  }

  /** Every step of a call that does not wait brings it nearer to its end. */
  lemma StepNearer(q: Queue, a: nat, pc: Agent)
    requires QueueInv(q) && AgentInv(q, a, pc) && OwnTokens(q, a, pc) && !pc.Idle? && !Waits(q, pc)
    ensures Nearer(q, pc, Next(q, a, pc, Go))
  {
    GoodNext(q, a, pc, Go);
    if pc.PushLoad? || pc.PushBlock? || pc.PushTry? || pc.PushFirst? {
      ProducerNearer(q, a, pc);
    } else if pc.Install? || pc.Advance? || pc.Link? || pc.Fill? || pc.Mark? {
      WriterNearer(q, a, pc);
    } else if pc.PopLoad? || pc.PopBlock? || pc.PopCheck? || pc.PopTry? {
      ConsumerNearer(q, a, pc);
    } else if pc.Read? || pc.SetRead? || pc.Sweep? || pc.Leave? {
      ReaderNearer(q, a, pc);
    } else if pc.Empty1? || pc.Empty2? || pc.Len1? || pc.Len2? || pc.Len3? {
      AskerNearer(q, a, pc);
    } else {
      MoverNearer(q, a, pc);
    }
  }

  /** The states through which steps of `a` alone lead. */
  ghost predicate Alone(a: nat, trail: seq<State>) {
    |trail| > 0 && forall k :: 0 <= k < |trail| - 1 ==> Leads(trail[k], a, trail[k + 1])
  }

  ghost predicate Leads(s: State, a: nat, s': State) {
    a < |s.agents| && s' == Step(s, a, Go)
  }

  lemma Prepend(a: nat, s: State, trail: seq<State>)
    requires Alone(a, trail) && Leads(s, a, trail[0])
    ensures Alone(a, [s] + trail)
  {
    forall k | 0 <= k < |trail| ensures Leads(([s] + trail)[k], a, ([s] + trail)[k + 1]) {
      if k > 0 { assert Leads(trail[k - 1], a, trail[k - 1 + 1]); }
    }
  }

  /** The call of `a` has ended, or waits. */
  predicate Over(s: State, a: nat) {
    a < |s.agents| && (s.agents[a].Idle? || Waits(s.q, s.agents[a]))
  }

  predicate Within(s: State, a: nat, k: nat) {
    a < |s.agents| && Rank(s.q, s.agents[a]) <= k
  }

  lemma AloneNearer(s: State, a: nat, k: nat) returns (s': State)
    requires Inv(s) && Within(s, a, k) && !Over(s, a)
    ensures k > 0 && Inv(s') && Within(s', a, k - 1) && Leads(s, a, s')
  {
    s' := Step(s, a, Go);
    OwnFromTokens(s.q, s.agents, a);
    StepNearer(s.q, a, s.agents[a]);
    StepKeeps(s, a, Go);
  }

  lemma {:induction false} EndsWithin(s: State, a: nat, k: nat) returns (trail: seq<State>)
    requires Inv(s) && Within(s, a, k)
    ensures Alone(a, trail) && trail[0] == s && |trail| <= k + 1 && Over(trail[|trail| - 1], a)
    decreases k
  {
    if Over(s, a) {
      trail := [s];
    } else {
      var next := AloneNearer(s, a, k);
      var rest := EndsWithin(next, a, k - 1);
      Prepend(a, s, rest);
      trail := [s] + rest;
    }
  }

  /** From every state that any schedule can lead to, a call that runs alone ends, or comes to
      wait for another, within 83 of its own steps. */
  lemma EndsAlone(s: State, a: nat) returns (trail: seq<State>)
    requires Inv(s) && a < |s.agents|
    ensures Alone(a, trail) && trail[0] == s && |trail| <= 84
    ensures var s' := trail[|trail| - 1]; a < |s'.agents| && (s'.agents[a].Idle? || Waits(s'.q, s'.agents[a]))
  {
    RankBound(s.q, s.agents[a]);
    trail := EndsWithin(s, a, 83);
  }

  /** The call that a waiting call waits for. */
  ghost predicate WaitsFor(s: State, pc: Agent, c: nat) {
    && c < |s.agents|
    && match pc
       case AwaitWrite(h, block) => RoleOf(s.agents[c]) == Writer(block, Off(h))
       case AwaitNext(h, block) => RoleOf(s.agents[c]) == Writer(block, 30)
       case PopLoad => MovesHead(s.agents[c]) || s.agents[c].PushFirst?
       case PopBlock(_, _) => MovesHead(s.agents[c]) || s.agents[c].PushFirst?
       case PopCheck(_, _, _) => MovesHead(s.agents[c]) || s.agents[c].PushFirst?
       case PopTry(_, _, _, _) => MovesHead(s.agents[c]) || s.agents[c].PushFirst?
       case _ => Installs(s.agents[c])
  }

  lemma WriterIsThere(s: State, b: nat, k: nat)
    requires Inv(s) && b < |s.q.blocks| && k < |s.q.blocks[b].slots| && s.q.blocks[b].slots[k].writer.Some?
    ensures var c := s.q.blocks[b].slots[k].writer.value; c < |s.agents| && RoleOf(s.agents[c]) == Writer(b, k)
  {
    assert BlockTokens(b, s.q.blocks[b], s.agents);
  }

  lemma UnwrittenHasWriter(s: State, a: nat, h: nat, block: nat) returns (c: nat)
    requires Inv(s) && a < |s.agents| && Reads(s.q, a, h, block, false) && !s.q.blocks[block].slots[Off(h)].write
    ensures c < |s.agents| && RoleOf(s.agents[c]) == Writer(block, Off(h))
  {
    var B := s.q.blocks[block];
    assert BlockInv(s.q.head, s.q.tail, |s.q.blocks|, block, B);
    assert SlotInv(s.q.head, s.q.tail, 32 * block + Off(h), B.slots[Off(h)]);
    c := B.slots[Off(h)].writer.value;
    WriterIsThere(s, block, Off(h));
  }

  /** A missing link is the duty of the producer of the last slot. */
  lemma UnlinkedHasWriter(s: State, a: nat, h: nat, block: nat) returns (c: nat)
    requires Inv(s) && a < |s.agents| && Moves(s.q, a, h, block) && s.q.blocks[block].next.None?
    ensures c < |s.agents| && RoleOf(s.agents[c]) == Writer(block, 30)
  {
    var B := s.q.blocks[block];
    assert BlockInv(s.q.head, s.q.tail, |s.q.blocks|, block, B);
    assert SlotInv(s.q.head, s.q.tail, 32 * block + 30, B.slots[30]);
    if B.slots[30].writer.Some? {
      c := B.slots[30].writer.value;
      WriterIsThere(s, block, 30);
    } else {
      assert TailInv(s.q);
      assert |s.q.blocks| == block + 1 && Off(s.q.tail) == 31;
      c := s.q.installer.value;
      InstallerWrites(s, c, block);
    }
  }

  lemma InstallerWrites(s: State, c: nat, block: nat)
    requires Inv(s) && s.q.installer == Some(c) && Lap(s.q.tail) == block
    ensures c < |s.agents| && RoleOf(s.agents[c]) == Writer(block, 30)
  {
    assert Tokens(s.q, s.agents) && AgentInv(s.q, c, s.agents[c]);
  }

  /** Whoever waits, waits for somebody who is there. */
  lemma WaitHasReason(s: State, a: nat) returns (c: nat)
    requires Inv(s) && a < |s.agents| && Waits(s.q, s.agents[a])
    ensures WaitsFor(s, s.agents[a], c)
  {
    var pc := s.agents[a];
    assert AgentInv(s.q, a, pc);
    assert TailInv(s.q) && HeadInv(s.q) && Tokens(s.q, s.agents);
    if pc.AwaitWrite? {
      c := UnwrittenHasWriter(s, a, pc.h, pc.block);
    } else if pc.AwaitNext? {
      c := UnlinkedHasWriter(s, a, pc.h, pc.block);
    } else if pc.PushLoad? || pc.PushBlock? || pc.PushTry? {
      c := s.q.installer.value;
    } else if Off(s.q.head) == 31 {
      c := s.q.mover.value;
    } else {
      c := s.q.first.value;
    }
  }

  /** No deadlock: if any call is in progress, then some agent's next step brings its call nearer
      to its end. */
  lemma SomebodyMoves(s: State, a: nat) returns (c: nat)
    requires Inv(s) && a < |s.agents| && !s.agents[a].Idle?
    ensures c < |s.agents| && !s.agents[c].Idle? && !Waits(s.q, s.agents[c])
    ensures Nearer(s.q, s.agents[c], Next(s.q, c, s.agents[c], Go))
  {
    c := a;
    if Waits(s.q, s.agents[c]) { c := WaitHasReason(s, c); }
    if Waits(s.q, s.agents[c]) { c := WaitHasReason(s, c); }
    assert AgentInv(s.q, c, s.agents[c]);
    OwnFromTokens(s.q, s.agents, c);
    StepNearer(s.q, c, s.agents[c]);
  }

  /** `None` and `is_empty` are exact once the head that was loaded is still current and not on a
      boundary: an empty queue is reported as empty, too. */
  lemma EmptyIsSeen(q: Queue, a: nat, pc: Agent, i: Input)
    requires QueueInv(q) && AgentInv(q, a, pc) && Off(q.head) < 31
    ensures pc.Empty2? && pc.h == q.head ==> Next(q, a, pc, i) == Do(Idle, q, Silent, Truth(InjectorTheorems.Pending(q) == []))
    ensures pc.PopCheck? && pc.h == q.head ==>
      Next(q, a, pc, i).Do? && (Next(q, a, pc, i).answer == Nothing <==> InjectorTheorems.Pending(q) == [])
  {
    assert HeadInv(q);
    if q.head < q.tail { NextContents(q, q.head); }
  }
}
