/** Safety of the injector over every interleaving. */
module InjectorSafety {
  import opened Words
  import opened InjectorMachine

  /** The state of the slot of ticket `x`, by who has its ticket on either side. */
  ghost predicate SlotInv(head: nat, tail: nat, x: nat, s: Slot) {
    && (x >= tail ==> s.writer.None? && !s.write && s.value.None?)
    && (x < tail ==> (s.writer.None? <==> s.write))
    && (s.write && !s.taken ==> s.value == Some(s.due))
    && (s.taken ==> s.write && s.value.None?)
    && (s.read ==> s.taken && s.reader.None?)
    && (x >= head ==> s.reader.None? && !s.taken)
    && (x < head && s.reader.None? ==> s.taken)
  }

  /** Exactly one party is responsible for the block, and the slots it has passed were read. */
  ghost predicate DutyInv(B: Block)
    requires |B.slots| == 31
  {
    && (B.duty.Waiting? <==> !(B.slots[30].taken && B.slots[30].reader.None?))
    && match B.duty
       case Waiting => forall k :: 0 <= k < 31 ==> !B.slots[k].destroy
       case Carried(_, i) =>
         && i <= 30
         && (forall k :: 0 <= k < i ==> B.slots[k].read)
         && (forall k :: i <= k < 31 ==> !B.slots[k].destroy)
       case Left(i) =>
         && i < 30
         && (forall k :: 0 <= k < i ==> B.slots[k].read)
         && B.slots[i].destroy && !B.slots[i].read
         && (forall k :: i < k < 31 ==> !B.slots[k].destroy)
       case Freed => forall k :: 0 <= k < 30 ==> B.slots[k].read
  }

  /** The link of block `b` out of `n`; while it is missing, the producer that installed the
      next block still has to write the last slot. */
  ghost predicate NextInv(tail: nat, n: nat, b: nat, B: Block)
    requires |B.slots| == 31
  {
    && (B.next.Some? ==> B.next == Some(b + 1) && b + 1 < n && 32 * (b + 1) <= tail)
    && (B.next.None? && b + 1 < n ==> B.slots[30].writer.Some?)
  }

  ghost predicate SlotsInv(head: nat, tail: nat, b: nat, slots: seq<Slot>)
    requires |slots| == 31
  {
    && (forall k :: 0 <= k < 31 ==> SlotInv(head, tail, 32 * b + k, slots[k]))
    && (forall k :: 0 <= k < 30 ==> (slots[k].taken && slots[k].reader.None? ==> slots[k].read))
    && !slots[30].read
  }

  ghost predicate BlockInv(head: nat, tail: nat, n: nat, b: nat, B: Block) {
    && |B.slots| == 31
    && SlotsInv(head, tail, b, B.slots)
    && DutyInv(B)
    && NextInv(tail, n, b, B)
  }

  /** The tail side: the block pointer is the tail's block, except while a producer is
      installing the next one. */
  ghost predicate TailInv(q: Queue) {
    match q.tailBlock
    case None => q.tail == 0 && q.blocks == [] && q.installer.None?
    case Some(m) =>
      && m + 1 == |q.blocks|
      && (if Off(q.tail) < 31 then m == Lap(q.tail) && q.installer.None?
          else q.installer.Some? && (m == Lap(q.tail) || m == Lap(q.tail) + 1))
  }

  /** The head side, which lags behind until the first block is stored there. */
  ghost predicate HeadInv(q: Queue) {
    && q.head <= q.tail
    && (q.flag && Off(q.head) < 31 ==> 32 * (Lap(q.head) + 1) <= q.tail)
    && (q.first.Some? ==> q.headBlock.None? && q.tailBlock.Some?)
    && (q.headBlock.None? && q.tailBlock.Some? ==> q.first.Some?)
    && match q.headBlock
       case None => q.head == 0 && !q.flag && q.mover.None?
       case Some(m) =>
         && m < |q.blocks|
         && (if Off(q.head) < 31 then m == Lap(q.head) && q.mover.None?
             else q.mover.Some? && (m == Lap(q.head) || m == Lap(q.head) + 1))
  }

  ghost predicate BlocksInv(q: Queue) {
    forall b :: 0 <= b < |q.blocks| ==> BlockInv(q.head, q.tail, |q.blocks|, b, q.blocks[b])
  }

  ghost predicate QueueInv(q: Queue) {
    TailInv(q) && HeadInv(q) && BlocksInv(q)
  }

  /** An index and a block pointer loaded one after the other: if the index is still current,
      so is the block. */
  ghost predicate Paired(x: nat, now: nat, b: Option<nat>, current: Option<nat>) {
    && x <= now
    && (b.Some? ==> current.Some?)
    && (b.Some? && x == now && Off(x) < 31 ==> b == Some(Lap(x)))
  }

  /** Agent `a` has ticket `t` on the producer side, in block `block`. */
  ghost predicate Writes(q: Queue, a: nat, v: Item, t: nat, block: nat) {
    && Off(t) < 31 && block == Lap(t) < |q.blocks| && |q.blocks[block].slots| == 31
    && var s := q.blocks[block].slots[Off(t)];
    && s.writer == Some(a) && s.due == v
  }

  /** Agent `a` has ticket `h` on the consumer side, in block `block`. */
  ghost predicate Reads(q: Queue, a: nat, h: nat, block: nat, taken: bool) {
    && Off(h) < 31 && block == Lap(h) < |q.blocks| && |q.blocks[block].slots| == 31
    && var s := q.blocks[block].slots[Off(h)];
    && s.reader == Some(a) && s.taken == taken
  }

  ghost predicate Moves(q: Queue, a: nat, h: nat, block: nat) {
    && Reads(q, a, h, block, false)
    && Off(h) == 30 && q.mover == Some(a) && q.head == h + 1
  }

  /** The flag a consumer goes by is honest: the tail has reached the next block. */
  ghost predicate Flagged(q: Queue, h: nat, f: bool) {
    f && Off(h) < 31 ==> 32 * (Lap(h) + 1) <= q.tail
  }

  ghost predicate Linked(q: Queue, block: nat, next: nat) {
    next == block + 1 && next < |q.blocks| && 32 * next <= q.tail
  }

  ghost predicate Carries(q: Queue, a: nat, block: nat, i: nat) {
    block < |q.blocks| && q.blocks[block].duty == Carried(a, i)
  }

  ghost predicate AgentInv(q: Queue, a: nat, pc: Agent) {
    var holds :=   // named, so that a use of it stays one fact
      match pc
      case PushBlock(_, _, t) => t <= q.tail
      case PushTry(_, _, t, b) => Paired(t, q.tail, b, q.tailBlock)
      case PushFirst(_, _, t, b0) => t <= q.tail && b0 == 0 && q.first == Some(a) && t == 0
      case Install(v, t, block) =>
        Writes(q, a, v, t, block) && Unfilled(q, t, block) && Off(t) == 30 && q.installer == Some(a) && q.tail == t + 1 && q.tailBlock == Some(block)
      case Advance(v, t, block, n) =>
        && Writes(q, a, v, t, block) && Unfilled(q, t, block) && Off(t) == 30 && q.installer == Some(a) && q.tail == t + 1
        && n == block + 1 && q.tailBlock == Some(n)
      case Link(v, t, block, n) => Writes(q, a, v, t, block) && Unfilled(q, t, block) && Off(t) == 30 && Linked(q, block, n)
      case Fill(v, t, block) => Writes(q, a, v, t, block) && Unfilled(q, t, block) && NoLinkDue(q, t, block)
      case Mark(v, t, block) => Writes(q, a, v, t, block) && q.blocks[block].slots[Off(t)].value == Some(v) && NoLinkDue(q, t, block)
      case PopBlock(h, f) => h <= q.head && Flagged(q, h, f)
      case PopCheck(h, f, b) => Paired(h, q.head, b, q.headBlock) && Flagged(q, h, f)
      case PopTry(h, f, f', b) => Paired(h, q.head, b, q.headBlock) && Flagged(q, h, f') && Off(h) < 31 && h < q.tail
      case AwaitNext(h, block) => Moves(q, a, h, block) && q.headBlock == Some(block)
      case Peek(h, block, next) => Moves(q, a, h, block) && Linked(q, block, next) && q.headBlock == Some(block)
      case MoveBlock(h, block, next, f) =>
        && Moves(q, a, h, block) && Linked(q, block, next) && q.headBlock == Some(block)
        && (f ==> 32 * (next + 1) <= q.tail)
      case MoveIndex(h, block, next, f) =>
        && Moves(q, a, h, block) && Linked(q, block, next) && q.headBlock == Some(next)
        && (f ==> 32 * (next + 1) <= q.tail)
      case AwaitWrite(h, block) => Reads(q, a, h, block, false)
      case Read(h, block) => Reads(q, a, h, block, false) && q.blocks[block].slots[Off(h)].write
      case SetRead(h, block, v) => Reads(q, a, h, block, true) && Off(h) < 30 && Wrote(q.blocks[block].slots[Off(h)], v)
      case Sweep(h, block, i, v) => Carries(q, a, block, i) && Returns(q, h, v)
      case Leave(h, block, i, v) => Carries(q, a, block, i) && Returns(q, h, v) && i < 30
      case Empty2(h) => h <= q.head
      case Len2(t) => t <= q.tail
      case Len3(t, h, f, n) => t <= q.tail && (t == q.tail ==> LenOf(Word(t, false), Word(h, f)) == Some(n))
      case _ => true;
    holds
  }

  /** `v` is the value pushed with ticket `h`, and the block of that ticket exists. */
  ghost predicate Returns(q: Queue, h: nat, v: Item) {
    && Off(h) < 31 && Lap(h) < |q.blocks| && |q.blocks[Lap(h)].slots| == 31
    && Wrote(q.blocks[Lap(h)].slots[Off(h)], v)
  }

  ghost predicate Unfilled(q: Queue, t: nat, block: nat)
    requires Off(t) < 31 && block < |q.blocks| && |q.blocks[block].slots| == 31
  {
    q.blocks[block].slots[Off(t)].value.None?
  }

  ghost predicate Wrote(s: Slot, v: Item) { s.write && s.due == v }

  /** The producer of the last slot has already linked the next block. */
  ghost predicate NoLinkDue(q: Queue, t: nat, block: nat)
    requires block < |q.blocks|
  {
    Off(t) == 30 ==> q.blocks[block].next.Some?
  }

  /** What an agent is trusted with. */
  datatype Role = NoRole | Writer(b: nat, k: nat) | Reader(b: nat, k: nat) | Carrier(b: nat)

  function RoleOf(pc: Agent): Role {
    match pc
    case Install(_, t, b) => Writer(b, Off(t))
    case Advance(_, t, b, _) => Writer(b, Off(t))
    case Link(_, t, b, _) => Writer(b, Off(t))
    case Fill(_, t, b) => Writer(b, Off(t))
    case Mark(_, t, b) => Writer(b, Off(t))
    case AwaitNext(h, b) => Reader(b, Off(h))
    case Peek(h, b, _) => Reader(b, Off(h))
    case MoveBlock(h, b, _, _) => Reader(b, Off(h))
    case MoveIndex(h, b, _, _) => Reader(b, Off(h))
    case AwaitWrite(h, b) => Reader(b, Off(h))
    case Read(h, b) => Reader(b, Off(h))
    case SetRead(h, b, _) => Reader(b, Off(h))
    case Sweep(_, b, _, _) => Carrier(b)
    case Leave(_, b, _, _) => Carrier(b)
    case _ => NoRole
  }

  predicate Installs(pc: Agent) { pc.Install? || pc.Advance? }
  predicate MovesHead(pc: Agent) { pc.AwaitNext? || pc.Peek? || pc.MoveBlock? || pc.MoveIndex? }

  /** Every mark names an agent in the role it stands for. */
  ghost predicate BlockTokens(b: nat, B: Block, agents: seq<Agent>) {
    && (forall k :: 0 <= k < |B.slots| && B.slots[k].writer.Some? ==>
          B.slots[k].writer.value < |agents| && RoleOf(agents[B.slots[k].writer.value]) == Writer(b, k))
    && (forall k :: 0 <= k < |B.slots| && B.slots[k].reader.Some? ==>
          B.slots[k].reader.value < |agents| && RoleOf(agents[B.slots[k].reader.value]) == Reader(b, k))
    && (B.duty.Carried? ==> B.duty.a < |agents| && RoleOf(agents[B.duty.a]) == Carrier(b))
  }

  ghost predicate Tokens(q: Queue, agents: seq<Agent>) {
    && (forall b :: 0 <= b < |q.blocks| ==> BlockTokens(b, q.blocks[b], agents))
    && (q.installer.Some? ==> q.installer.value < |agents| && Installs(agents[q.installer.value]))
    && (q.mover.Some? ==> q.mover.value < |agents| && MovesHead(agents[q.mover.value]))
    && (q.first.Some? ==> q.first.value < |agents| && agents[q.first.value].PushFirst?)
  }

  ghost predicate Inv(s: State) {
    && !s.fault
    && QueueInv(s.q)
    && (forall a :: 0 <= a < |s.agents| ==> AgentInv(s.q, a, s.agents[a]))
    && Tokens(s.q, s.agents)
  }

  /** A mark that does not name `a` stays as it is. */
  ghost predicate Kept(t: Option<nat>, t': Option<nat>, a: nat) {
    t' == t || ((t == None || t == Some(a)) && (t' == None || t' == Some(a)))
  }

  ghost predicate SlotEvolves(s: Slot, s': Slot, a: nat) {
    && Kept(s.writer, s'.writer, a)
    && Kept(s.reader, s'.reader, a)
    && (s.write ==> s'.write)
    && (s.writer.Some? && s.writer != Some(a) ==> s'.value == s.value && s'.due == s.due)
    && (s.reader.Some? && s.reader != Some(a) ==> s'.taken == s.taken)
    && (s.writer.Some? || s.write ==> s'.due == s.due)
  }

  ghost predicate BlockEvolves(B: Block, B': Block, a: nat) {
    && |B'.slots| == |B.slots|
    && (forall k :: 0 <= k < |B.slots| ==> SlotEvolves(B.slots[k], B'.slots[k], a))
    && (B.next.Some? ==> B'.next == B.next)
    && (B'.duty == B.duty || !B.duty.Carried? || B.duty.a == a)
    && (B'.duty == B.duty || !B'.duty.Carried? || B'.duty.a == a)
    && (B.duty.Freed? ==> B'.duty.Freed?)
  }

  /** What a step of agent `a` may do, as far as every other agent can tell. */
  ghost predicate Evolves(q: Queue, q': Queue, a: nat) {
    && q.head <= q'.head
    && q.tail <= q'.tail
    && |q.blocks| <= |q'.blocks|
    && (q.tailBlock.Some? ==> q'.tailBlock.Some?)
    && (q.headBlock.Some? ==> q'.headBlock.Some?)
    && (q.installer.Some? && q.installer != Some(a) ==> q'.tail == q.tail && q'.tailBlock == q.tailBlock)
    && (q.mover.Some? && q.mover != Some(a) ==> q'.head == q.head && q'.headBlock == q.headBlock)
    && Kept(q.installer, q'.installer, a) && Kept(q.mover, q'.mover, a) && Kept(q.first, q'.first, a)
    && (forall b :: 0 <= b < |q.blocks| ==> BlockEvolves(q.blocks[b], q'.blocks[b], a))
    && (forall b :: |q.blocks| <= b < |q'.blocks| ==> q'.blocks[b] == NewBlock())
  }

  /** A slot that `c` writes keeps its writer, its value and what is due; what was written stays. */
  lemma SlotStable(q: Queue, q': Queue, a: nat, b: nat, k: nat)
    requires Evolves(q, q', a) && b < |q.blocks| && k < |q.blocks[b].slots|
    ensures |q'.blocks[b].slots| == |q.blocks[b].slots| && SlotEvolves(q.blocks[b].slots[k], q'.blocks[b].slots[k], a)
    ensures q.blocks[b].next.Some? ==> q'.blocks[b].next == q.blocks[b].next
  {
    assert BlockEvolves(q.blocks[b], q'.blocks[b], a);
  }

  lemma WritesStable(q: Queue, q': Queue, a: nat, c: nat, v: Item, t: nat, block: nat)
    requires Evolves(q, q', a) && a != c && Writes(q, c, v, t, block)
    ensures Writes(q', c, v, t, block)
    ensures q'.blocks[block].slots[Off(t)].value == q.blocks[block].slots[Off(t)].value
    ensures NoLinkDue(q, t, block) ==> NoLinkDue(q', t, block)
  {
    SlotStable(q, q', a, block, Off(t));
  }

  lemma ReadsStable(q: Queue, q': Queue, a: nat, c: nat, h: nat, block: nat, taken: bool)
    requires Evolves(q, q', a) && a != c && Reads(q, c, h, block, taken)
    ensures Reads(q', c, h, block, taken)
    ensures q.blocks[block].slots[Off(h)].write ==>
      q'.blocks[block].slots[Off(h)].write && q'.blocks[block].slots[Off(h)].due == q.blocks[block].slots[Off(h)].due
  {
    SlotStable(q, q', a, block, Off(h));
  }

  lemma ReturnsStable(q: Queue, q': Queue, a: nat, h: nat, v: Item)
    requires Evolves(q, q', a) && Returns(q, h, v)
    ensures Returns(q', h, v)
  {
    SlotStable(q, q', a, Lap(h), Off(h));
  }

  lemma CarriesStable(q: Queue, q': Queue, a: nat, c: nat, block: nat, i: nat)
    requires Evolves(q, q', a) && a != c && Carries(q, c, block, i)
    ensures Carries(q', c, block, i)
  {
    assert BlockEvolves(q.blocks[block], q'.blocks[block], a);
  }

  lemma MovesStable(q: Queue, q': Queue, a: nat, c: nat, h: nat, block: nat)
    requires Evolves(q, q', a) && a != c && Moves(q, c, h, block)
    ensures Moves(q', c, h, block) && q'.headBlock == q.headBlock
  {
    ReadsStable(q, q', a, c, h, block, false);
  }

  /** Agents that hold nothing but words they loaded. */
  predicate IsLoose(pc: Agent) {
    RoleOf(pc) == NoRole
  }

  lemma StableLoose(q: Queue, q': Queue, a: nat, c: nat, pc: Agent)
    requires Evolves(q, q', a) && a != c && AgentInv(q, c, pc) && IsLoose(pc)
    ensures AgentInv(q', c, pc)
  {
  }

  lemma StableWriter(q: Queue, q': Queue, a: nat, c: nat, pc: Agent)
    requires Evolves(q, q', a) && a != c && AgentInv(q, c, pc)
    requires pc.Install? || pc.Advance? || pc.Link? || pc.Fill? || pc.Mark?
    ensures AgentInv(q', c, pc)
  {
    WritesStable(q, q', a, c, pc.v, pc.t, pc.block);
  }

  lemma StableMover(q: Queue, q': Queue, a: nat, c: nat, pc: Agent)
    requires Evolves(q, q', a) && a != c && AgentInv(q, c, pc) && MovesHead(pc)
    ensures AgentInv(q', c, pc)
  {
    MovesStable(q, q', a, c, pc.h, pc.block);
  }

  lemma StableReader(q: Queue, q': Queue, a: nat, c: nat, pc: Agent)
    requires Evolves(q, q', a) && a != c && AgentInv(q, c, pc) && (pc.AwaitWrite? || pc.Read? || pc.SetRead?)
    ensures AgentInv(q', c, pc)
  {
    ReadsStable(q, q', a, c, pc.h, pc.block, pc.SetRead?);
  }

  lemma StableCarrier(q: Queue, q': Queue, a: nat, c: nat, pc: Agent)
    requires Evolves(q, q', a) && a != c && AgentInv(q, c, pc) && (pc.Sweep? || pc.Leave?)
    ensures AgentInv(q', c, pc)
  {
    CarriesStable(q, q', a, c, pc.block, pc.i);
    ReturnsStable(q, q', a, pc.h, pc.v);
  }

  /** Other agents' knowledge survives a step: what they were trusted with is theirs, and what
      they loaded is a stale word of an index that never goes back. */
  lemma Stable(q: Queue, q': Queue, a: nat, c: nat, pc: Agent)
    requires Evolves(q, q', a) && a != c && AgentInv(q, c, pc)
    ensures AgentInv(q', c, pc)
  {
    match RoleOf(pc)
    case NoRole => StableLoose(q, q', a, c, pc);
    case Writer(_, _) => StableWriter(q, q', a, c, pc);
    case Carrier(_) => StableCarrier(q, q', a, c, pc);
    case Reader(_, _) => if MovesHead(pc) { StableMover(q, q', a, c, pc); } else { StableReader(q, q', a, c, pc); }
  }

  /** No mark names `a` except for its own role. */
  ghost predicate OwnBlock(b: nat, B: Block, a: nat, pc: Agent) {
    && (forall k :: 0 <= k < |B.slots| && B.slots[k].writer == Some(a) ==> RoleOf(pc) == Writer(b, k))
    && (forall k :: 0 <= k < |B.slots| && B.slots[k].reader == Some(a) ==> RoleOf(pc) == Reader(b, k))
    && (B.duty.Carried? && B.duty.a == a ==> RoleOf(pc) == Carrier(b))
  }

  ghost predicate OwnTokens(q: Queue, a: nat, pc: Agent) {
    && (forall b :: 0 <= b < |q.blocks| ==> OwnBlock(b, q.blocks[b], a, pc))
    && (q.installer == Some(a) ==> Installs(pc))
    && (q.mover == Some(a) ==> MovesHead(pc))
    && (q.first == Some(a) ==> pc.PushFirst?)
  }

  /** A step of agent `a` never faults, keeps the queue's invariant and its own, and disturbs
      nobody else. */
  ghost predicate Good(q: Queue, a: nat, e: Effect) {
    var holds :=
      && e.Do?
      && QueueInv(e.q)
      && AgentInv(e.q, a, e.pc)
      && Evolves(q, e.q, a)
      && OwnTokens(e.q, a, e.pc);
    holds
  }

  lemma BlockTokensKept(b: nat, B: Block, B': Block, agents: seq<Agent>, a: nat, pc: Agent)
    requires BlockTokens(b, B, agents) && BlockEvolves(B, B', a) && OwnBlock(b, B', a, pc) && a < |agents|
    ensures BlockTokens(b, B', agents[a := pc])
  {
    forall k | 0 <= k < |B'.slots|
      ensures B'.slots[k].writer.Some? ==>
        B'.slots[k].writer.value < |agents| && RoleOf(agents[a := pc][B'.slots[k].writer.value]) == Writer(b, k)
      ensures B'.slots[k].reader.Some? ==>
        B'.slots[k].reader.value < |agents| && RoleOf(agents[a := pc][B'.slots[k].reader.value]) == Reader(b, k)
    {
      assert SlotEvolves(B.slots[k], B'.slots[k], a);
    }
  }

  lemma TokensKept(q: Queue, q': Queue, agents: seq<Agent>, a: nat, pc: Agent)
    requires Tokens(q, agents) && Evolves(q, q', a) && OwnTokens(q', a, pc) && a < |agents|
    ensures Tokens(q', agents[a := pc])
  {
    forall b | 0 <= b < |q'.blocks| ensures BlockTokens(b, q'.blocks[b], agents[a := pc]) {
      if b < |q.blocks| {
        BlockTokensKept(b, q.blocks[b], q'.blocks[b], agents, a, pc);
      }
    }
  }

  lemma ApplyKeeps(s: State, a: nat, e: Effect)
    requires Inv(s) && a < |s.agents| && Good(s.q, a, e)
    ensures Inv(Apply(s, a, e))
  {
    TokensKept(s.q, e.q, s.agents, a, e.pc);
    var agents := s.agents[a := e.pc];
    forall c | 0 <= c < |agents| ensures AgentInv(e.q, c, agents[c]) {
      if c != a { Stable(s.q, e.q, a, c, s.agents[c]); }
    }
  }

  lemma OwnFromTokens(q: Queue, agents: seq<Agent>, a: nat)
    requires Tokens(q, agents) && a < |agents|
    ensures OwnTokens(q, a, agents[a])
  {
  }

  predicate IsQuiet(pc: Agent) {
    || pc.Idle? || pc.PushLoad? || pc.PushBlock? || pc.PopLoad? || pc.PopBlock? || pc.PopCheck?
    || pc.Empty1? || pc.Empty2? || pc.Len1? || pc.Len2? || pc.Len3?
  }

  /** The count never underflows, and is the number of unclaimed tickets. */
  lemma LenIsUnclaimed(q: Queue)
    requires q.head <= q.tail
    ensures Unclaimed(q) >= 0
    ensures LenOf(Word(q.tail, false), Word(q.head, q.flag)) == Some(Unclaimed(q))
  {
    assert Word(q.tail, false) / 2 == q.tail && Word(q.head, q.flag) / 2 == q.head;
  }

  predicate SameRole(pc: Agent, pc': Agent) {
    RoleOf(pc') == RoleOf(pc)
  }

  lemma OwnKept(q: Queue, q': Queue, a: nat, pc: Agent, pc': Agent)
    requires OwnTokens(q, a, pc) && SameRole(pc, pc') && q'.blocks == q.blocks
    requires q'.installer == Some(a) ==> Installs(pc')
    requires q'.mover == Some(a) ==> MovesHead(pc')
    requires q'.first == Some(a) ==> pc'.PushFirst?
    ensures OwnTokens(q', a, pc')
  {
  }

  /** What others can tell from the fields outside the blocks. */
  ghost predicate ScalarsEvolve(q: Queue, q': Queue, a: nat) {
    && (q.tailBlock.Some? ==> q'.tailBlock.Some?)
    && (q.headBlock.Some? ==> q'.headBlock.Some?)
    && q.head <= q'.head
    && q.tail <= q'.tail
    && (q.installer.Some? && q.installer != Some(a) ==> q'.tail == q.tail && q'.tailBlock == q.tailBlock)
    && (q.mover.Some? && q.mover != Some(a) ==> q'.head == q.head && q'.headBlock == q.headBlock)
    && Kept(q.installer, q'.installer, a) && Kept(q.mover, q'.mover, a) && Kept(q.first, q'.first, a)
  }

  lemma EvolvesKept(q: Queue, q': Queue, a: nat)
    requires ScalarsEvolve(q, q', a) && q'.blocks == q.blocks
    ensures Evolves(q, q', a)
  {
  }

  /** Loads and decisions, which change nothing shared. */
  lemma GoodStill(q: Queue, a: nat, pc: Agent, pc': Agent, answer: Answer)
    requires QueueInv(q) && OwnTokens(q, a, pc) && AgentInv(q, a, pc')
    requires SameRole(pc, pc') && Installs(pc') == Installs(pc) && MovesHead(pc') == MovesHead(pc) && pc'.PushFirst? == pc.PushFirst?
    ensures Good(q, a, Do(pc', q, Silent, answer))
  {
    OwnKept(q, q, a, pc, pc');
    EvolvesKept(q, q, a);
  }

  predicate IsStill(q: Queue, pc: Agent, e: Effect) {
    e.Do? && e.q == q && e.ev == Silent && SameRole(pc, e.pc)
    && Installs(e.pc) == Installs(pc) && MovesHead(e.pc) == MovesHead(pc) && e.pc.PushFirst? == pc.PushFirst?
  }

  lemma PushLoads(q: Queue, a: nat, pc: Agent, i: Input)
    requires TailInv(q) && AgentInv(q, a, pc) && (pc.PushLoad? || pc.PushBlock?)
    ensures AgentInv(q, a, Next(q, a, pc, i).pc) && IsStill(q, pc, Next(q, a, pc, i))
  {
  }

  lemma PopLoads(q: Queue, a: nat, pc: Agent, i: Input)
    requires HeadInv(q) && AgentInv(q, a, pc) && (pc.PopLoad? || pc.PopBlock? || pc.Empty1? || pc.Empty2?)
    ensures AgentInv(q, a, Next(q, a, pc, i).pc) && IsStill(q, pc, Next(q, a, pc, i))
  {
  }

  lemma PopChecks(q: Queue, a: nat, pc: Agent, i: Input)
    requires HeadInv(q) && AgentInv(q, a, pc) && pc.PopCheck?
    ensures AgentInv(q, a, Next(q, a, pc, i).pc) && IsStill(q, pc, Next(q, a, pc, i))
  {
  }

  lemma LenLoads(q: Queue, a: nat, pc: Agent, i: Input)
    requires HeadInv(q) && AgentInv(q, a, pc) && (pc.Idle? || pc.Len1? || pc.Len2? || pc.Len3?)
    ensures Next(q, a, pc, i).Do? && AgentInv(q, a, Next(q, a, pc, i).pc) && IsStill(q, pc, Next(q, a, pc, i))
  {
    LenIsUnclaimed(q);
  }

  lemma GoodQuiet(q: Queue, a: nat, pc: Agent, i: Input)
    requires QueueInv(q) && AgentInv(q, a, pc) && OwnTokens(q, a, pc) && IsQuiet(pc)
    ensures Good(q, a, Next(q, a, pc, i))
  {
    var e := Next(q, a, pc, i);
    if pc.PushLoad? || pc.PushBlock? {
      PushLoads(q, a, pc, i);
    } else if pc.Idle? || pc.Len1? || pc.Len2? || pc.Len3? {
      LenLoads(q, a, pc, i);
    } else if pc.PopCheck? {
      PopChecks(q, a, pc, i);
    } else {
      PopLoads(q, a, pc, i);
    }
    GoodStill(q, a, pc, e.pc, e.answer);
  }

  lemma GoodPushFirst(q: Queue, a: nat, pc: Agent, i: Input)
    requires QueueInv(q) && AgentInv(q, a, pc) && OwnTokens(q, a, pc) && pc.PushFirst?
    ensures Good(q, a, Next(q, a, pc, i))
  {
    var q' := q.(headBlock := Some(pc.b0), first := None);
    OwnKept(q, q', a, pc, PushTry(pc.v, pc.spare, pc.t, Some(pc.b0)));
    EvolvesKept(q, q', a);
    assert BlocksInv(q');
    assert TailInv(q') && HeadInv(q');
  }

  lemma GoodMoveBlock(q: Queue, a: nat, pc: Agent, i: Input)
    requires QueueInv(q) && AgentInv(q, a, pc) && OwnTokens(q, a, pc) && pc.MoveBlock?
    ensures Good(q, a, Next(q, a, pc, i))
  {
    var q' := q.(headBlock := Some(pc.next));
    OwnKept(q, q', a, pc, MoveIndex(pc.h, pc.block, pc.next, pc.f));
    EvolvesKept(q, q', a);
    assert BlocksInv(q');
    assert TailInv(q') && HeadInv(q');
  }

  /** Moving an index over a boundary changes no slot's standing. */
  lemma BoundarySlots(q: Queue, head: nat, tail: nat)
    requires BlocksInv(q)
    requires head == q.head || (head == q.head + 1 && Off(q.head) == 31)
    requires tail == q.tail || (tail == q.tail + 1 && Off(q.tail) == 31)
    ensures forall b :: 0 <= b < |q.blocks| ==> BlockInv(head, tail, |q.blocks|, b, q.blocks[b])
  {
    forall b | 0 <= b < |q.blocks| ensures BlockInv(head, tail, |q.blocks|, b, q.blocks[b]) {
      assert BlockInv(q.head, q.tail, |q.blocks|, b, q.blocks[b]);
      forall k | 0 <= k < 31 ensures SlotInv(head, tail, 32 * b + k, q.blocks[b].slots[k]) {
        assert SlotInv(q.head, q.tail, 32 * b + k, q.blocks[b].slots[k]);
      }
    }
  }

  lemma GoodAdvance(q: Queue, a: nat, pc: Agent)
    requires QueueInv(q) && AgentInv(q, a, pc) && OwnTokens(q, a, pc) && pc.Advance?
    ensures Good(q, a, To(Link(pc.v, pc.t, pc.block, pc.next), q.(tail := pc.t + 2, installer := None)))
  {
    var q' := q.(tail := pc.t + 2, installer := None);
    BoundarySlots(q, q.head, q.tail + 1);
    assert BlocksInv(q');
    assert TailInv(q') && HeadInv(q');
    OwnKept(q, q', a, pc, Link(pc.v, pc.t, pc.block, pc.next));
    EvolvesKept(q, q', a);
  }

  lemma MovedHead(q: Queue, a: nat, pc: Agent)
    requires HeadInv(q) && AgentInv(q, a, pc) && pc.MoveIndex?
    ensures HeadInv(q.(head := pc.h + 2, flag := pc.f, mover := None))
  {
  }

  lemma GoodMoveIndex(q: Queue, a: nat, pc: Agent)
    requires QueueInv(q) && AgentInv(q, a, pc) && OwnTokens(q, a, pc) && pc.MoveIndex?
    ensures Good(q, a, To(AwaitWrite(pc.h, pc.block), q.(head := pc.h + 2, flag := pc.f, mover := None)))
  {
    var q' := q.(head := pc.h + 2, flag := pc.f, mover := None);
    BoundarySlots(q, q.head + 1, q.tail);
    assert BlocksInv(q');
    MovedHead(q, a, pc);
    OwnKept(q, q', a, pc, AwaitWrite(pc.h, pc.block));
    EvolvesKept(q, q', a);
  }

  /** The queue with one more block at the end. */
  function Grown(q: Queue): Queue {
    q.(tailBlock := Some(|q.blocks|), blocks := q.blocks + [NewBlock()])
  }

  lemma GrownBlocks(q: Queue)
    requires BlocksInv(q) && q.head <= q.tail <= 32 * |q.blocks|
    requires |q.blocks| > 0 ==> q.blocks[|q.blocks| - 1].next.Some? || q.blocks[|q.blocks| - 1].slots[30].writer.Some?
    ensures BlocksInv(Grown(q))
  {
    var n := |q.blocks|;
    forall b | 0 <= b < n + 1 ensures BlockInv(q.head, q.tail, n + 1, b, Grown(q).blocks[b]) {
      if b < n { assert BlockInv(q.head, q.tail, n, b, q.blocks[b]); }
    }
  }

  lemma GrownOwn(q: Queue, q': Queue, a: nat, pc: Agent, pc': Agent)
    requires OwnTokens(q, a, pc) && SameRole(pc, pc') && q'.blocks == Grown(q).blocks
    requires q'.installer == Some(a) ==> Installs(pc')
    requires q'.mover == Some(a) ==> MovesHead(pc')
    requires q'.first == Some(a) ==> pc'.PushFirst?
    ensures OwnTokens(q', a, pc')
  {
  }

  lemma GrownEvolves(q: Queue, q': Queue, a: nat)
    requires q'.blocks == Grown(q).blocks && ScalarsEvolve(q, q', a)
    ensures Evolves(q, q', a)
  {
  }

  lemma GoodInstall(q: Queue, a: nat, pc: Agent, i: Input)
    requires QueueInv(q) && AgentInv(q, a, pc) && OwnTokens(q, a, pc) && pc.Install?
    ensures Good(q, a, Next(q, a, pc, i))
  {
    GrownBlocks(q);
    GrownEvolves(q, Grown(q), a);
    GrownOwn(q, Grown(q), a, pc, Advance(pc.v, pc.t, pc.block, |q.blocks|));
  }

  lemma GoodFirst(q: Queue, a: nat, pc: Agent, i: Input)
    requires QueueInv(q) && AgentInv(q, a, pc) && OwnTokens(q, a, pc) && pc.PushTry? && pc.b.None?
    ensures Good(q, a, Next(q, a, pc, i))
  {
    if Off(pc.t) != 31 && q.tailBlock.None? {
      var q' := Grown(q).(first := Some(a));
      GrownBlocks(q);
      assert BlocksInv(q');
      GrownEvolves(q, q', a);
      GrownOwn(q, q', a, pc, Next(q, a, pc, i).pc);
    } else {
      GoodStill(q, a, pc, Next(q, a, pc, i).pc, Pending);
    }
  }

  function PutBlock(q: Queue, b: nat, B': Block): Queue
    requires b < |q.blocks|
  {
    q.(blocks := q.blocks[b := B'])
  }

  function BlockOf(role: Role): Option<nat> {
    match role
    case NoRole => None
    case Writer(b, _) => Some(b)
    case Reader(b, _) => Some(b)
    case Carrier(b) => Some(b)
  }

  lemma PutOwn(q: Queue, b: nat, B': Block, a: nat, pc: Agent, pc': Agent)
    requires OwnTokens(q, a, pc) && b < |q.blocks| && OwnBlock(b, B', a, pc')
    requires BlockOf(RoleOf(pc)) == None || BlockOf(RoleOf(pc)) == Some(b)
    requires Installs(pc') == Installs(pc) && MovesHead(pc') == MovesHead(pc) && pc'.PushFirst? == pc.PushFirst?
    ensures OwnTokens(PutBlock(q, b, B'), a, pc')
  {
    forall c | 0 <= c < |q.blocks| && c != b ensures OwnBlock(c, q.blocks[c], a, pc') {
      assert OwnBlock(c, q.blocks[c], a, pc);
    }
  }

  lemma PutEvolves(q: Queue, b: nat, B': Block, a: nat)
    requires b < |q.blocks| && BlockEvolves(q.blocks[b], B', a)
    ensures Evolves(q, PutBlock(q, b, B'), a)
  {
  }

  lemma PutInv(q: Queue, b: nat, B': Block)
    requires QueueInv(q) && b < |q.blocks| && BlockInv(q.head, q.tail, |q.blocks|, b, B')
    ensures QueueInv(PutBlock(q, b, B'))
  {
    var q' := PutBlock(q, b, B');
    assert BlocksInv(q');
    assert TailInv(q') && HeadInv(q');
  }

  /** A step that changes one block, by what it does to that block. */
  lemma GoodPut(q: Queue, b: nat, B': Block, a: nat, pc: Agent, pc': Agent, answer: Answer)
    requires QueueInv(q) && OwnTokens(q, a, pc) && b < |q.blocks|
    requires BlockOf(RoleOf(pc)) == None || BlockOf(RoleOf(pc)) == Some(b)
    requires Installs(pc') == Installs(pc) && MovesHead(pc') == MovesHead(pc) && pc'.PushFirst? == pc.PushFirst?
    requires BlockInv(q.head, q.tail, |q.blocks|, b, B') && BlockEvolves(q.blocks[b], B', a) && OwnBlock(b, B', a, pc')
    requires AgentInv(PutBlock(q, b, B'), a, pc')
    ensures Good(q, a, Do(pc', PutBlock(q, b, B'), Silent, answer))
  {
    PutOwn(q, b, B', a, pc, pc');
    PutEvolves(q, b, B', a);
    PutInv(q, b, B');
  }

  /** Block `B` with slot `k` replaced and duty `duty`. */
  function With(B: Block, k: nat, s: Slot, duty: Duty): Block
    requires k < |B.slots|
  {
    B.(slots := B.slots[k := s], duty := duty)
  }

  lemma WithInv(head: nat, tail: nat, n: nat, b: nat, B: Block, k: nat, s: Slot, duty: Duty)
    requires BlockInv(head, tail, n, b, B) && k < 31 && SlotInv(head, tail, 32 * b + k, s)
    requires if k < 30 then s.taken && s.reader.None? ==> s.read else !s.read
    requires DutyInv(With(B, k, s, duty)) && NextInv(tail, n, b, With(B, k, s, duty))
    ensures BlockInv(head, tail, n, b, With(B, k, s, duty))
  {
  }

  lemma WithEvolves(b: nat, B: Block, k: nat, s: Slot, duty: Duty, a: nat, pc: Agent, pc': Agent)
    requires k < |B.slots| && SlotEvolves(B.slots[k], s, a)
    requires duty == B.duty || !B.duty.Carried? || B.duty.a == a
    requires duty == B.duty || !duty.Carried? || duty.a == a
    requires B.duty.Freed? ==> duty.Freed?
    requires OwnBlock(b, B, a, pc) && (RoleOf(pc) == Writer(b, k) || RoleOf(pc) == Reader(b, k) || RoleOf(pc) == Carrier(b) || RoleOf(pc) == NoRole)
    requires s.writer == Some(a) ==> RoleOf(pc') == Writer(b, k)
    requires s.reader == Some(a) ==> RoleOf(pc') == Reader(b, k)
    requires duty.Carried? && duty.a == a ==> RoleOf(pc') == Carrier(b)
    ensures BlockEvolves(B, With(B, k, s, duty), a) && OwnBlock(b, With(B, k, s, duty), a, pc')
  {
  }

  /** A block is live while one of its slots has a writer or a reader, and while its last
      ticket is not handed out to a reader. */
  lemma BusyIsLive(q: Queue, b: nat, k: nat)
    requires BlocksInv(q) && b < |q.blocks| && k < 31 && |q.blocks[b].slots| == 31
    requires q.blocks[b].slots[k].writer.Some? || q.blocks[b].slots[k].reader.Some?
    ensures Live(q, b)
  {
    assert BlockInv(q.head, q.tail, |q.blocks|, b, q.blocks[b]);
    assert SlotInv(q.head, q.tail, 32 * b + k, q.blocks[b].slots[k]);
  }

  lemma UnreadIsLive(q: Queue, b: nat)
    requires BlocksInv(q) && b < |q.blocks| && q.head <= 32 * b + 30
    ensures Live(q, b)
  {
    assert BlockInv(q.head, q.tail, |q.blocks|, b, q.blocks[b]);
    assert SlotInv(q.head, q.tail, 32 * b + 30, q.blocks[b].slots[30]);
  }

  lemma GoodLink(q: Queue, a: nat, pc: Agent, i: Input)
    requires QueueInv(q) && AgentInv(q, a, pc) && OwnTokens(q, a, pc) && pc.Link?
    ensures Good(q, a, Next(q, a, pc, i))
  {
    BusyIsLive(q, pc.block, 30);
    var B := q.blocks[pc.block];
    var B' := B.(next := Some(pc.next));
    assert BlockInv(q.head, q.tail, |q.blocks|, pc.block, B);
    assert DutyInv(B');
    assert OwnBlock(pc.block, B, a, pc);
    GoodPut(q, pc.block, B', a, pc, Fill(pc.v, pc.t, pc.block), Pending);
  }

  /** Writing the value or the mark of a slot touches neither the duty nor the reader side. */
  lemma WriterBlock(q: Queue, a: nat, pc: Agent, pc': Agent, v: Item, t: nat, block: nat, s: Slot)
    requires QueueInv(q) && OwnTokens(q, a, pc) && Writes(q, a, v, t, block) && RoleOf(pc) == Writer(block, Off(t))
    requires var o := q.blocks[block].slots[Off(t)];
      || (s == o.(value := Some(v)) && RoleOf(pc') == RoleOf(pc))
      || (s == o.(write := true, writer := None) && o.value == Some(v) && NoLinkDue(q, t, block) && RoleOf(pc') == NoRole)
    ensures var B := q.blocks[block];
      var B' := With(B, Off(t), s, B.duty);
      BlockInv(q.head, q.tail, |q.blocks|, block, B') && BlockEvolves(B, B', a) && OwnBlock(block, B', a, pc')
  {
    var B, k := q.blocks[block], Off(t);
    assert BlockInv(q.head, q.tail, |q.blocks|, block, B);
    assert SlotInv(q.head, q.tail, 32 * block + k, B.slots[k]);
    assert OwnBlock(block, B, a, pc);
    assert !B.slots[k].taken;
    assert DutyInv(With(B, k, s, B.duty)) && NextInv(q.tail, |q.blocks|, block, With(B, k, s, B.duty));
    WithInv(q.head, q.tail, |q.blocks|, block, B, k, s, B.duty);
    WithEvolves(block, B, k, s, B.duty, a, pc, pc');
  }

  lemma GoodFill(q: Queue, a: nat, pc: Agent, i: Input)
    requires QueueInv(q) && AgentInv(q, a, pc) && OwnTokens(q, a, pc) && pc.Fill?
    ensures Good(q, a, Next(q, a, pc, i))
  {
    BusyIsLive(q, pc.block, Off(pc.t));
    var B := q.blocks[pc.block];
    var s := B.slots[Off(pc.t)].(value := Some(pc.v));
    var pc' := Mark(pc.v, pc.t, pc.block);
    WriterBlock(q, a, pc, pc', pc.v, pc.t, pc.block, s);
    GoodPut(q, pc.block, With(B, Off(pc.t), s, B.duty), a, pc, pc', Pending);
  }

  lemma GoodMark(q: Queue, a: nat, pc: Agent, i: Input)
    requires QueueInv(q) && AgentInv(q, a, pc) && OwnTokens(q, a, pc) && pc.Mark?
    ensures Good(q, a, Next(q, a, pc, i))
  {
    BusyIsLive(q, pc.block, Off(pc.t));
    var B := q.blocks[pc.block];
    var s := B.slots[Off(pc.t)].(write := true, writer := None);
    WriterBlock(q, a, pc, Idle, pc.v, pc.t, pc.block, s);
    GoodPut(q, pc.block, With(B, Off(pc.t), s, B.duty), a, pc, Idle, Done);
  }

  lemma GoodPeek(q: Queue, a: nat, pc: Agent, i: Input)
    requires QueueInv(q) && AgentInv(q, a, pc) && OwnTokens(q, a, pc) && pc.Peek?
    ensures Good(q, a, Next(q, a, pc, i))
  {
    UnreadIsLive(q, pc.next);
    assert BlockInv(q.head, q.tail, |q.blocks|, pc.next, q.blocks[pc.next]);
    GoodStill(q, a, pc, MoveBlock(pc.h, pc.block, pc.next, q.blocks[pc.next].next.Some?), Pending);
  }

  lemma GoodAwaitNext(q: Queue, a: nat, pc: Agent, i: Input)
    requires QueueInv(q) && AgentInv(q, a, pc) && OwnTokens(q, a, pc) && pc.AwaitNext?
    ensures Good(q, a, Next(q, a, pc, i))
  {
    BusyIsLive(q, pc.block, Off(pc.h));
    assert BlockInv(q.head, q.tail, |q.blocks|, pc.block, q.blocks[pc.block]);
    var next := q.blocks[pc.block].next;
    GoodStill(q, a, pc, if next.None? then pc else Peek(pc.h, pc.block, next.value), Pending);
  }

  lemma GoodAwaitWrite(q: Queue, a: nat, pc: Agent, i: Input)
    requires QueueInv(q) && AgentInv(q, a, pc) && OwnTokens(q, a, pc) && pc.AwaitWrite?
    ensures Good(q, a, Next(q, a, pc, i))
  {
    BusyIsLive(q, pc.block, Off(pc.h));
    GoodStill(q, a, pc, if q.blocks[pc.block].slots[Off(pc.h)].write then Read(pc.h, pc.block) else pc, Pending);
  }

  /** A slot and the duty of its block, replaced together. */
  lemma PutBoth(q: Queue, b: nat, k: nat, s: Slot, duty: Duty)
    requires Live(q, b) && k < 31
    ensures PutSlot(q, b, k, s) == PutBlock(q, b, With(q.blocks[b], k, s, q.blocks[b].duty))
    ensures Live(PutSlot(q, b, k, s), b) && PutDuty(PutSlot(q, b, k, s), b, duty) == PutBlock(q, b, With(q.blocks[b], k, s, duty))
  {
    assert PutDuty(PutSlot(q, b, k, s), b, duty).blocks == PutBlock(q, b, With(q.blocks[b], k, s, duty)).blocks;
  }

  /** Moving the value out: the slot holds what was pushed with its ticket. */
  lemma ReadBlock(q: Queue, a: nat, pc: Agent, pc': Agent)
    requires QueueInv(q) && AgentInv(q, a, pc) && OwnTokens(q, a, pc) && pc.Read?
    requires RoleOf(pc') == if Off(pc.h) == 30 then Carrier(pc.block) else RoleOf(pc)
    ensures var B := q.blocks[pc.block];
      var o := B.slots[Off(pc.h)];
      var last := Off(pc.h) == 30;
      var s := o.(value := None, taken := true, reader := if last then None else o.reader);
      var B' := With(B, Off(pc.h), s, if last then Carried(a, 0) else B.duty);
      && o.value == Some(o.due) && o.write
      && BlockInv(q.head, q.tail, |q.blocks|, pc.block, B') && BlockEvolves(B, B', a) && OwnBlock(pc.block, B', a, pc')
  {
    var B, k := q.blocks[pc.block], Off(pc.h);
    var o := B.slots[k];
    var s := o.(value := None, taken := true, reader := if k == 30 then None else o.reader);
    var duty := if k == 30 then Carried(a, 0) else B.duty;
    assert BlockInv(q.head, q.tail, |q.blocks|, pc.block, B);
    assert SlotInv(q.head, q.tail, 32 * pc.block + k, o);
    assert OwnBlock(pc.block, B, a, pc);
    assert DutyInv(With(B, k, s, duty)) && NextInv(q.tail, |q.blocks|, pc.block, With(B, k, s, duty));
    WithInv(q.head, q.tail, |q.blocks|, pc.block, B, k, s, duty);
    WithEvolves(pc.block, B, k, s, duty, a, pc, pc');
  }

  lemma ReadIs(q: Queue, a: nat, h: nat, block: nat, v: Item)
    requires Live(q, block) && Off(h) < 31 && q.blocks[block].slots[Off(h)].value == Some(v)
    ensures var B, k := q.blocks[block], Off(h);
      var o := B.slots[k];
      var s := o.(value := None, taken := true, reader := if k == 30 then None else o.reader);
      StepRead(q, a, h, block)
        == To(if k == 30 then Sweep(h, block, 0, v) else SetRead(h, block, v),
              PutBlock(q, block, With(B, k, s, if k == 30 then Carried(a, 0) else B.duty)))
  {
    var o := q.blocks[block].slots[Off(h)];
    PutBoth(q, block, Off(h), o.(value := None, taken := true, reader := if Off(h) == 30 then None else o.reader), Carried(a, 0));
  }

  lemma GoodRead(q: Queue, a: nat, pc: Agent)
    requires QueueInv(q) && AgentInv(q, a, pc) && OwnTokens(q, a, pc) && pc.Read?
    ensures Good(q, a, StepRead(q, a, pc.h, pc.block))
  {
    BusyIsLive(q, pc.block, Off(pc.h));
    var B, k := q.blocks[pc.block], Off(pc.h);
    var o := B.slots[k];
    var s := o.(value := None, taken := true, reader := if k == 30 then None else o.reader);
    var B' := With(B, k, s, if k == 30 then Carried(a, 0) else B.duty);
    var pc' := if k == 30 then Sweep(pc.h, pc.block, 0, o.due) else SetRead(pc.h, pc.block, o.due);
    ReadBlock(q, a, pc, pc');
    ReadIs(q, a, pc.h, pc.block, o.due);
    GoodPut(q, pc.block, B', a, pc, pc', Pending);
  }

  /** Marking a slot as read. If the mark DESTROY is already there, the duty was left to this
      reader, and to nobody else. */
  lemma SetReadBlock(q: Queue, a: nat, pc: Agent, pc': Agent)
    requires QueueInv(q) && AgentInv(q, a, pc) && OwnTokens(q, a, pc) && pc.SetRead?
    requires RoleOf(pc') == if q.blocks[pc.block].slots[Off(pc.h)].destroy then Carrier(pc.block) else NoRole
    ensures var B := q.blocks[pc.block];
      var o := B.slots[Off(pc.h)];
      var B' := With(B, Off(pc.h), o.(read := true, reader := None), if o.destroy then Carried(a, Off(pc.h) + 1) else B.duty);
      && (o.destroy ==> B.duty == Left(Off(pc.h)))
      && BlockInv(q.head, q.tail, |q.blocks|, pc.block, B') && BlockEvolves(B, B', a) && OwnBlock(pc.block, B', a, pc')
  {
    var B, k := q.blocks[pc.block], Off(pc.h);
    var o := B.slots[k];
    var s := o.(read := true, reader := None);
    var duty := if o.destroy then Carried(a, k + 1) else B.duty;
    assert BlockInv(q.head, q.tail, |q.blocks|, pc.block, B);
    assert SlotInv(q.head, q.tail, 32 * pc.block + k, o);
    assert OwnBlock(pc.block, B, a, pc);
    assert DutyInv(With(B, k, s, duty)) && NextInv(q.tail, |q.blocks|, pc.block, With(B, k, s, duty));
    WithInv(q.head, q.tail, |q.blocks|, pc.block, B, k, s, duty);
    WithEvolves(pc.block, B, k, s, duty, a, pc, pc');
  }

  lemma SetReadIs(q: Queue, a: nat, h: nat, block: nat, v: Item)
    requires Live(q, block) && Off(h) < 31
    ensures var B, k := q.blocks[block], Off(h);
      var o := B.slots[k];
      var s := o.(read := true, reader := None);
      StepSetRead(q, a, h, block, v)
        == if o.destroy then To(Sweep(h, block, k + 1, v), PutBlock(q, block, With(B, k, s, Carried(a, k + 1))))
           else Do(Idle, PutBlock(q, block, With(B, k, s, B.duty)), Silent, Value(v))
  {
    PutBoth(q, block, Off(h), q.blocks[block].slots[Off(h)].(read := true, reader := None), Carried(a, Off(h) + 1));
  }

  lemma InheritAgent(q: Queue, a: nat, pc: Agent)
    requires QueueInv(q) && AgentInv(q, a, pc) && pc.SetRead?
    requires q.blocks[pc.block].slots[Off(pc.h)].destroy
    ensures var B, k := q.blocks[pc.block], Off(pc.h);
      var B' := With(B, k, B.slots[k].(read := true, reader := None), Carried(a, k + 1));
      AgentInv(PutBlock(q, pc.block, B'), a, Sweep(pc.h, pc.block, k + 1, pc.v))
  {
  }

  lemma InheritShape(pc: Agent, pc': Agent)
    requires pc.SetRead? && pc' == Sweep(pc.h, pc.block, Off(pc.h) + 1, pc.v)
    ensures BlockOf(RoleOf(pc)) == Some(pc.block) && RoleOf(pc') == Carrier(pc.block)
    ensures Installs(pc') == Installs(pc) && MovesHead(pc') == MovesHead(pc) && pc'.PushFirst? == pc.PushFirst?
  {
  }

  /** The reader inherits the duty. */
  lemma GoodInherit(q: Queue, a: nat, pc: Agent)
    requires QueueInv(q) && AgentInv(q, a, pc) && OwnTokens(q, a, pc) && pc.SetRead? && q.blocks[pc.block].slots[Off(pc.h)].destroy
    ensures var B, k := q.blocks[pc.block], Off(pc.h);
      var B' := With(B, k, B.slots[k].(read := true, reader := None), Carried(a, k + 1));
      Good(q, a, To(Sweep(pc.h, pc.block, k + 1, pc.v), PutBlock(q, pc.block, B')))
  {
    var B, k := q.blocks[pc.block], Off(pc.h);
    var B' := With(B, k, B.slots[k].(read := true, reader := None), Carried(a, k + 1));
    var pc' := Sweep(pc.h, pc.block, k + 1, pc.v);
    InheritShape(pc, pc');
    SetReadBlock(q, a, pc, pc');
    InheritAgent(q, a, pc);
    GoodPut(q, pc.block, B', a, pc, pc', Pending);
  }

  lemma GoodReadDone(q: Queue, a: nat, pc: Agent)
    requires QueueInv(q) && AgentInv(q, a, pc) && OwnTokens(q, a, pc) && pc.SetRead? && !q.blocks[pc.block].slots[Off(pc.h)].destroy
    ensures var B, k := q.blocks[pc.block], Off(pc.h);
      var B' := With(B, k, B.slots[k].(read := true, reader := None), B.duty);
      Good(q, a, Do(Idle, PutBlock(q, pc.block, B'), Silent, Value(pc.v)))
  {
    var B, k := q.blocks[pc.block], Off(pc.h);
    SetReadBlock(q, a, pc, Idle);
    GoodPut(q, pc.block, With(B, k, B.slots[k].(read := true, reader := None), B.duty), a, pc, Idle, Value(pc.v));
  }

  lemma GoodSetRead(q: Queue, a: nat, pc: Agent)
    requires QueueInv(q) && AgentInv(q, a, pc) && OwnTokens(q, a, pc) && pc.SetRead?
    ensures Good(q, a, StepSetRead(q, a, pc.h, pc.block, pc.v))
  {
    BusyIsLive(q, pc.block, Off(pc.h));
    SetReadIs(q, a, pc.h, pc.block, pc.v);
    if q.blocks[pc.block].slots[Off(pc.h)].destroy {
      GoodInherit(q, a, pc);
    } else {
      GoodReadDone(q, a, pc);
    }
  }

  /** Passing a slot that was read, and freeing the block after the last of them. */
  lemma SweepBlock(q: Queue, a: nat, pc: Agent, pc': Agent, duty: Duty)
    requires QueueInv(q) && AgentInv(q, a, pc) && OwnTokens(q, a, pc) && pc.Sweep?
    requires
      || (pc.i < 30 && |q.blocks[pc.block].slots| == 31 && q.blocks[pc.block].slots[pc.i].read && duty == Carried(a, pc.i + 1) && RoleOf(pc') == RoleOf(pc))
      || (pc.i >= 30 && duty == Freed && RoleOf(pc') == NoRole)
    ensures var B := q.blocks[pc.block];
      var B' := B.(duty := duty);
      BlockInv(q.head, q.tail, |q.blocks|, pc.block, B') && BlockEvolves(B, B', a) && OwnBlock(pc.block, B', a, pc')
  {
    var B := q.blocks[pc.block];
    assert BlockInv(q.head, q.tail, |q.blocks|, pc.block, B);
    assert OwnBlock(pc.block, B, a, pc);
    assert DutyInv(B.(duty := duty));
  }

  lemma SweepIs(q: Queue, a: nat, h: nat, block: nat, i: nat, v: Item)
    requires Live(q, block)
    ensures var B := q.blocks[block];
      StepSweep(q, a, h, block, i, v)
        == if i >= 30 then Do(Idle, PutBlock(q, block, B.(duty := Freed)), Silent, Value(v))
           else if B.slots[i].read then To(Sweep(h, block, i + 1, v), PutBlock(q, block, B.(duty := Carried(a, i + 1))))
           else To(Leave(h, block, i, v), q)
  {
  }

  lemma GoodFree(q: Queue, a: nat, pc: Agent)
    requires QueueInv(q) && AgentInv(q, a, pc) && OwnTokens(q, a, pc) && pc.Sweep? && pc.i >= 30
    ensures Good(q, a, Do(Idle, PutBlock(q, pc.block, q.blocks[pc.block].(duty := Freed)), Silent, Value(pc.v)))
  {
    SweepBlock(q, a, pc, Idle, Freed);
    GoodPut(q, pc.block, q.blocks[pc.block].(duty := Freed), a, pc, Idle, Value(pc.v));
  }

  lemma GoodPass(q: Queue, a: nat, pc: Agent)
    requires QueueInv(q) && AgentInv(q, a, pc) && OwnTokens(q, a, pc) && pc.Sweep? && pc.i < 30
    requires |q.blocks[pc.block].slots| == 31 && q.blocks[pc.block].slots[pc.i].read
    ensures Good(q, a, To(Sweep(pc.h, pc.block, pc.i + 1, pc.v), PutBlock(q, pc.block, q.blocks[pc.block].(duty := Carried(a, pc.i + 1)))))
  {
    SweepBlock(q, a, pc, Sweep(pc.h, pc.block, pc.i + 1, pc.v), Carried(a, pc.i + 1));
    GoodPut(q, pc.block, q.blocks[pc.block].(duty := Carried(a, pc.i + 1)), a, pc, Sweep(pc.h, pc.block, pc.i + 1, pc.v), Pending);
  }

  lemma CarrierLive(q: Queue, a: nat, block: nat, i: nat)
    requires BlocksInv(q) && Carries(q, a, block, i)
    ensures Live(q, block)
  {
    assert BlockInv(q.head, q.tail, |q.blocks|, block, q.blocks[block]);
  }

  lemma GoodTurn(q: Queue, a: nat, pc: Agent)
    requires QueueInv(q) && AgentInv(q, a, pc) && OwnTokens(q, a, pc) && pc.Sweep? && pc.i < 30
    ensures Good(q, a, To(Leave(pc.h, pc.block, pc.i, pc.v), q))
  {
    GoodStill(q, a, pc, Leave(pc.h, pc.block, pc.i, pc.v), Pending);
  }

  lemma GoodSweep(q: Queue, a: nat, pc: Agent)
    requires QueueInv(q) && AgentInv(q, a, pc) && OwnTokens(q, a, pc) && pc.Sweep?
    ensures Good(q, a, StepSweep(q, a, pc.h, pc.block, pc.i, pc.v))
  {
    CarrierLive(q, a, pc.block, pc.i);
    SweepIs(q, a, pc.h, pc.block, pc.i, pc.v);
    if pc.i >= 30 {
      GoodFree(q, a, pc);
    } else if q.blocks[pc.block].slots[pc.i].read {
      GoodPass(q, a, pc);
    } else {
      GoodTurn(q, a, pc);
    }
  }

  /** Marking a slot DESTROY: either its reader was faster, or the duty is now left to it. */
  lemma LeaveBlock(q: Queue, a: nat, pc: Agent, pc': Agent)
    requires QueueInv(q) && AgentInv(q, a, pc) && OwnTokens(q, a, pc) && pc.Leave? && |q.blocks[pc.block].slots| == 31
    requires RoleOf(pc') == if q.blocks[pc.block].slots[pc.i].read then Carrier(pc.block) else NoRole
    ensures var B := q.blocks[pc.block];
      var o := B.slots[pc.i];
      var B' := With(B, pc.i, o.(destroy := true), if o.read then Carried(a, pc.i + 1) else Left(pc.i));
      BlockInv(q.head, q.tail, |q.blocks|, pc.block, B') && BlockEvolves(B, B', a) && OwnBlock(pc.block, B', a, pc')
  {
    var B := q.blocks[pc.block];
    var o := B.slots[pc.i];
    var s := o.(destroy := true);
    var duty := if o.read then Carried(a, pc.i + 1) else Left(pc.i);
    assert BlockInv(q.head, q.tail, |q.blocks|, pc.block, B);
    assert SlotInv(q.head, q.tail, 32 * pc.block + pc.i, o);
    assert OwnBlock(pc.block, B, a, pc);
    assert DutyInv(With(B, pc.i, s, duty)) && NextInv(q.tail, |q.blocks|, pc.block, With(B, pc.i, s, duty));
    WithInv(q.head, q.tail, |q.blocks|, pc.block, B, pc.i, s, duty);
    WithEvolves(pc.block, B, pc.i, s, duty, a, pc, pc');
  }

  lemma LeaveIs(q: Queue, a: nat, h: nat, block: nat, i: nat, v: Item)
    requires Live(q, block) && i < 31
    ensures var B := q.blocks[block];
      var o := B.slots[i];
      var s := o.(destroy := true);
      StepLeave(q, a, h, block, i, v)
        == if o.read then To(Sweep(h, block, i + 1, v), PutBlock(q, block, With(B, i, s, Carried(a, i + 1))))
           else Do(Idle, PutBlock(q, block, With(B, i, s, Left(i))), Silent, Value(v))
  {
    PutBoth(q, block, i, q.blocks[block].slots[i].(destroy := true), Carried(a, i + 1));
    PutBoth(q, block, i, q.blocks[block].slots[i].(destroy := true), Left(i));
  }

  lemma GoodOvertaken(q: Queue, a: nat, pc: Agent)
    requires QueueInv(q) && AgentInv(q, a, pc) && OwnTokens(q, a, pc) && pc.Leave? && |q.blocks[pc.block].slots| == 31
    requires q.blocks[pc.block].slots[pc.i].read
    ensures var B := q.blocks[pc.block];
      var B' := With(B, pc.i, B.slots[pc.i].(destroy := true), Carried(a, pc.i + 1));
      Good(q, a, To(Sweep(pc.h, pc.block, pc.i + 1, pc.v), PutBlock(q, pc.block, B')))
  {
    var B := q.blocks[pc.block];
    var B' := With(B, pc.i, B.slots[pc.i].(destroy := true), Carried(a, pc.i + 1));
    LeaveBlock(q, a, pc, Sweep(pc.h, pc.block, pc.i + 1, pc.v));
    GoodPut(q, pc.block, B', a, pc, Sweep(pc.h, pc.block, pc.i + 1, pc.v), Pending);
  }

  lemma GoodLeft(q: Queue, a: nat, pc: Agent)
    requires QueueInv(q) && AgentInv(q, a, pc) && OwnTokens(q, a, pc) && pc.Leave? && |q.blocks[pc.block].slots| == 31
    requires !q.blocks[pc.block].slots[pc.i].read
    ensures var B := q.blocks[pc.block];
      var B' := With(B, pc.i, B.slots[pc.i].(destroy := true), Left(pc.i));
      Good(q, a, Do(Idle, PutBlock(q, pc.block, B'), Silent, Value(pc.v)))
  {
    var B := q.blocks[pc.block];
    LeaveBlock(q, a, pc, Idle);
    GoodPut(q, pc.block, With(B, pc.i, B.slots[pc.i].(destroy := true), Left(pc.i)), a, pc, Idle, Value(pc.v));
  }

  lemma GoodLeave(q: Queue, a: nat, pc: Agent)
    requires QueueInv(q) && AgentInv(q, a, pc) && OwnTokens(q, a, pc) && pc.Leave?
    ensures Good(q, a, StepLeave(q, a, pc.h, pc.block, pc.i, pc.v))
  {
    CarrierLive(q, a, pc.block, pc.i);
    LeaveIs(q, a, pc.h, pc.block, pc.i, pc.v);
    if q.blocks[pc.block].slots[pc.i].read {
      GoodOvertaken(q, a, pc);
    } else {
      GoodLeft(q, a, pc);
    }
  }

  /** The tickets a step hands out: the slots of all other tickets stand as before. */
  lemma OtherSlots(q: Queue, head: nat, tail: nat, b: nat, x: nat)
    requires BlocksInv(q) && b < |q.blocks| && Lap(x) != b
    requires (head == q.head && tail == q.tail + 1 && x == q.tail) || (head == q.head + 1 && tail == q.tail && x == q.head)
    ensures BlockInv(head, tail, |q.blocks|, b, q.blocks[b])
  {
    assert BlockInv(q.head, q.tail, |q.blocks|, b, q.blocks[b]);
    forall k | 0 <= k < 31 ensures SlotInv(head, tail, 32 * b + k, q.blocks[b].slots[k]) {
      assert SlotInv(q.head, q.tail, 32 * b + k, q.blocks[b].slots[k]);
    }
  }

  /** The block of a ticket that a producer just took. */
  lemma TicketBlock(q: Queue, a: nat, v: Item, pc: Agent, pc': Agent, block: nat)
    requires QueueInv(q) && OwnTokens(q, a, pc) && RoleOf(pc) == NoRole
    requires Off(q.tail) < 31 && block == Lap(q.tail) < |q.blocks| && RoleOf(pc') == Writer(block, Off(q.tail))
    ensures |q.blocks[block].slots| == 31
    ensures var B := q.blocks[block];
      var o := B.slots[Off(q.tail)];
      var B' := With(B, Off(q.tail), o.(due := v, writer := Some(a)), B.duty);
      && o.value.None?
      && BlockInv(q.head, q.tail + 1, |q.blocks|, block, B') && BlockEvolves(B, B', a) && OwnBlock(block, B', a, pc')
  {
    var B, k := q.blocks[block], Off(q.tail);
    assert BlockInv(q.head, q.tail, |q.blocks|, block, B);
    var s := B.slots[k].(due := v, writer := Some(a));
    assert SlotInv(q.head, q.tail, 32 * block + k, B.slots[k]);
    assert OwnBlock(block, B, a, pc);
    WithEvolves(block, B, k, s, B.duty, a, pc, pc');
    var B' := With(B, k, s, B.duty);
    forall j | 0 <= j < 31 ensures SlotInv(q.head, q.tail + 1, 32 * block + j, B'.slots[j]) {
      assert SlotInv(q.head, q.tail, 32 * block + j, B.slots[j]);
    }
    assert DutyInv(B') && NextInv(q.tail + 1, |q.blocks|, block, B');
  }

  /** The block of a ticket that a consumer just took. */
  lemma ClaimBlock(q: Queue, a: nat, pc: Agent, pc': Agent, block: nat)
    requires QueueInv(q) && OwnTokens(q, a, pc) && RoleOf(pc) == NoRole && q.head < q.tail
    requires Off(q.head) < 31 && block == Lap(q.head) < |q.blocks| && RoleOf(pc') == Reader(block, Off(q.head))
    ensures |q.blocks[block].slots| == 31
    ensures var B := q.blocks[block];
      var o := B.slots[Off(q.head)];
      var B' := With(B, Off(q.head), o.(reader := Some(a)), B.duty);
      && !o.taken
      && BlockInv(q.head + 1, q.tail, |q.blocks|, block, B') && BlockEvolves(B, B', a) && OwnBlock(block, B', a, pc')
  {
    var B, k := q.blocks[block], Off(q.head);
    assert BlockInv(q.head, q.tail, |q.blocks|, block, B);
    var s := B.slots[k].(reader := Some(a));
    assert SlotInv(q.head, q.tail, 32 * block + k, B.slots[k]);
    assert OwnBlock(block, B, a, pc);
    WithEvolves(block, B, k, s, B.duty, a, pc, pc');
    var B' := With(B, k, s, B.duty);
    forall j | 0 <= j < 31 ensures SlotInv(q.head + 1, q.tail, 32 * block + j, B'.slots[j]) {
      assert SlotInv(q.head, q.tail, 32 * block + j, B.slots[j]);
    }
    assert DutyInv(B') && NextInv(q.tail, |q.blocks|, block, B');
  }

  /** The queue after a producer has taken the next ticket, and after a consumer has. */
  function Ticketed(q: Queue, a: nat, v: Item): Queue
    requires Live(q, Lap(q.tail)) && Off(q.tail) < 31
  {
    var B, k := q.blocks[Lap(q.tail)], Off(q.tail);
    PutBlock(q, Lap(q.tail), With(B, k, B.slots[k].(due := v, writer := Some(a)), B.duty))
      .(tail := q.tail + 1, installer := if k == 30 then Some(a) else q.installer)
  }

  function Claimed(q: Queue, a: nat, f: bool): Queue
    requires Live(q, Lap(q.head)) && Off(q.head) < 31
  {
    var B, k := q.blocks[Lap(q.head)], Off(q.head);
    PutBlock(q, Lap(q.head), With(B, k, B.slots[k].(reader := Some(a)), B.duty))
      .(head := q.head + 1, flag := f, mover := if k == 30 then Some(a) else q.mover)
  }

  lemma TicketIs(q: Queue, a: nat, v: Item, spare: bool)
    requires Live(q, Lap(q.tail)) && Off(q.tail) < 31 && (Off(q.tail) == 30 ==> spare)
    ensures StepTicket(q, a, v, spare, q.tail, Lap(q.tail))
      == Do(if Off(q.tail) == 30 then Install(v, q.tail, Lap(q.tail)) else Fill(v, q.tail, Lap(q.tail)), Ticketed(q, a, v), Enqueue(v), Pending)
  {
    PutBoth(q, Lap(q.tail), Off(q.tail), q.blocks[Lap(q.tail)].slots[Off(q.tail)].(due := v, writer := Some(a)), Waiting);
  }

  lemma ClaimIs(q: Queue, a: nat, f: bool)
    requires Live(q, Lap(q.head)) && Off(q.head) < 31
    ensures StepClaim(q, a, q.head, f, Lap(q.head))
      == Do(if Off(q.head) == 30 then AwaitNext(q.head, Lap(q.head)) else AwaitWrite(q.head, Lap(q.head)), Claimed(q, a, f), Dequeue, Pending)
  {
    PutBoth(q, Lap(q.head), Off(q.head), q.blocks[Lap(q.head)].slots[Off(q.head)].(reader := Some(a)), Waiting);
  }

  lemma TicketLive(q: Queue)
    requires QueueInv(q) && Off(q.tail) < 31 && Lap(q.tail) < |q.blocks|
    ensures Live(q, Lap(q.tail))
  {
    UnreadIsLive(q, Lap(q.tail));
  }

  lemma ClaimLive(q: Queue)
    requires QueueInv(q) && Off(q.head) < 31 && Lap(q.head) < |q.blocks|
    ensures Live(q, Lap(q.head))
  {
    UnreadIsLive(q, Lap(q.head));
  }

  lemma TicketedEnds(q: Queue, a: nat, v: Item)
    requires TailInv(q) && HeadInv(q) && q.tailBlock.Some? && Off(q.tail) < 31 && Live(q, Lap(q.tail))
    ensures TailInv(Ticketed(q, a, v)) && HeadInv(Ticketed(q, a, v))
  {
  }

  lemma ClaimedEnds(q: Queue, a: nat, f: bool)
    requires TailInv(q) && HeadInv(q) && q.headBlock.Some? && Flagged(q, q.head, f)
    requires Off(q.head) < 31 && Live(q, Lap(q.head)) && q.head < q.tail
    ensures TailInv(Claimed(q, a, f)) && HeadInv(Claimed(q, a, f))
  {
  }

  lemma TicketedInv(q: Queue, a: nat, v: Item, pc: Agent)
    requires QueueInv(q) && OwnTokens(q, a, pc) && RoleOf(pc) == NoRole && q.tailBlock.Some?
    requires Off(q.tail) < 31 && Live(q, Lap(q.tail))
    ensures QueueInv(Ticketed(q, a, v))
  {
    var q', block := Ticketed(q, a, v), Lap(q.tail);
    TicketBlock(q, a, v, pc, Fill(v, q.tail, block), block);
    forall b | 0 <= b < |q'.blocks| ensures BlockInv(q'.head, q'.tail, |q'.blocks|, b, q'.blocks[b]) {
      if b != block { OtherSlots(q, q.head, q.tail + 1, b, q.tail); }
    }
    TicketedEnds(q, a, v);
  }

  lemma ClaimedInv(q: Queue, a: nat, f: bool, pc: Agent)
    requires QueueInv(q) && OwnTokens(q, a, pc) && RoleOf(pc) == NoRole && q.headBlock.Some? && Flagged(q, q.head, f)
    requires Off(q.head) < 31 && Live(q, Lap(q.head)) && q.head < q.tail
    ensures QueueInv(Claimed(q, a, f))
  {
    var q', block := Claimed(q, a, f), Lap(q.head);
    ClaimBlock(q, a, pc, AwaitWrite(q.head, block), block);
    forall b | 0 <= b < |q'.blocks| ensures BlockInv(q'.head, q'.tail, |q'.blocks|, b, q'.blocks[b]) {
      if b != block { OtherSlots(q, q.head + 1, q.tail, b, q.head); }
    }
    ClaimedEnds(q, a, f);
  }

  /** Changing one block and fields outside the blocks. */
  lemma PutMore(q: Queue, q': Queue, b: nat, B': Block, a: nat, pc: Agent, pc': Agent)
    requires OwnTokens(q, a, pc) && b < |q.blocks| && OwnBlock(b, B', a, pc') && BlockEvolves(q.blocks[b], B', a)
    requires RoleOf(pc) == NoRole && q'.blocks == q.blocks[b := B'] && ScalarsEvolve(q, q', a)
    requires q'.installer == Some(a) ==> Installs(pc')
    requires q'.mover == Some(a) ==> MovesHead(pc')
    requires q'.first == Some(a) ==> pc'.PushFirst?
    ensures Evolves(q, q', a) && OwnTokens(q', a, pc')
  {
    forall c | 0 <= c < |q.blocks| && c != b ensures OwnBlock(c, q.blocks[c], a, pc') {
      assert OwnBlock(c, q.blocks[c], a, pc);
    }
  }

  lemma GoodTicket(q: Queue, a: nat, pc: Agent, spare: bool)
    requires QueueInv(q) && AgentInv(q, a, pc) && OwnTokens(q, a, pc) && pc.PushTry? && pc.b.Some? && q.tail == pc.t
    requires Off(pc.t) < 31 && (Off(pc.t) == 30 ==> spare)
    ensures Good(q, a, StepTicket(q, a, pc.v, spare, pc.t, pc.b.value))
  {
    var block := Lap(q.tail);
    TicketLive(q);
    TicketIs(q, a, pc.v, spare);
    var pc' := if Off(pc.t) == 30 then Install(pc.v, pc.t, block) else Fill(pc.v, pc.t, block);
    TicketBlock(q, a, pc.v, pc, pc', block);
    TicketedInv(q, a, pc.v, pc);
    PutMore(q, Ticketed(q, a, pc.v), block, Ticketed(q, a, pc.v).blocks[block], a, pc, pc');
  }

  lemma GoodPushTry(q: Queue, a: nat, pc: Agent, i: Input)
    requires QueueInv(q) && AgentInv(q, a, pc) && OwnTokens(q, a, pc) && pc.PushTry? && pc.b.Some?
    ensures Good(q, a, StepPush(q, a, i, pc.v, pc.spare, pc.t, pc.b))
  {
    var spare := pc.spare || Off(pc.t) == 30;
    if Off(pc.t) == 31 {
      GoodStill(q, a, pc, PushLoad(pc.v, pc.spare), Pending);
    } else if q.tail == pc.t && !i.Flaky? {
      GoodTicket(q, a, pc, spare);
    } else {
      GoodStill(q, a, pc, PushBlock(pc.v, spare, q.tail), Pending);
    }
  }

  lemma GoodClaim(q: Queue, a: nat, pc: Agent)
    requires QueueInv(q) && AgentInv(q, a, pc) && OwnTokens(q, a, pc) && pc.PopTry? && pc.b.Some? && q.head == pc.h
    ensures Good(q, a, StepClaim(q, a, pc.h, pc.f', pc.b.value))
  {
    var block := Lap(q.head);
    ClaimLive(q);
    ClaimIs(q, a, pc.f');
    var pc' := if Off(pc.h) == 30 then AwaitNext(pc.h, block) else AwaitWrite(pc.h, block);
    ClaimBlock(q, a, pc, pc', block);
    ClaimedInv(q, a, pc.f', pc);
    PutMore(q, Claimed(q, a, pc.f'), block, Claimed(q, a, pc.f').blocks[block], a, pc, pc');
  }

  lemma GoodPopTry(q: Queue, a: nat, pc: Agent, i: Input)
    requires QueueInv(q) && AgentInv(q, a, pc) && OwnTokens(q, a, pc) && pc.PopTry?
    ensures Good(q, a, StepPop(q, a, i, pc.h, pc.f, pc.f', pc.b))
  {
    if pc.b.None? {
      GoodStill(q, a, pc, PopLoad, Pending);
    } else if q.head == pc.h && q.flag == pc.f && !i.Flaky? {
      GoodClaim(q, a, pc);
    } else {
      GoodStill(q, a, pc, PopBlock(q.head, q.flag), Pending);
    }
  }

  lemma GoodProducer(q: Queue, a: nat, pc: Agent, i: Input)
    requires QueueInv(q) && AgentInv(q, a, pc) && OwnTokens(q, a, pc)
    requires pc.PushTry? || pc.PushFirst? || pc.Install? || pc.Advance?
    ensures Good(q, a, Next(q, a, pc, i))
  {
    match pc
    case PushTry(_, _, _, b) => if b.None? { GoodFirst(q, a, pc, i); } else { GoodPushTry(q, a, pc, i); }
    case PushFirst(_, _, _, _) => GoodPushFirst(q, a, pc, i);
    case Install(_, _, _) => GoodInstall(q, a, pc, i);
    case Advance(_, _, _, _) => GoodAdvance(q, a, pc);
  }

  lemma GoodWriter(q: Queue, a: nat, pc: Agent, i: Input)
    requires QueueInv(q) && AgentInv(q, a, pc) && OwnTokens(q, a, pc) && (pc.Link? || pc.Fill? || pc.Mark?)
    ensures Good(q, a, Next(q, a, pc, i))
  {
    match pc
    case Link(_, _, _, _) => GoodLink(q, a, pc, i);
    case Fill(_, _, _) => GoodFill(q, a, pc, i);
    case Mark(_, _, _) => GoodMark(q, a, pc, i);
  }

  lemma GoodConsumer(q: Queue, a: nat, pc: Agent, i: Input)
    requires QueueInv(q) && AgentInv(q, a, pc) && OwnTokens(q, a, pc)
    requires pc.PopTry? || pc.AwaitNext? || pc.Peek? || pc.MoveBlock? || pc.MoveIndex? || pc.AwaitWrite?
    ensures Good(q, a, Next(q, a, pc, i))
  {
    match pc
    case PopTry(_, _, _, _) => GoodPopTry(q, a, pc, i);
    case AwaitNext(_, _) => GoodAwaitNext(q, a, pc, i);
    case Peek(_, _, _) => GoodPeek(q, a, pc, i);
    case MoveBlock(_, _, _, _) => GoodMoveBlock(q, a, pc, i);
    case MoveIndex(_, _, _, _) => GoodMoveIndex(q, a, pc);
    case AwaitWrite(_, _) => GoodAwaitWrite(q, a, pc, i);
  }

  lemma GoodReader(q: Queue, a: nat, pc: Agent, i: Input)
    requires QueueInv(q) && AgentInv(q, a, pc) && OwnTokens(q, a, pc)
    requires pc.Read? || pc.SetRead? || pc.Sweep? || pc.Leave?
    ensures Good(q, a, Next(q, a, pc, i))
  {
    match pc
    case Read(_, _) => GoodRead(q, a, pc);
    case SetRead(_, _, _) => GoodSetRead(q, a, pc);
    case Sweep(_, _, _, _) => GoodSweep(q, a, pc);
    case Leave(_, _, _, _) => GoodLeave(q, a, pc);
  }

  /** Every atomic step of every agent is good: in particular no block is touched after it was
      freed, none is freed twice, and no value is read before it is written or written twice. */
  lemma GoodNext(q: Queue, a: nat, pc: Agent, i: Input)
    requires QueueInv(q) && AgentInv(q, a, pc) && OwnTokens(q, a, pc)
    ensures Good(q, a, Next(q, a, pc, i))
  {
    if IsQuiet(pc) {
      GoodQuiet(q, a, pc, i);
    } else if pc.Read? || pc.SetRead? || pc.Sweep? || pc.Leave? {
      GoodReader(q, a, pc, i);
    } else if pc.PopTry? || pc.AwaitNext? || pc.Peek? || pc.MoveBlock? || pc.MoveIndex? || pc.AwaitWrite? {
      GoodConsumer(q, a, pc, i);
    } else if pc.Link? || pc.Fill? || pc.Mark? {
      GoodWriter(q, a, pc, i);
    } else {
      GoodProducer(q, a, pc, i);
    }
  }

  lemma StepKeeps(s: State, a: nat, i: Input)
    requires Inv(s) && a < |s.agents|
    ensures Inv(Step(s, a, i))
  {
    OwnFromTokens(s.q, s.agents, a);
    GoodNext(s.q, a, s.agents[a], i);
    ApplyKeeps(s, a, Next(s.q, a, s.agents[a], i));
  }

  lemma InitInv(n: nat)
    ensures Inv(Init(n))
  {
  }

  lemma {:induction false} RunKeeps(s: State, acts: seq<Act>)
    requires Inv(s)
    ensures Inv(Run(s, acts))
    decreases |acts|
  {
    if acts != [] {
      if acts[0].agent < |s.agents| {
        StepKeeps(s, acts[0].agent, acts[0].input);
        RunKeeps(Step(s, acts[0].agent, acts[0].input), acts[1..]);
      } else {
        RunKeeps(s, acts[1..]);
      }
    }
  }
}
