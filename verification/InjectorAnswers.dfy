/** What the calls on the injector answer: every value handed to a push is returned by one pop,
    pending, or in the hands of one call; and no call gets stuck but for a named other one. */
module InjectorAnswers {
  import opened Words
  import opened InjectorMachine
  import opened InjectorSafety
  import opened InjectorTheorems
  import Ring

  /** The ticket of a pop between its claim and its answer. */
  function Ticket(pc: Agent): Option<nat> {
    match pc
    case AwaitNext(h, _) => Some(h)
    case Peek(h, _, _) => Some(h)
    case MoveBlock(h, _, _, _) => Some(h)
    case MoveIndex(h, _, _, _) => Some(h)
    case AwaitWrite(h, _) => Some(h)
    case Read(h, _) => Some(h)
    case SetRead(h, _, _) => Some(h)
    case Sweep(h, _, _, _) => Some(h)
    case Leave(h, _, _, _) => Some(h)
    case _ => None
  }

  /** The value that pop owes its caller. */
  function Owed(q: Queue, pc: Agent): Option<Item> {
    if Ticket(pc).Some? then Some(Due(q, Ticket(pc).value)) else None
  }

  /** The value of a push that has no ticket yet. */
  function Offer(pc: Agent): Option<Item> {
    match pc
    case PushLoad(v, _) => Some(v)
    case PushBlock(v, _, _) => Some(v)
    case PushTry(v, _, _, _) => Some(v)
    case PushFirst(v, _, _, _) => Some(v)
    case _ => None
  }

  /** The value handed to the push that a step starts. */
  function Handed(pc: Agent, i: Input): Option<Item> {
    if pc.Idle? && i.StartPush? then Some(i.v) else None
  }

  function Entered(e: Effect): Option<Item> {
    if e.Do? && e.ev.Enqueue? then Some(e.ev.v) else None
  }

  function Returned(e: Effect): Option<Item> {
    if e.Do? && e.answer.Value? then Some(e.answer.v) else None
  }

  function Times(v: Option<Item>, x: Item): nat { if v == Some(x) then 1 else 0 }

  /** A push holds its value from its start to its ticket. */
  lemma PushHandsOver(q: Queue, a: nat, pc: Agent, i: Input)
    requires Next(q, a, pc, i).Do?
    ensures var e := Next(q, a, pc, i);
      && (Handed(pc, i).Some? ==> Offer(pc).None? && Offer(e.pc) == Handed(pc, i) && !e.ev.Enqueue?)
      && (e.ev.Enqueue? ==> Offer(pc) == Entered(e) && Offer(e.pc).None?)
      && (Handed(pc, i).None? && !e.ev.Enqueue? ==> Offer(e.pc) == Offer(pc))
  {
  }

  /** And a pop its ticket from the claim to the answer. */
  lemma PopHandsOver(q: Queue, a: nat, pc: Agent, i: Input)
    requires Next(q, a, pc, i).Do?
    ensures var e := Next(q, a, pc, i);
      && (e.ev.Dequeue? ==> Ticket(pc).None? && Ticket(e.pc) == Some(q.head) && !e.answer.Value?)
      && (e.answer.Value? ==> Ticket(pc).Some? && e.pc.Idle? && !e.ev.Dequeue?)
      && (!e.ev.Dequeue? && !e.answer.Value? ==> Ticket(e.pc) == Ticket(pc))
  {
  }

  /** A claimed ticket was handed out on the other side. */
  lemma TicketIsOut(q: Queue, a: nat, pc: Agent)
    requires QueueInv(q) && AgentInv(q, a, pc) && Ticket(pc).Some?
    ensures var h := Ticket(pc).value; h < q.tail && Off(h) < 31
  {
    var h := Ticket(pc).value;
    assert BlockInv(q.head, q.tail, |q.blocks|, Lap(h), q.blocks[Lap(h)]);
    assert SlotInv(q.head, q.tail, 32 * Lap(h) + Off(h), q.blocks[Lap(h)].slots[Off(h)]);
  }

  /** What a pop owes does not change while others move. */
  lemma OwedStays(q: Queue, q': Queue, a: nat, c: nat, pc: Agent)
    requires QueueInv(q) && AgentInv(q, c, pc) && Evolves(q, q', a)
    ensures Owed(q', pc) == Owed(q, pc)
  {
    if Ticket(pc).Some? {
      TicketIsOut(q, c, pc);
      DueKept(q, q', a, Ticket(pc).value);
    }
  }

  /** A pop that has claimed a ticket leaves the call only by answering the value due to it. */
  lemma ClaimIsAnswered(q: Queue, a: nat, pc: Agent, i: Input)
    requires QueueInv(q) && AgentInv(q, a, pc) && OwnTokens(q, a, pc) && Ticket(pc).Some?
    ensures var e := Next(q, a, pc, i);
      && e.Do?
      && (if e.answer.Pending? then Ticket(e.pc) == Ticket(pc) && Owed(e.q, e.pc) == Owed(q, pc)
          else e.pc.Idle? && e.answer == Value(Due(q, Ticket(pc).value)))
  {
    var e := Next(q, a, pc, i);
    GoodNext(q, a, pc, i);
    PopHandsOver(q, a, pc, i);
    OwedStays(q, e.q, a, a, pc);
    TicketAnswers(q, a, pc, i);
    if e.answer.Value? { AnswersDue(q, a, pc, i); }
  }

  lemma TicketAnswers(q: Queue, a: nat, pc: Agent, i: Input)
    requires Next(q, a, pc, i).Do? && Ticket(pc).Some?
    ensures var e := Next(q, a, pc, i); (e.answer.Pending? || e.answer.Value?) && !e.ev.Dequeue?
    ensures (pc.SetRead? || pc.Sweep? || pc.Leave?) ==> Ticket(pc) == Some(pc.h)
  {
  }

  /** What a call is for. */
  datatype Call = NoCall | Push | Pop | IsEmpty | Len

  function CallOf(pc: Agent): Call {
    match pc
    case Idle => NoCall
    case PushLoad(_, _) => Push
    case PushBlock(_, _, _) => Push
    case PushTry(_, _, _, _) => Push
    case PushFirst(_, _, _, _) => Push
    case Install(_, _, _) => Push
    case Advance(_, _, _, _) => Push
    case Link(_, _, _, _) => Push
    case Fill(_, _, _) => Push
    case Mark(_, _, _) => Push
    case Empty1 => IsEmpty
    case Empty2(_) => IsEmpty
    case Len1 => Len
    case Len2(_) => Len
    case Len3(_, _, _, _) => Len
    case _ => Pop
  }

  function Started(i: Input): Call {
    match i
    case StartPush(_) => Push
    case StartPop => Pop
    case StartIsEmpty => IsEmpty
    case StartLen => Len
    case _ => NoCall
  }

  predicate Fits(c: Call, answer: Answer) {
    match c
    case NoCall => answer.Pending?
    case Push => answer.Done?
    case Pop => answer.Nothing? || answer.Value?
    case IsEmpty => answer.Truth?
    case Len => answer.Length?
  }

  /** Every call stays the call that was started until it ends with an answer of its own kind. */
  lemma CallAnswers(q: Queue, a: nat, pc: Agent, i: Input)
    requires Next(q, a, pc, i).Do?
    ensures var e := Next(q, a, pc, i);
      if pc.Idle? then CallOf(e.pc) == Started(i) && e.answer.Pending? && e.q == q
      else if e.pc.Idle? then Fits(CallOf(pc), e.answer)
      else CallOf(e.pc) == CallOf(pc) && e.answer.Pending?
  {
  }

  lemma DoneIsMark(q: Queue, a: nat, pc: Agent, i: Input)
    requires Next(q, a, pc, i).Do? && Next(q, a, pc, i).answer.Done?
    ensures pc.Mark? && Live(q, pc.block) && Off(pc.t) < 31
    ensures Next(q, a, pc, i).q == PutSlot(q, pc.block, Off(pc.t), SlotOf(q, pc.block, Off(pc.t)).(write := true, writer := None))
  {
  }

  /** A push answers once its value is there to be read. */
  lemma DoneIsReadable(q: Queue, a: nat, pc: Agent, i: Input)
    requires QueueInv(q) && AgentInv(q, a, pc) && Next(q, a, pc, i).Do? && Next(q, a, pc, i).answer.Done?
    ensures pc.Mark? && pc.block == Lap(pc.t) && Off(pc.t) < 31 && pc.t < q.tail
    ensures Live(Next(q, a, pc, i).q, pc.block)
    ensures var s := SlotOf(Next(q, a, pc, i).q, pc.block, Off(pc.t)); s.write && s.due == pc.v && s.value == Some(pc.v)
  {
    DoneIsMark(q, a, pc, i);
    MarkedIsOut(q, a, pc);
  }

  lemma MarkedIsOut(q: Queue, a: nat, pc: Agent)
    requires QueueInv(q) && AgentInv(q, a, pc) && pc.Mark?
    ensures pc.block == Lap(pc.t) && Off(pc.t) < 31 && pc.t < q.tail
  {
    assert BlockInv(q.head, q.tail, |q.blocks|, pc.block, q.blocks[pc.block]);
    assert SlotInv(q.head, q.tail, 32 * pc.block + Off(pc.t), q.blocks[pc.block].slots[Off(pc.t)]);
  }

  /** How many `x` the calls in progress owe their callers, and how many they have yet to enter. */
  function InPops(q: Queue, agents: seq<Agent>, x: Item): (r: seq<nat>)
    ensures |r| == |agents|
  {
    seq(|agents|, c requires 0 <= c < |agents| => Times(Owed(q, agents[c]), x))
  }

  function InPushes(agents: seq<Agent>, x: Item): (r: seq<nat>)
    ensures |r| == |agents|
  {
    seq(|agents|, c requires 0 <= c < |agents| => Times(Offer(agents[c]), x))
  }

  /** Entered, and not yet returned. */
  function Held(s: State, x: Item): nat
    requires s.q.head <= s.q.tail
  {
    multiset(InjectorTheorems.Pending(s.q))[x] + Ring.Sum(InPops(s.q, s.agents, x))
  }

  function Waiting(s: State, x: Item): nat {
    Ring.Sum(InPushes(s.agents, x))
  }

  lemma PopsAfter(q: Queue, q': Queue, agents: seq<Agent>, a: nat, pc': Agent, x: Item)
    requires QueueInv(q) && Evolves(q, q', a) && a < |agents|
    requires forall c :: 0 <= c < |agents| ==> AgentInv(q, c, agents[c])
    ensures Ring.Sum(InPops(q', agents[a := pc'], x)) + Times(Owed(q, agents[a]), x)
         == Ring.Sum(InPops(q, agents, x)) + Times(Owed(q', pc'), x)
  {
    forall c | 0 <= c < |agents| && c != a ensures Owed(q', agents[c]) == Owed(q, agents[c]) {
      OwedStays(q, q', a, c, agents[c]);
    }
    Ring.SumUpdate(InPops(q, agents, x), a, Times(Owed(q', pc'), x));
    assert InPops(q', agents[a := pc'], x) == InPops(q, agents, x)[a := Times(Owed(q', pc'), x)];
  }

  lemma PushesAfter(agents: seq<Agent>, a: nat, pc': Agent, x: Item)
    requires a < |agents|
    ensures Ring.Sum(InPushes(agents[a := pc'], x)) + Times(Offer(agents[a]), x) == Ring.Sum(InPushes(agents, x)) + Times(Offer(pc'), x)
  {
    Ring.SumUpdate(InPushes(agents, x), a, Times(Offer(pc'), x));
    assert InPushes(agents[a := pc'], x) == InPushes(agents, x)[a := Times(Offer(pc'), x)];
  }

  /** What a step of `a` does to what `a` owes. */
  lemma OwedAfter(q: Queue, a: nat, pc: Agent, i: Input, x: Item)
    requires QueueInv(q) && AgentInv(q, a, pc) && OwnTokens(q, a, pc)
    ensures var e := Next(q, a, pc, i);
      && e.Do?
      && Times(Owed(e.q, e.pc), x) + Times(Returned(e), x)
         == Times(Owed(q, pc), x) + (if e.ev.Dequeue? then Times(Some(Due(e.q, q.head)), x) else 0)
  {
    var e := Next(q, a, pc, i);
    GoodNext(q, a, pc, i);
    PopHandsOver(q, a, pc, i);
    OwedStays(q, e.q, a, a, pc);
    if Ticket(pc).Some? { ClaimIsAnswered(q, a, pc, i); }
  }

  lemma CountOption(v: Option<Item>, x: Item)
    ensures multiset(if v.Some? then [v.value] else [])[x] == Times(v, x)
  {
    if v.Some? { assert multiset([v.value])[x] == Times(v, x); }
  }

  lemma CountRegroup(p: seq<Item>, gain: Option<Item>, claim: Option<Item>, p': seq<Item>, x: Item)
    requires p + (if gain.Some? then [gain.value] else []) == (if claim.Some? then [claim.value] else []) + p'
    ensures multiset(p)[x] + Times(gain, x) == Times(claim, x) + multiset(p')[x]
  {
    var g, c := if gain.Some? then [gain.value] else [], if claim.Some? then [claim.value] else [];
    assert multiset(p + g) == multiset(p) + multiset(g) && multiset(c + p') == multiset(c) + multiset(p');
    assert multiset(p + g)[x] == multiset(c + p')[x];
    CountOption(gain, x);
    CountOption(claim, x);
  }

  /** A claimed value is still the one due after the claim. */
  lemma ClaimedIsDue(s: State, a: nat, i: Input)
    requires Inv(s) && a < |s.agents|
    ensures var e := Next(s.q, a, s.agents[a], i);
      e.Do? && (e.ev.Dequeue? ==> Due(e.q, s.q.head) == Due(s.q, s.q.head))
  {
    var e := Next(s.q, a, s.agents[a], i);
    OwnFromTokens(s.q, s.agents, a);
    GoodNext(s.q, a, s.agents[a], i);
    StepTicks(s.q, a, s.agents[a], i);
    if e.ev.Dequeue? { DueKept(s.q, e.q, a, s.q.head); }
  }

  lemma PendingAfter(s: State, a: nat, i: Input, x: Item)
    requires Inv(s) && a < |s.agents|
    ensures var e := Next(s.q, a, s.agents[a], i);
      && e.Do? && s.q.head <= s.q.tail && e.q.head <= e.q.tail
      && multiset(InjectorTheorems.Pending(s.q))[x] + Times(Entered(e), x)
         == multiset(InjectorTheorems.Pending(e.q))[x] + (if e.ev.Dequeue? then Times(Some(Due(e.q, s.q.head)), x) else 0)
  {
    var e := Next(s.q, a, s.agents[a], i);
    MoveInOrder(s, a, i);
    ClaimedIsDue(s, a, i);
    CountRegroup(InjectorTheorems.Pending(s.q), Entered(e), if e.ev.Dequeue? then Some(Due(s.q, s.q.head)) else None, InjectorTheorems.Pending(e.q), x);
  }

  /** Each step: what is entered is held or returned, and what is handed over waits or is entered. */
  lemma StepAccounts(s: State, a: nat, i: Input, x: Item)
    requires Inv(s) && a < |s.agents|
    ensures var e, s' := Next(s.q, a, s.agents[a], i), Step(s, a, i);
      && s.q.head <= s.q.tail && s'.q.head <= s'.q.tail
      && Held(s', x) + Times(Returned(e), x) == Held(s, x) + Times(Entered(e), x)
      && Waiting(s', x) + Times(Entered(e), x) == Waiting(s, x) + Times(Handed(s.agents[a], i), x)
  {
    var pc := s.agents[a];
    var e := Next(s.q, a, pc, i);
    OwnFromTokens(s.q, s.agents, a);
    GoodNext(s.q, a, pc, i);
    PushHandsOver(s.q, a, pc, i);
    PendingAfter(s, a, i, x);
    OwedAfter(s.q, a, pc, i, x);
    PopsAfter(s.q, e.q, s.agents, a, e.pc, x);
    PushesAfter(s.agents, a, e.pc, x);
  }

  /** How often a schedule hands `x` to a push, enters it, and returns it from a pop. */
  function HandedIn(s: State, acts: seq<Act>, x: Item): nat
    decreases |acts|
  {
    if acts == [] then 0
    else if acts[0].agent < |s.agents| then
      Times(Handed(s.agents[acts[0].agent], acts[0].input), x) + HandedIn(Step(s, acts[0].agent, acts[0].input), acts[1..], x)
    else HandedIn(s, acts[1..], x)
  }

  function ReturnedIn(s: State, acts: seq<Act>, x: Item): nat
    decreases |acts|
  {
    if acts == [] then 0
    else if acts[0].agent < |s.agents| then
      Times(Returned(Next(s.q, acts[0].agent, s.agents[acts[0].agent], acts[0].input)), x)
      + ReturnedIn(Step(s, acts[0].agent, acts[0].input), acts[1..], x)
    else ReturnedIn(s, acts[1..], x)
  }

  lemma {:induction false} PushesCount(s: State, acts: seq<Act>, x: Item)
    requires acts != [] && acts[0].agent < |s.agents|
    ensures multiset(Pushes(s, acts))[x]
         == Times(Entered(Next(s.q, acts[0].agent, s.agents[acts[0].agent], acts[0].input)), x)
          + multiset(Pushes(Step(s, acts[0].agent, acts[0].input), acts[1..]))[x]
  {
    var e := Next(s.q, acts[0].agent, s.agents[acts[0].agent], acts[0].input);
    var rest := Pushes(Step(s, acts[0].agent, acts[0].input), acts[1..]);
    var first := if e.Do? && e.ev.Enqueue? then [e.ev.v] else [];
    assert multiset(first + rest) == multiset(first) + multiset(rest);
  }

  lemma {:induction false} RunAccounts(s: State, acts: seq<Act>, x: Item)
    requires Inv(s)
    ensures var s' := Run(s, acts);
      && Inv(s') && s.q.head <= s.q.tail && s'.q.head <= s'.q.tail
      && Held(s', x) + ReturnedIn(s, acts, x) == Held(s, x) + multiset(Pushes(s, acts))[x]
      && Waiting(s', x) + multiset(Pushes(s, acts))[x] == Waiting(s, x) + HandedIn(s, acts, x)
    decreases |acts|
  {
    if acts != [] {
      var a, i := acts[0].agent, acts[0].input;
      if a < |s.agents| {
        StepKeeps(s, a, i);
        StepAccounts(s, a, i, x);
        PushesCount(s, acts, x);
        RunAccounts(Step(s, a, i), acts[1..], x);
      } else {
        RunAccounts(s, acts[1..], x);
      }
    }
  }

  /** From a new queue on, under every schedule and for every value: what was entered was returned
      by a pop, is pending, or is owed by a pop that has claimed it; and what was handed to a push
      was entered, or the push is still on its way. */
  lemma ValuesAreReturned(n: nat, acts: seq<Act>, x: Item)
    ensures var s := Run(Init(n), acts);
      && s.q.head <= s.q.tail
      && multiset(Pushes(Init(n), acts))[x]
         == ReturnedIn(Init(n), acts, x) + multiset(InjectorTheorems.Pending(s.q))[x] + Ring.Sum(InPops(s.q, s.agents, x))
      && HandedIn(Init(n), acts, x) == multiset(Pushes(Init(n), acts))[x] + Ring.Sum(InPushes(s.agents, x))
  {
    InitInv(n);
    RunAccounts(Init(n), acts, x);
    Ring.SumZero(InPops(Init(n).q, Init(n).agents, x));
    Ring.SumZero(InPushes(Init(n).agents, x));
  }

  /** So once every call has ended, what was handed over and not returned is what is pending. */
  lemma AllEnded(n: nat, acts: seq<Act>, x: Item)
    requires forall a :: 0 <= a < |Run(Init(n), acts).agents| ==> Run(Init(n), acts).agents[a].Idle?
    ensures var s := Run(Init(n), acts);
      s.q.head <= s.q.tail && HandedIn(Init(n), acts, x) == ReturnedIn(Init(n), acts, x) + multiset(InjectorTheorems.Pending(s.q))[x]
  {
    var s := Run(Init(n), acts);
    ValuesAreReturned(n, acts, x);
    Ring.SumZero(InPops(s.q, s.agents, x));
    Ring.SumZero(InPushes(s.agents, x));
  }
}
