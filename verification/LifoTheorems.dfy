/** The LIFO queue as shipped: conservation of items, what the owner is promised, and
    dropping a queue. */
module LifoTheorems {
  import opened Words
  import opened Ring
  import opened LifoMachine
  import opened LifoSafety
  import opened LifoDeque
  import LifoWrap

  /** A step moves item `x` between the outside, a slot and a hand, and loses none. */
  ghost predicate Balanced(Q: Queue, pc: Agent, e: Effect, x: Item)
    requires e.On?
  {
    Tally(e.queue.buffer, x) + One(Hand(e.pc), x) + e.got[x] == Tally(Q.buffer, x) + One(Hand(pc), x) + e.put[x]
  }

  /** How many `x` an event puts into a slot, and how many it takes out of one. */
  function Gain(ev: Event, x: Item): nat {
    if ev.Fill? then One(Held(ev.item), x) else 0
  }

  function Loss(v: View, ev: Event, x: Item): nat
    requires Allowed(v, ev)
  {
    if ev.Read? then One(Held(v.above[0]), x) else if ev.Loot? then One(Held(v.loot[0]), x) else 0
  }

  lemma ShapeTally(w: nat, Q: Queue, Q': Queue, ev: Event, x: Item)
    requires QueueInv(w, Q) && Shape(Q, Q', ev) && Allowed(ViewOf(Q), ev) && (ev.Fill? ==> Q.owner.Some?)
    ensures Tally(Q'.buffer, x) + Loss(ViewOf(Q), ev, x) == Tally(Q.buffer, x) + Gain(ev, x)
  {
    match ev
    case Fill(y) =>
      FilledInv(w, Q, y);
      TallyWrite(Q.buffer, Tail(Q) + Q.ahead, Held(y), x);
    case Read =>
      ReadRefines(w, Q);
      TallyWrite(Q.buffer, Tail(Q), Vacant, x);
    case Loot =>
      LootRefines(w, Q);
      TallyWrite(Q.buffer, Q.head + Q.moved, Vacant, x);
    case _ =>
  }

  lemma FlowIn(w: nat, queues: seq<Queue>, a: nat, pc: Agent, i: Input)
    requires w > 0 && QueuesTyped(queues) && AgentTyped(|queues|, pc)
    requires Next(false, w, queues, a, pc, i).On? && (pc.PushWrite? || pc.Extend? || pc.Put?)
    ensures var e := Next(false, w, queues, a, pc, i);
      var ev := EventOf(pc, e, i);
      && !ev.Read? && !ev.Loot? && e.got == multiset{} && Hand(e.pc) == Vacant
      && (if pc.Put? then ev == Fill(pc.item) && e.put == multiset{}
          else e.put == if ev.Fill? then multiset{ev.item} else multiset{})
  {
  }

  lemma NoFlow(w: nat, queues: seq<Queue>, a: nat, pc: Agent, i: Input)
    requires w > 0 && QueuesTyped(queues) && AgentTyped(|queues|, pc)
    requires Next(false, w, queues, a, pc, i).On?
    requires !pc.PushWrite? && !pc.Extend? && !pc.Put? && !pc.Take? && !pc.Pop4?
    ensures var e := Next(false, w, queues, a, pc, i);
      var ev := EventOf(pc, e, i);
      && !ev.Read? && !ev.Loot? && !ev.Fill? && Hand(pc) == Vacant
      && e.put == multiset{} && e.got == multiset{} && Hand(e.pc) == Vacant
  {
  }

  lemma FlowOut(w: nat, queues: seq<Queue>, a: nat, pc: Agent, i: Input, x: Item)
    requires QueuesInv(w, queues) && QueuesTyped(queues) && AgentInv(queues, a, pc) && AgentTyped(|queues|, pc)
    requires Next(false, w, queues, a, pc, i).On? && Next(false, w, queues, a, pc, i).q < |queues|
    requires var e := Next(false, w, queues, a, pc, i); Allowed(ViewOf(queues[e.q]), EventOf(pc, e, i))
    requires pc.Take? || pc.Pop4?
    ensures var e := Next(false, w, queues, a, pc, i);
      var ev := EventOf(pc, e, i);
      e.put[x] + One(Hand(pc), x) + Loss(ViewOf(queues[e.q]), ev, x) == e.got[x] + One(Hand(e.pc), x) + Gain(ev, x)
  {
    HandsOut(w, queues, a, pc, i);
  }

  /** What a step puts into its queue comes from outside or from the agent's hand, and what it
      takes out goes there. */
  lemma Flow(w: nat, queues: seq<Queue>, a: nat, pc: Agent, i: Input, x: Item)
    requires QueuesInv(w, queues) && QueuesTyped(queues) && AgentInv(queues, a, pc) && AgentTyped(|queues|, pc)
    requires Next(false, w, queues, a, pc, i).On? && Next(false, w, queues, a, pc, i).q < |queues|
    requires var e := Next(false, w, queues, a, pc, i); Allowed(ViewOf(queues[e.q]), EventOf(pc, e, i))
    ensures var e := Next(false, w, queues, a, pc, i);
      var ev := EventOf(pc, e, i);
      e.put[x] + One(Hand(pc), x) + Loss(ViewOf(queues[e.q]), ev, x) == e.got[x] + One(Hand(e.pc), x) + Gain(ev, x)
  {
    if pc.Take? || pc.Pop4? {
      FlowOut(w, queues, a, pc, i, x);
    } else if pc.PushWrite? || pc.Extend? || pc.Put? {
      FlowIn(w, queues, a, pc, i);
    } else {
      NoFlow(w, queues, a, pc, i);
    }
  }

  lemma StepBalances(w: nat, queues: seq<Queue>, a: nat, pc: Agent, i: Input, x: Item)
    requires QueuesInv(w, queues) && QueuesTyped(queues) && AgentInv(queues, a, pc) && AgentTyped(|queues|, pc)
    requires Next(false, w, queues, a, pc, i).On?
    ensures var e := Next(false, w, queues, a, pc, i);
      e.q < |queues| && Balanced(queues[e.q], pc, e, x)
  {
    var e := Next(false, w, queues, a, pc, i);
    GoodNext(w, queues, a, pc, i);
    StepRefines(w, queues, a, pc, i);
    StepShape(w, queues, a, pc, i);
    Flow(w, queues, a, pc, i, x);
    ShapeTally(w, queues[e.q], e.queue, EventOf(pc, e, i), x);
  }

  function InSlots(queues: seq<Queue>, x: Item): (r: seq<nat>)
    ensures |r| == |queues|
  {
    seq(|queues|, q requires 0 <= q < |queues| => Tally(queues[q].buffer, x))
  }

  function InHands(agents: seq<Agent>, x: Item): (r: seq<nat>)
    ensures |r| == |agents|
  {
    seq(|agents|, a requires 0 <= a < |agents| => One(Hand(agents[a]), x))
  }

  /** How many `x` the network holds: in slots, and on their way between two queues. */
  function Stock(s: State, x: Item): nat {
    Sum(InSlots(s.queues, x)) + Sum(InHands(s.agents, x))
  }

  /** As multisets, the items pushed are the items consumed and the items in the network. */
  ghost predicate Conserved(s: State) {
    forall x: Item :: s.pushed[x] == s.consumed[x] + Stock(s, x)
  }

  lemma ApplyStock(s: State, a: nat, e: Effect, x: Item)
    requires a < |s.agents| && e.On? && e.q < |s.queues| && Balanced(s.queues[e.q], s.agents[a], e, x)
    ensures Stock(Apply(s, a, e), x) + e.got[x] == Stock(s, x) + e.put[x]
  {
    var q, Q, pc := e.q, e.queue, e.pc;
    SumUpdate(InSlots(s.queues, x), q, Tally(Q.buffer, x));
    SumUpdate(InHands(s.agents, x), a, One(Hand(pc), x));
    assert InSlots(s.queues[q := Q], x) == InSlots(s.queues, x)[q := Tally(Q.buffer, x)];
    assert InHands(s.agents[a := pc], x) == InHands(s.agents, x)[a := One(Hand(pc), x)];
  }

  lemma LocalHand(w: nat, queues: seq<Queue>, a: nat, pc: Agent, i: Input)
    requires w > 0 && QueuesTyped(queues) && AgentTyped(|queues|, pc)
    requires Next(false, w, queues, a, pc, i).Local?
    ensures Hand(Next(false, w, queues, a, pc, i).pc) == Hand(pc)
  {
  }

  lemma StepConserves(s: State, a: nat, i: Input)
    requires Inv(s) && Typed(s) && a < |s.agents| && Conserved(s)
    ensures Conserved(Step(false, s, a, i))
  {
    var e := Next(false, s.w, s.queues, a, s.agents[a], i);
    var s' := Step(false, s, a, i);
    forall x: Item ensures s'.pushed[x] == s'.consumed[x] + Stock(s', x) {
      assert s.pushed[x] == s.consumed[x] + Stock(s, x);
      if e.On? {
        StepBalances(s.w, s.queues, a, s.agents[a], i, x);
        ApplyStock(s, a, e, x);
      } else if e.Local? {
        LocalHand(s.w, s.queues, a, s.agents[a], i);
        assert InHands(s.agents[a := e.pc], x) == InHands(s.agents, x);
      }
    }
  }

  /** Over any run of pushes, pops, drains, steals between queues and steals of a queue from
      itself, no item is lost and none is duplicated. */
  lemma {:induction false} RunConserves(s: State, acts: seq<Act>)
    requires Inv(s) && Conserved(s)
    ensures Conserved(Run(false, s, acts))
    decreases |acts|
  {
    InvTyped(s);
    if acts != [] {
      var a, i := acts[0].agent, acts[0].input;
      if a < |s.agents| {
        StepKeeps(s, a, i);
        StepConserves(s, a, i);
        RunConserves(Step(false, s, a, i), acts[1..]);
      } else {
        RunConserves(s, acts[1..]);
      }
    }
  }

  /** The spare capacity an owner sees when it loads the released head. */
  function Room(Q: Queue): int { Q.cap - (Tail(Q) - Q.head) }

  /** `push` fails exactly when there is no room at the instant it loads the head; the spare
      capacity is that room, and computing it never underflows. */
  lemma PushNeedsRoom(w: nat, queues: seq<Queue>, a: nat, pc: Agent, i: Input)
    requires QueuesInv(w, queues) && QueuesTyped(queues) && AgentInv(queues, a, pc) && AgentTyped(|queues|, pc) && pc.Tail3?
    ensures var e := Next(false, w, queues, a, pc, i);
      && 0 <= Room(queues[pc.q]) <= queues[pc.q].cap
      && (pc.goal.ToPush? ==> (e.Local? && e.pc.PushWrite? <==> Room(queues[pc.q]) > 0))
      && (pc.goal.ToSteal? ==> e.Local? && e.pc.Book1? && e.pc.to.room == Room(queues[pc.q]))
  {
  }

  /** A push that finds room goes on to write its item. */
  lemma RoomMeansPush(w: nat, queues: seq<Queue>, a: nat, pc: Agent, i: Input)
    requires QueuesInv(w, queues) && QueuesTyped(queues) && AgentInv(queues, a, pc) && AgentTyped(|queues|, pc)
    requires pc.Tail3? && pc.goal.ToPush? && Room(queues[pc.q]) > 0
    ensures Next(false, w, queues, a, pc, i) == Local(PushWrite(Reserve(pc.q, pc.push, pc.pop, pc.tail, queues[pc.q].head), pc.goal.item))
  {
    PushNeedsRoom(w, queues, a, pc, i);
  }

  /** Room only shrinks by what the owner itself appends. */
  lemma RoomNeverShrinks(w: nat, Q: Queue, Q': Queue, ev: Event)
    requires QueueInv(w, Q) && QueueInv(w, Q') && Shape(Q, Q', ev)
    ensures Room(Q') >= Room(Q) - (if ev.Append? then Q.ahead else 0)
  {
  }

  /** The word size and the capacity of a queue never change. */
  lemma StepKeepsSize(s: State, a: nat, i: Input, q: nat)
    requires Inv(s) && Typed(s) && a < |s.agents| && q < |s.queues|
    ensures var s' := Step(false, s, a, i); s'.w == s.w && |s'.queues| == |s.queues| && s'.queues[q].cap == s.queues[q].cap
  {
    GoodNext(s.w, s.queues, a, s.agents[a], i);
    ApplyKeepsSize(s, a, Next(false, s.w, s.queues, a, s.agents[a], i), q);
  }

  lemma ApplyKeepsSize(s: State, a: nat, e: Effect, q: nat)
    requires a < |s.agents| && q < |s.queues| && Good(s.w, s.queues, a, s.agents[a], e)
    ensures var s' := Apply(s, a, e); s'.w == s.w && |s'.queues| == |s.queues| && s'.queues[q].cap == s.queues[q].cap
  {
  }

  lemma {:induction false} RunKeepsSize(s: State, acts: seq<Act>, q: nat)
    requires Inv(s) && q < |s.queues|
    ensures var s' := Run(false, s, acts); s'.w == s.w && |s'.queues| == |s.queues| && s'.queues[q].cap == s.queues[q].cap
    decreases |acts|
  {
    InvTyped(s);
    if acts != [] {
      var a, i := acts[0].agent, acts[0].input;
      if a < |s.agents| {
        StepKeeps(s, a, i);
        StepKeepsSize(s, a, i, q);
        RunKeepsSize(Step(false, s, a, i), acts[1..], q);
      } else {
        RunKeepsSize(s, acts[1..], q);
      }
    }
  }

  /** How many items a schedule appends to queue `q`. */
  function Appended(s: State, acts: seq<Act>, q: nat): nat
    decreases |acts|
  {
    if acts == [] || !Typed(s) || q >= |s.queues| then 0
    else if acts[0].agent < |s.agents| then
      (if QueueEvent(s, acts[0].agent, acts[0].input, q).Append? then s.queues[q].ahead else 0)
      + Appended(Step(false, s, acts[0].agent, acts[0].input), acts[1..], q)
    else Appended(s, acts[1..], q)
  }

  lemma ApplyRoom(s: State, a: nat, e: Effect, pc: Agent, i: Input, q: nat)
    requires QueuesInv(s.w, s.queues) && a < |s.agents| && q < |s.queues| && Good(s.w, s.queues, a, pc, e)
    requires e.On? && |e.queue.buffer| > 0 && |s.queues[e.q].buffer| > 0 ==> Shape(s.queues[e.q], e.queue, EventOf(pc, e, i))
    ensures var s' := Apply(s, a, e);
      && |s'.queues| == |s.queues|
      && Room(s'.queues[q]) >= Room(s.queues[q]) - (if e.On? && e.q == q && EventOf(pc, e, i).Append? then s.queues[q].ahead else 0)
  {
    if e.On? && e.q == q { RoomNeverShrinks(s.w, s.queues[q], e.queue, EventOf(pc, e, i)); }
  }

  lemma StepRoom(s: State, a: nat, i: Input, q: nat)
    requires Inv(s) && Typed(s) && a < |s.agents| && q < |s.queues|
    ensures var s' := Step(false, s, a, i);
      && |s'.queues| == |s.queues|
      && Room(s'.queues[q]) >= Room(s.queues[q]) - (if QueueEvent(s, a, i, q).Append? then s.queues[q].ahead else 0)
  {
    var pc := s.agents[a];
    GoodNext(s.w, s.queues, a, pc, i);
    var e := Next(false, s.w, s.queues, a, pc, i);
    if e.On? { StepShape(s.w, s.queues, a, pc, i); }
    ApplyRoom(s, a, e, pc, i, q);
  }

  /** The spare capacity stays available to the owner, whatever the stealers do. */
  lemma {:induction false} RoomOverRun(s: State, acts: seq<Act>, q: nat)
    requires Inv(s) && q < |s.queues|
    ensures |Run(false, s, acts).queues| == |s.queues|
    ensures Room(Run(false, s, acts).queues[q]) >= Room(s.queues[q]) - Appended(s, acts, q)
    decreases |acts|
  {
    InvTyped(s);
    if acts != [] {
      var a, i := acts[0].agent, acts[0].input;
      if a < |s.agents| {
        StepKeeps(s, a, i);
        StepRoom(s, a, i, q);
        RoomOverRun(Step(false, s, a, i), acts[1..], q);
      } else {
        RoomOverRun(s, acts[1..], q);
      }
    }
  }

  /** So as long as fewer items are appended than there was room for, a push finds room, whatever
      the stealers do meanwhile: the spare capacity is the number of pushes that must succeed. */
  lemma SpareIsKept(s: State, acts: seq<Act>, a: nat, i: Input, q: nat)
    requires Inv(s) && q < |s.queues| && Appended(s, acts, q) < Room(s.queues[q])
    requires var s' := Run(false, s, acts);
      a < |s'.agents| && s'.agents[a].Tail3? && s'.agents[a].q == q && s'.agents[a].goal.ToPush?
    ensures var s' := Run(false, s, acts);
      && Typed(s')
      && var e := Next(false, s'.w, s'.queues, a, s'.agents[a], i);
         e.Local? && e.pc.PushWrite? && e.pc.r.q == q && e.pc.item == s'.agents[a].goal.item
  {
    var s' := Run(false, s, acts);
    RunRefines(s, acts, q);
    RoomOverRun(s, acts, q);
    RoomMeansPush(s'.w, s'.queues, a, s'.agents[a], i);
  }

  /** `extend` goes on exactly while there is room below the head it read. */
  lemma ExtendFillsRoom(w: nat, queues: seq<Queue>, a: nat, pc: Agent, x: Item)
    requires QueuesInv(w, queues) && QueuesTyped(queues) && AgentInv(queues, a, pc) && AgentTyped(|queues|, pc) && pc.Extend?
    ensures var e := Next(false, w, queues, a, pc, Give(x));
      && e.On?
      && (if pc.n < queues[pc.r.q].cap - (pc.r.tail - pc.r.head)
          then e.pc == Extend(pc.r, pc.n + 1)
          else e == Only(Idle, pc.r.q, Published(queues[pc.r.q], queues[pc.r.q].pushCount + pc.n)))
  {
    GoodNext(w, queues, a, pc, Give(x));
  }

  /** `is_empty`, which compares the tail with the booked head of one packed word: it answers
      true exactly when the deque is empty at the load of that word. */
  lemma IsEmptyIsExact(w: nat, Q: Queue)
    requires w > 0 && QueueInv(w, Q)
    ensures (Q.pushCount % w - Q.popCount % w) % w == Q.booked % w <==> ViewOf(Q).deque == []
  {
    ModSub(Q.pushCount, Q.popCount, w);
    if Tail(Q) % w == Q.booked % w { ModNear(Tail(Q), Q.booked, w); }
  }

  /** Once the deque is empty, no pop can claim an item until the owner appends some. */
  lemma {:induction false} EmptyUntilAppend(v: View, events: seq<Event>)
    requires v.deque == [] && Replay(v, events).Some?
    requires forall k :: 0 <= k < |events| ==> !events[k].Append?
    ensures forall k :: 0 <= k < |events| ==> !events[k].PopBack? && !events[k].Book?
    ensures Replay(v, events).value.deque == []
    decreases |events|
  {
    if events != [] {
      EmptyUntilAppend(Advance(v, events[0]), events[1..]);
      forall k | 0 <= k < |events| ensures !events[k].PopBack? && !events[k].Book? {
        if k > 0 { assert events[k] == events[1..][k - 1]; }
      }
    }
  }

  lemma WrapHand(w: nat, pc: Agent)
    requires w > 0
    ensures Hand(LifoWrap.WrapAgent(w, pc)) == Hand(pc)
  {
  }

  lemma WrapConserved(s: State)
    requires s.w > 0 && Conserved(s)
    ensures Conserved(LifoWrap.Wrap(s))
  {
    var c := LifoWrap.Wrap(s);
    forall x: Item ensures c.pushed[x] == c.consumed[x] + Stock(c, x) {
      forall a | 0 <= a < |s.agents| ensures One(Hand(c.agents[a]), x) == One(Hand(s.agents[a]), x) {
        WrapHand(s.w, s.agents[a]);
      }
      assert InHands(c.agents, x) == InHands(s.agents, x);
      assert InSlots(c.queues, x) == InSlots(s.queues, x);
      assert s.pushed[x] == s.consumed[x] + Stock(s, x);
    }
  }

  lemma InitConserved(w: nat, caps: seq<nat>, n: nat)
    requires w > 0
    ensures Conserved(Init(w, caps, n))
  {
    var s := Init(w, caps, n);
    forall x: Item ensures Stock(s, x) == 0 {
      forall q | 0 <= q < |s.queues| ensures InSlots(s.queues, x)[q] == 0 { TallyVacant(s.queues[q].buffer, x); }
      SumZero(InSlots(s.queues, x));
      SumZero(InHands(s.agents, x));
    }
  }

  lemma InitWraps(w: nat, caps: seq<nat>, n: nat)
    requires w > 0
    ensures LifoWrap.Wrap(Init(w, caps, n)) == Init(w, caps, n)
  {
    var s := Init(w, caps, n);
    ModSmall(0, w);
    assert LifoWrap.Wrap(s).queues == s.queues;
    assert LifoWrap.Wrap(s).agents == s.agents;
  }

  /** The shipped queue: under every schedule in which no booking call is overtaken by a whole
      round of words, it is the image of a run of the unbounded queue, makes no bad access, and
      conserves items. */
  lemma ShippedRun(w: nat, caps: seq<nat>, n: nat, acts: seq<Act>)
    requires w > 0 && ValidSizes(w, caps)
    requires LifoWrap.BoundedRun(Init(w, caps, n), LifoWrap.Followed(Init(w, caps, n), acts))
    ensures var c := Run(true, Init(w, caps, n), acts);
      var s := Run(false, Init(w, caps, n), LifoWrap.Followed(Init(w, caps, n), acts));
      s.w > 0 && c == LifoWrap.Wrap(s) && Inv(s) && !c.fault && Conserved(c)
  {
    var s0 := Init(w, caps, n);
    InitInv(w, caps, n);
    InitConserved(w, caps, n);
    InitWraps(w, caps, n);
    LifoWrap.WrapRun(s0, acts);
    RunConserves(s0, LifoWrap.Followed(s0, acts));
    WrapConserved(Run(false, s0, LifoWrap.Followed(s0, acts)));
  }

  /** Words and slots that show the deque `d`: its length, and its items in order. */
  ghost predicate ShowsDeque(w: nat, C: Queue, d: seq<Item>)
    requires w > 0 && |C.buffer| > 0
  {
    && |d| == ((C.pushCount - C.popCount) % w - C.booked) % w
    && forall k :: 0 <= k < |d| ==> Cell(C.buffer, (C.booked + k) % w) == Held(d[k])
  }

  lemma WordsShowDeque(w: nat, U: Queue)
    requires w > 0 && QueueInv(w, U)
    ensures ShowsDeque(w, LifoWrap.WrapQueue(w, U), ViewOf(U).deque)
  {
    LifoWrap.WordCount(U.pushCount, U.popCount, U.booked, w);
    ModSmall(Tail(U) - U.booked, w);
    forall k | 0 <= k < |ViewOf(U).deque| ensures Cell(U.buffer, (U.booked % w + k) % w) == Held(ViewOf(U).deque[k]) {
      ModAdd(U.booked, k, w);
      CellWord(U.buffer, U.booked + k, w);
      assert Cell(U.buffer, U.booked + k).Held?;
    }
  }

  /** The shipped queue is the bounded deque with one open steal: under every such schedule its
      moves replay on the deque from empty, and its words and slots show the deque they lead to. */
  lemma ShippedRefines(w: nat, caps: seq<nat>, n: nat, acts: seq<Act>, q: nat)
    requires w > 0 && ValidSizes(w, caps) && q < |caps|
    requires LifoWrap.BoundedRun(Init(w, caps, n), LifoWrap.Followed(Init(w, caps, n), acts))
    ensures var c := Run(true, Init(w, caps, n), acts);
      var moves := Events(Init(w, caps, n), LifoWrap.Followed(Init(w, caps, n), acts), q);
      && |c.queues| == |caps| && |c.queues[q].buffer| == caps[q] > 0
      && Replay(View([], [], []), moves).Some?
      && ShowsDeque(w, c.queues[q], Replay(View([], [], []), moves).value.deque)
  {
    var s0 := Init(w, caps, n);
    var f := LifoWrap.Followed(s0, acts);
    InitInv(w, caps, n);
    SizeFacts(w, caps, q);
    assert ViewOf(s0.queues[q]) == View([], [], []);
    ShippedRun(w, caps, n, acts);
    RunRefines(s0, f, q);
    RunKeepsSize(s0, f, q);
    assert QueueInv(w, Run(false, s0, f).queues[q]);
    WordsShowDeque(w, Run(false, s0, f).queues[q]);
  }

  /** Dropping a queue that no owner is using releases what a leaked drain had yet to yield and
      the deque, oldest first; and before that it releases once more every item that the leaked
      drain has already handed out. */
  lemma DropReleases(w: nat, U: Queue)
    requires QueueInv(w, U) && U.owner.None? && w > 0
    ensures var r := Sweep(U.buffer, U.head, Tail(U) - U.head);
      r.stale == U.moved && r.dropped == ViewOf(U).loot + ViewOf(U).deque
  {
    SweepStale(U.buffer, U.head, Tail(U) - U.head, U.moved);
    ItemsSplit(U.buffer, U.head + U.moved, U.booked - U.head - U.moved, Tail(U) - U.booked);
  }

  lemma DropStale(w: nat, U: Queue)
    requires QueueInv(w, U) && U.owner.None? && w > 0
    ensures Sweep(U.buffer, U.head, Tail(U) - U.head).stale == U.moved
  {
    DropReleases(w, U);
  }

  /** So it is sound, and then releases exactly the deque, if and only if no leaked drain has
      handed anything out. */
  lemma DropIsSound(w: nat, U: Queue)
    requires QueueInv(w, U) && U.owner.None? && w > 0
    ensures Sweep(U.buffer, U.head, Tail(U) - U.head).stale == 0 <==> U.moved == 0
  {
    DropStale(w, U);
  }

  lemma DropLeavesNothing(w: nat, U: Queue)
    requires QueueInv(w, U) && U.owner.None? && w > 0
    ensures var r := Sweep(U.buffer, U.head, Tail(U) - U.head);
      forall i :: 0 <= i < |r.buffer| ==> r.buffer[i] == Vacant
  {
    var r := Sweep(U.buffer, U.head, Tail(U) - U.head);
    SweepCells(U.buffer, U.head, Tail(U) - U.head);
    forall i | 0 <= i < |r.buffer| ensures r.buffer[i] == Vacant {
      var p := SlotPosition(U.cap, U.head, i);
      assert Cell(r.buffer, p) == r.buffer[i];
    }
  }

  /** Each item still in the ring is released once, each item that a leaked drain has handed out
      is released again, and nothing else is; no slot stays occupied. */
  lemma DropIsExact(w: nat, U: Queue, x: Item)
    requires QueueInv(w, U) && U.owner.None? && w > 0
    ensures var r := Sweep(U.buffer, U.head, Tail(U) - U.head);
      && multiset(r.dropped)[x] == Tally(U.buffer, x)
      && r.stale == U.moved
      && forall i :: 0 <= i < |r.buffer| ==> r.buffer[i] == Vacant
  {
    DropStale(w, U);
    DropLeavesNothing(w, U);
    SweptAll(U.buffer, U.head, Tail(U) - U.head, x);
  }

  lemma DropCount(w: nat, U: Queue)
    requires w > 0 && QueueInv(w, U)
    ensures ((U.pushCount % w - U.popCount % w) % w - U.head % w) % w == Tail(U) - U.head
  {
    LifoWrap.WordCount(U.pushCount, U.popCount, U.head, w);
    ModSmall(Tail(U) - U.head, w);
  }

  /** `Queue::drop`, on the words the code stores; `U` is the unbounded queue they stand for.
      `stale` counts the slots it released although their item was already gone. */
  method DropQueue(w: nat, pushCount: int, popCount: int, head: int, buffer: array<Slot>, ghost U: Queue)
    returns (dropped: seq<Item>, stale: nat)
    requires QueueInv(w, U) && w > 0
    requires buffer[..] == U.buffer
    requires pushCount == U.pushCount % w && popCount == U.popCount % w && head == U.head % w
    modifies buffer
    ensures Swept(buffer[..], dropped, stale) == Sweep(U.buffer, U.head, Tail(U) - U.head)
  {
    DropCount(w, U);
    var count := ((pushCount - popCount) % w - head) % w;
    assert count == Tail(U) - U.head && w % buffer.Length == 0;
    dropped, stale := SweepWords(w, buffer, head, count, U.head);
  }
}
