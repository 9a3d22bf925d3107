/** The FIFO queue as shipped: conservation of items, what the owner is promised, and
    dropping a queue. */
module FifoTheorems {
  import opened Words
  import opened Ring
  import opened FifoMachine
  import opened FifoSafety
  import opened FifoDeque
  import FifoWrap

  /** A step moves item `x` between the outside, a slot and a hand, and loses none. */
  ghost predicate Balanced(Q: Queue, pc: Agent, e: Effect, x: Item)
    requires e.On?
  {
    Tally(e.queue.buffer, x) + One(Hand(e.pc), x) + e.got[x] == Tally(Q.buffer, x) + One(Hand(pc), x) + e.put[x]
  }

  /** How many `x` an event puts into a slot, and how many it takes out of one. */
  function Gain(ev: Event, x: Item): nat {
    if ev.Fill? then One(Held(ev.item), x) else 0
  }

  function Loss(v: View, ev: Event, x: Item): nat
    requires Allowed(v, ev)
  {
    if ev.Read? then One(Held(v.hand[0]), x) else if ev.Move? then One(Held(v.loot[0]), x) else 0
  }

  lemma FillTally(w: nat, Q: Queue, Q': Queue, y: Item, x: Item)
    requires QueueInv(w, Q) && Shape(Q, Q', Fill(y))
    ensures Tally(Q'.buffer, x) == Tally(Q.buffer, x) + Gain(Fill(y), x)
  {
    FilledInv(w, Q, y);
    TallyWrite(Q.buffer, Q.tail + Q.ahead, Held(y), x);
  }

  lemma ReadTally(w: nat, Q: Queue, Q': Queue, x: Item)
    requires QueueInv(w, Q) && Shape(Q, Q', Read) && Allowed(ViewOf(Q), Read)
    ensures Tally(Q'.buffer, x) + Loss(ViewOf(Q), Read, x) == Tally(Q.buffer, x)
  {
    ReadRefines(w, Q, Q.reading.value);
    TallyWrite(Q.buffer, Q.reading.value, Vacant, x);
  }

  lemma MoveTally(w: nat, Q: Queue, Q': Queue, x: Item)
    requires QueueInv(w, Q) && Shape(Q, Q', Event.Move) && Allowed(ViewOf(Q), Event.Move)
    ensures Tally(Q'.buffer, x) + Loss(ViewOf(Q), Event.Move, x) == Tally(Q.buffer, x)
  {
    LootTail(w, Q);
    TallyWrite(Q.buffer, Q.stealer + Q.moved, Vacant, x);
  }

  lemma ShapeTally(w: nat, Q: Queue, Q': Queue, ev: Event, x: Item)
    requires QueueInv(w, Q) && Shape(Q, Q', ev) && Allowed(ViewOf(Q), ev) 
    ensures Tally(Q'.buffer, x) + Loss(ViewOf(Q), ev, x) == Tally(Q.buffer, x) + Gain(ev, x)
  {
    match ev
    case Fill(y) => FillTally(w, Q, Q', y, x);
    case Read => ReadTally(w, Q, Q', x);
    case Move => MoveTally(w, Q, Q', x);
    case _ =>
  }

  lemma FlowIn(w: nat, queues: seq<Queue>, a: nat, pc: Agent, i: Input)
    requires w > 0 && QueuesTyped(queues) && AgentTyped(|queues|, pc)
    requires Next(false, w, queues, a, pc, i).On? && (pc.PushWrite? || pc.Extend? || pc.Put?)
    ensures var e := Next(false, w, queues, a, pc, i);
      var ev := EventOf(pc, e, i);
      && !ev.Read? && !ev.Move? && e.got == multiset{} && Hand(e.pc) == Vacant
      && (if pc.Put? then ev == Fill(pc.item) && e.put == multiset{}
          else e.put == if ev.Fill? then multiset{ev.item} else multiset{})
  {
  }

  lemma NoFlow(w: nat, queues: seq<Queue>, a: nat, pc: Agent, i: Input)
    requires w > 0 && QueuesTyped(queues) && AgentTyped(|queues|, pc)
    requires Next(false, w, queues, a, pc, i).On?
    requires !pc.PushWrite? && !pc.Extend? && !pc.Put? && !pc.Take? && !pc.Pop4?
    ensures var e := Next(false, w, queues, a, pc, i);
      var ev := EventOf(pc, e, i);
      && !ev.Read? && !ev.Move? && !ev.Fill? && Hand(pc) == Vacant
      && e.put == multiset{} && e.got == multiset{} && Hand(e.pc) == Vacant
  {
  }

  lemma FlowOut(w: nat, queues: seq<Queue>, a: nat, pc: Agent, i: Input, x: Item)
    requires QueuesInv(w, queues) && QueuesTyped(queues) && AgentInv(queues, a, pc) && AgentTyped(|queues|, pc)
    requires Next(false, w, queues, a, pc, i).On? && Next(false, w, queues, a, pc, i).q < |queues|
    requires var e := Next(false, w, queues, a, pc, i); Allowed(ViewOf(queues[e.q]), EventOf(pc, e, i))
    requires pc.Take? || pc.Pop4?
    ensures var e := Next(false, w, queues, a, pc, i);
      var ev := EventOf(pc, e, i);
      e.put[x] + One(Hand(pc), x) + Loss(ViewOf(queues[e.q]), ev, x) == e.got[x] + One(Hand(e.pc), x) + Gain(ev, x)
  {
    HandsOut(w, queues, a, pc, i);
  }

  /** What a step puts into its queue comes from outside or from the agent's hand, and what it
      takes out goes there. */
  lemma Flow(w: nat, queues: seq<Queue>, a: nat, pc: Agent, i: Input, x: Item)
    requires QueuesInv(w, queues) && QueuesTyped(queues) && AgentInv(queues, a, pc) && AgentTyped(|queues|, pc)
    requires Next(false, w, queues, a, pc, i).On? && Next(false, w, queues, a, pc, i).q < |queues|
    requires var e := Next(false, w, queues, a, pc, i); Allowed(ViewOf(queues[e.q]), EventOf(pc, e, i))
    ensures var e := Next(false, w, queues, a, pc, i);
      var ev := EventOf(pc, e, i);
      e.put[x] + One(Hand(pc), x) + Loss(ViewOf(queues[e.q]), ev, x) == e.got[x] + One(Hand(e.pc), x) + Gain(ev, x)
  {
    if pc.Take? || pc.Pop4? {
      FlowOut(w, queues, a, pc, i, x);
    } else if pc.PushWrite? || pc.Extend? || pc.Put? {
      FlowIn(w, queues, a, pc, i);
    } else {
      NoFlow(w, queues, a, pc, i);
    }
  }

  lemma StepBalances(w: nat, queues: seq<Queue>, a: nat, pc: Agent, i: Input, x: Item)
    requires QueuesInv(w, queues) && QueuesTyped(queues) && AgentInv(queues, a, pc) && AgentTyped(|queues|, pc)
    requires Next(false, w, queues, a, pc, i).On?
    ensures var e := Next(false, w, queues, a, pc, i);
      e.q < |queues| && Balanced(queues[e.q], pc, e, x)
  {
    var e := Next(false, w, queues, a, pc, i);
    GoodNext(w, queues, a, pc, i);
    StepRefines(w, queues, a, pc, i);
    StepShape(w, queues, a, pc, i);
    Flow(w, queues, a, pc, i, x);
    ShapeTally(w, queues[e.q], e.queue, EventOf(pc, e, i), x);
  }

  function InSlots(queues: seq<Queue>, x: Item): (r: seq<nat>)
    ensures |r| == |queues|
  {
    seq(|queues|, q requires 0 <= q < |queues| => Tally(queues[q].buffer, x))
  }

  function InHands(agents: seq<Agent>, x: Item): (r: seq<nat>)
    ensures |r| == |agents|
  {
    seq(|agents|, a requires 0 <= a < |agents| => One(Hand(agents[a]), x))
  }

  /** How many `x` the network holds: in slots, and on their way between two queues. */
  function Stock(s: State, x: Item): nat {
    Sum(InSlots(s.queues, x)) + Sum(InHands(s.agents, x))
  }

  /** As multisets, the items pushed are the items consumed and the items in the network. */
  ghost predicate Conserved(s: State) {
    forall x: Item :: s.pushed[x] == s.consumed[x] + Stock(s, x)
  }

  lemma ApplyStock(s: State, a: nat, e: Effect, x: Item)
    requires a < |s.agents| && e.On? && e.q < |s.queues| && Balanced(s.queues[e.q], s.agents[a], e, x)
    ensures Stock(Apply(s, a, e), x) + e.got[x] == Stock(s, x) + e.put[x]
  {
    var q, Q, pc := e.q, e.queue, e.pc;
    SumUpdate(InSlots(s.queues, x), q, Tally(Q.buffer, x));
    SumUpdate(InHands(s.agents, x), a, One(Hand(pc), x));
    assert InSlots(s.queues[q := Q], x) == InSlots(s.queues, x)[q := Tally(Q.buffer, x)];
    assert InHands(s.agents[a := pc], x) == InHands(s.agents, x)[a := One(Hand(pc), x)];
  }

  lemma LocalHand(w: nat, queues: seq<Queue>, a: nat, pc: Agent, i: Input)
    requires w > 0 && QueuesTyped(queues) && AgentTyped(|queues|, pc)
    requires Next(false, w, queues, a, pc, i).Local?
    ensures Hand(Next(false, w, queues, a, pc, i).pc) == Hand(pc)
  {
  }

  lemma StepConserves(s: State, a: nat, i: Input)
    requires Inv(s) && Typed(s) && a < |s.agents| && Conserved(s)
    ensures Conserved(Step(false, s, a, i))
  {
    var e := Next(false, s.w, s.queues, a, s.agents[a], i);
    var s' := Step(false, s, a, i);
    forall x: Item ensures s'.pushed[x] == s'.consumed[x] + Stock(s', x) {
      assert s.pushed[x] == s.consumed[x] + Stock(s, x);
      if e.On? {
        StepBalances(s.w, s.queues, a, s.agents[a], i, x);
        ApplyStock(s, a, e, x);
      } else if e.Local? {
        LocalHand(s.w, s.queues, a, s.agents[a], i);
        assert InHands(s.agents[a := e.pc], x) == InHands(s.agents, x);
      }
    }
  }

  /** Over any run of pushes, pops, drains, steals between queues and steals of a queue from
      itself, no item is lost and none is duplicated. */
  lemma {:induction false} RunConserves(s: State, acts: seq<Act>)
    requires Inv(s) && Conserved(s)
    ensures Conserved(Run(false, s, acts))
    decreases |acts|
  {
    InvTyped(s);
    if acts != [] {
      var a, i := acts[0].agent, acts[0].input;
      if a < |s.agents| {
        StepKeeps(s, a, i);
        StepConserves(s, a, i);
        RunConserves(Step(false, s, a, i), acts[1..]);
      } else {
        RunConserves(s, acts[1..]);
      }
    }
  }

  /** The spare capacity an owner sees when it loads the heads. */
  function Room(Q: Queue): int { Q.cap - (Q.tail - Q.stealer) }

  /** `push` fails only when there was no room at the instant it loaded the heads, and the
      spare capacity it computes never underflows. */
  lemma PushNeedsRoom(w: nat, queues: seq<Queue>, a: nat, pc: Agent, i: Input)
    requires QueuesInv(w, queues) && QueuesTyped(queues) && AgentInv(queues, a, pc) && AgentTyped(|queues|, pc)
    requires pc.Room2? || pc.Dest2?
    ensures var e := Next(false, w, queues, a, pc, i);
      && 0 <= Room(queues[pc.q]) <= queues[pc.q].cap
      && (pc.Room2? ==>
            && 0 <= queues[pc.q].cap - (queues[pc.q].tail - pc.stealer) <= Room(queues[pc.q])
            && (pc.goal.ToPush? ==> (e.Local? && e.pc.PushWrite? <==> queues[pc.q].tail - pc.stealer < queues[pc.q].cap)))
      && (pc.Dest2? ==> e.Local? && e.pc.Book1? && e.pc.to.room == Room(queues[pc.q]))
  {
    assert QueueInv(w, queues[pc.q]);
  }

  /** A push whose loads show room goes on to write its item. */
  lemma RoomMeansPush(w: nat, queues: seq<Queue>, a: nat, pc: Agent, i: Input)
    requires QueuesInv(w, queues) && QueuesTyped(queues) && AgentInv(queues, a, pc) && AgentTyped(|queues|, pc)
    requires pc.Room2? && pc.goal.ToPush? && queues[pc.q].tail - pc.stealer < queues[pc.q].cap
    ensures Next(false, w, queues, a, pc, i) == Local(PushWrite(Reserve(pc.q, queues[pc.q].tail, pc.stealer), pc.goal.item))
  {
    PushNeedsRoom(w, queues, a, pc, i);
  }

  /** Room only shrinks by what the owner itself appends. */
  lemma RoomNeverShrinks(w: nat, Q: Queue, Q': Queue, ev: Event)
    requires QueueInv(w, Q) && QueueInv(w, Q') && Shape(Q, Q', ev)
    ensures Room(Q') >= Room(Q) - (if ev.Append? then Q.ahead else 0)
  {
  }

  /** The word size and the capacity of a queue never change. */
  lemma StepKeepsSize(s: State, a: nat, i: Input, q: nat)
    requires Inv(s) && Typed(s) && a < |s.agents| && q < |s.queues|
    ensures var s' := Step(false, s, a, i); s'.w == s.w && |s'.queues| == |s.queues| && s'.queues[q].cap == s.queues[q].cap
  {
    GoodNext(s.w, s.queues, a, s.agents[a], i);
    ApplyKeepsSize(s, a, Next(false, s.w, s.queues, a, s.agents[a], i), q);
  }

  lemma ApplyKeepsSize(s: State, a: nat, e: Effect, q: nat)
    requires a < |s.agents| && q < |s.queues| && Good(s.w, s.queues, a, s.agents[a], e)
    ensures var s' := Apply(s, a, e); s'.w == s.w && |s'.queues| == |s.queues| && s'.queues[q].cap == s.queues[q].cap
  {
  }

  lemma {:induction false} RunKeepsSize(s: State, acts: seq<Act>, q: nat)
    requires Inv(s) && q < |s.queues|
    ensures var s' := Run(false, s, acts); s'.w == s.w && |s'.queues| == |s.queues| && s'.queues[q].cap == s.queues[q].cap
    decreases |acts|
  {
    InvTyped(s);
    if acts != [] {
      var a, i := acts[0].agent, acts[0].input;
      if a < |s.agents| {
        StepKeeps(s, a, i);
        StepKeepsSize(s, a, i, q);
        RunKeepsSize(Step(false, s, a, i), acts[1..], q);
      } else {
        RunKeepsSize(s, acts[1..], q);
      }
    }
  }

  /** How many items a schedule appends to queue `q`. */
  function Appended(s: State, acts: seq<Act>, q: nat): nat
    decreases |acts|
  {
    if acts == [] || !Typed(s) || q >= |s.queues| then 0
    else if acts[0].agent < |s.agents| then
      (if QueueEvent(s, acts[0].agent, acts[0].input, q).Append? then s.queues[q].ahead else 0)
      + Appended(Step(false, s, acts[0].agent, acts[0].input), acts[1..], q)
    else Appended(s, acts[1..], q)
  }

  lemma ApplyRoom(s: State, a: nat, e: Effect, pc: Agent, i: Input, q: nat)
    requires QueuesInv(s.w, s.queues) && a < |s.agents| && q < |s.queues| && Good(s.w, s.queues, a, pc, e)
    requires e.On? && |e.queue.buffer| > 0 && |s.queues[e.q].buffer| > 0 ==> Shape(s.queues[e.q], e.queue, EventOf(pc, e, i))
    ensures var s' := Apply(s, a, e);
      && |s'.queues| == |s.queues|
      && Room(s'.queues[q]) >= Room(s.queues[q]) - (if e.On? && e.q == q && EventOf(pc, e, i).Append? then s.queues[q].ahead else 0)
  {
    if e.On? && e.q == q { RoomNeverShrinks(s.w, s.queues[q], e.queue, EventOf(pc, e, i)); }
  }

  lemma StepRoom(s: State, a: nat, i: Input, q: nat)
    requires Inv(s) && Typed(s) && a < |s.agents| && q < |s.queues|
    ensures var s' := Step(false, s, a, i);
      && |s'.queues| == |s.queues|
      && Room(s'.queues[q]) >= Room(s.queues[q]) - (if QueueEvent(s, a, i, q).Append? then s.queues[q].ahead else 0)
  {
    var pc := s.agents[a];
    GoodNext(s.w, s.queues, a, pc, i);
    var e := Next(false, s.w, s.queues, a, pc, i);
    if e.On? { StepShape(s.w, s.queues, a, pc, i); }
    ApplyRoom(s, a, e, pc, i, q);
  }

  /** The spare capacity stays available to the owner, whatever the stealers do. */
  lemma {:induction false} RoomOverRun(s: State, acts: seq<Act>, q: nat)
    requires Inv(s) && q < |s.queues|
    ensures |Run(false, s, acts).queues| == |s.queues|
    ensures Room(Run(false, s, acts).queues[q]) >= Room(s.queues[q]) - Appended(s, acts, q)
    decreases |acts|
  {
    InvTyped(s);
    if acts != [] {
      var a, i := acts[0].agent, acts[0].input;
      if a < |s.agents| {
        StepKeeps(s, a, i);
        StepRoom(s, a, i, q);
        RoomOverRun(Step(false, s, a, i), acts[1..], q);
      } else {
        RoomOverRun(s, acts[1..], q);
      }
    }
  }

  /** While its owner does not move, a queue keeps its tail and its owner stays where it is. */
  lemma OthersStep(s: State, b: nat, i: Input, a: nat, q: nat)
    requires Inv(s) && Typed(s) && b < |s.agents| && a < |s.agents| && a != b && q < |s.queues| && s.queues[q].owner == Some(a)
    ensures var s' := Step(false, s, b, i);
      && |s'.agents| == |s.agents| && s'.agents[a] == s.agents[a] && |s'.queues| == |s.queues|
      && s'.queues[q].owner == Some(a) && s'.queues[q].tail == s.queues[q].tail && s'.queues[q].cap == s.queues[q].cap
  {
    GoodNext(s.w, s.queues, b, s.agents[b], i);
    OthersApply(s, b, Next(false, s.w, s.queues, b, s.agents[b], i), a, q);
  }

  lemma OthersApply(s: State, b: nat, e: Effect, a: nat, q: nat)
    requires b < |s.agents| && a < |s.agents| && a != b && q < |s.queues| && s.queues[q].owner == Some(a)
    requires Good(s.w, s.queues, b, s.agents[b], e)
    ensures var s' := Apply(s, b, e);
      && |s'.agents| == |s.agents| && s'.agents[a] == s.agents[a] && |s'.queues| == |s.queues|
      && s'.queues[q].owner == Some(a) && s'.queues[q].tail == s.queues[q].tail && s'.queues[q].cap == s.queues[q].cap
  {
  }

  lemma {:induction false} OthersRun(s: State, acts: seq<Act>, a: nat, q: nat)
    requires Inv(s) && a < |s.agents| && q < |s.queues| && s.queues[q].owner == Some(a)
    requires forall k :: 0 <= k < |acts| ==> acts[k].agent != a
    ensures var s' := Run(false, s, acts);
      && Inv(s') && |s'.agents| == |s.agents| && s'.agents[a] == s.agents[a] && |s'.queues| == |s.queues|
      && s'.queues[q].owner == Some(a) && s'.queues[q].tail == s.queues[q].tail && s'.queues[q].cap == s.queues[q].cap
    decreases |acts|
  {
    InvTyped(s);
    if acts != [] {
      var b, i := acts[0].agent, acts[0].input;
      assert forall k :: 0 <= k < |acts[1..]| ==> acts[1..][k] == acts[k + 1];
      if b < |s.agents| {
        StepKeeps(s, b, i);
        OthersStep(s, b, i, a, q);
        OthersRun(Step(false, s, b, i), acts[1..], a, q);
      } else {
        OthersRun(s, acts[1..], a, q);
      }
    }
  }

  /** The load of the heads by a push. */
  lemma LoadsHeads(s: State, a: nat, i: Input, q: nat, x: Item)
    requires Inv(s) && Typed(s) && a < |s.agents| && s.agents[a] == Room1(q, ToPush(x))
    ensures q < |s.queues| && s.queues[q].owner == Some(a)
    ensures Step(false, s, a, i) == s.(agents := s.agents[a := Room2(q, ToPush(x), s.queues[q].stealer)])
  {
    assert AgentInv(s.queues, a, s.agents[a]);
  }

  /** So as long as fewer items are appended than there was room for, a push finds room, whatever
      the stealers do meanwhile: before it loads the heads, and between that and the load of the
      tail. The spare capacity is the number of pushes that must succeed. */
  lemma SpareIsKept(s: State, acts: seq<Act>, a: nat, i: Input, more: seq<Act>, q: nat, x: Item)
    requires Inv(s) && q < |s.queues| && Appended(s, acts, q) < Room(s.queues[q])
    requires var s' := Run(false, s, acts); a < |s'.agents| && s'.agents[a] == Room1(q, ToPush(x)) && Typed(s')
    requires forall k :: 0 <= k < |more| ==> more[k].agent != a
    ensures var s' := Run(false, s, acts);
      var s'' := Run(false, Step(false, s', a, i), more);
      && Typed(s'') && |s'.queues| == |s.queues| && |s''.agents| == |s'.agents|
      && forall j :: Next(false, s''.w, s''.queues, a, s''.agents[a], j)
           == Local(PushWrite(Reserve(q, s'.queues[q].tail, s'.queues[q].stealer), x))
  {
    var s' := Run(false, s, acts);
    RunRefines(s, acts, q);
    RoomOverRun(s, acts, q);
    LoadsHeads(s', a, i, q, x);
    StepKeeps(s', a, i);
    var s1 := Step(false, s', a, i);
    OthersRun(s1, more, a, q);
    var s'' := Run(false, s1, more);
    InvTyped(s'');
    forall j ensures Next(false, s''.w, s''.queues, a, s''.agents[a], j)
                     == Local(PushWrite(Reserve(q, s'.queues[q].tail, s'.queues[q].stealer), x)) {
      RoomMeansPush(s''.w, s''.queues, a, s''.agents[a], j);
    }
  }

  /** `extend` goes on exactly while there is room below the head it read. */
  lemma ExtendFillsRoom(w: nat, queues: seq<Queue>, a: nat, pc: Agent, x: Item)
    requires QueuesInv(w, queues) && QueuesTyped(queues) && AgentInv(queues, a, pc) && AgentTyped(|queues|, pc) && pc.Extend?
    ensures var e := Next(false, w, queues, a, pc, Give(x));
      && e.On?
      && (if pc.n < queues[pc.r.q].cap - (pc.r.tail - pc.r.head)
          then e.pc == Extend(pc.r, pc.n + 1)
          else e == Only(Idle, pc.r.q, Published(queues[pc.r.q], queues[pc.r.q].tail + pc.n)))
  {
    GoodNext(w, queues, a, pc, Give(x));
  }

  /** Once the queue is empty, no pop and no steal can claim an item until the owner appends
      some. */
  lemma {:induction false} EmptyUntilAppend(v: View, events: seq<Event>)
    requires v.fifo == [] && Replay(v, events).Some?
    requires forall k :: 0 <= k < |events| ==> !events[k].Append?
    ensures forall k :: 0 <= k < |events| ==> !events[k].PopFront? && !events[k].Book?
    ensures Replay(v, events).value.fifo == []
    decreases |events|
  {
    if events != [] {
      EmptyUntilAppend(Advance(v, events[0]), events[1..]);
      forall k | 0 <= k < |events| ensures !events[k].PopFront? && !events[k].Book? {
        if k > 0 { assert events[k] == events[1..][k - 1]; }
      }
    }
  }

  lemma WrapHand(w: nat, pc: Agent)
    requires w > 0
    ensures Hand(FifoWrap.WrapAgent(w, pc)) == Hand(pc)
  {
  }

  lemma WrapConserved(s: State)
    requires s.w > 0 && Conserved(s)
    ensures Conserved(FifoWrap.Wrap(s))
  {
    var c := FifoWrap.Wrap(s);
    forall x: Item ensures c.pushed[x] == c.consumed[x] + Stock(c, x) {
      forall a | 0 <= a < |s.agents| ensures One(Hand(c.agents[a]), x) == One(Hand(s.agents[a]), x) {
        WrapHand(s.w, s.agents[a]);
      }
      assert InHands(c.agents, x) == InHands(s.agents, x);
      assert InSlots(c.queues, x) == InSlots(s.queues, x);
      assert s.pushed[x] == s.consumed[x] + Stock(s, x);
    }
  }

  lemma InitConserved(w: nat, caps: seq<nat>, n: nat)
    requires w > 0
    ensures Conserved(Init(w, caps, n))
  {
    var s := Init(w, caps, n);
    forall x: Item ensures Stock(s, x) == 0 {
      forall q | 0 <= q < |s.queues| ensures InSlots(s.queues, x)[q] == 0 { TallyVacant(s.queues[q].buffer, x); }
      SumZero(InSlots(s.queues, x));
      SumZero(InHands(s.agents, x));
    }
  }

  lemma InitWraps(w: nat, caps: seq<nat>, n: nat)
    requires w > 0
    ensures FifoWrap.Wrap(Init(w, caps, n)) == Init(w, caps, n)
  {
    var s := Init(w, caps, n);
    ModSmall(0, w);
    assert FifoWrap.Wrap(s).queues == s.queues;
    assert FifoWrap.Wrap(s).agents == s.agents;
  }

  /** The shipped queue: under every schedule in which no booking call is overtaken by a whole
      round of words, it is the image of a run of the unbounded queue, makes no bad access, and
      conserves items. */
  lemma ShippedRun(w: nat, caps: seq<nat>, n: nat, acts: seq<Act>)
    requires w > 0 && ValidSizes(w, caps)
    requires FifoWrap.BoundedRun(Init(w, caps, n), FifoWrap.Followed(Init(w, caps, n), acts))
    ensures var c := Run(true, Init(w, caps, n), acts);
      var s := Run(false, Init(w, caps, n), FifoWrap.Followed(Init(w, caps, n), acts));
      s.w > 0 && c == FifoWrap.Wrap(s) && Inv(s) && !c.fault && Conserved(c)
  {
    var s0 := Init(w, caps, n);
    InitInv(w, caps, n);
    InitConserved(w, caps, n);
    InitWraps(w, caps, n);
    FifoWrap.WrapRun(s0, acts);
    RunConserves(s0, FifoWrap.Followed(s0, acts));
    WrapConserved(Run(false, s0, FifoWrap.Followed(s0, acts)));
  }

  /** Words and slots that show the queue `d`: its length, and its items in order. */
  ghost predicate ShowsQueue(w: nat, C: Queue, d: seq<Item>)
    requires w > 0 && |C.buffer| > 0
  {
    && |d| == (C.tail - C.worker) % w
    && forall k :: 0 <= k < |d| ==> Cell(C.buffer, (C.worker + k) % w) == Held(d[k])
  }

  lemma WordsShowQueue(w: nat, U: Queue)
    requires w > 0 && QueueInv(w, U)
    ensures ShowsQueue(w, FifoWrap.WrapQueue(w, U), ViewOf(U).fifo)
  {
    FifoWrap.SameDistance(U.tail, U.worker, w);
    forall k | 0 <= k < |ViewOf(U).fifo| ensures Cell(U.buffer, (U.worker % w + k) % w) == Held(ViewOf(U).fifo[k]) {
      ModAdd(U.worker, k, w);
      CellWord(U.buffer, U.worker + k, w);
      assert Live(U, U.worker + k);
      assert Cell(U.buffer, U.worker + k).Held?;
    }
  }

  /** The shipped queue is the bounded queue with one open steal: under every such schedule its
      moves replay on the queue from empty, and its words and slots show the queue they lead to. */
  lemma ShippedRefines(w: nat, caps: seq<nat>, n: nat, acts: seq<Act>, q: nat)
    requires w > 0 && ValidSizes(w, caps) && q < |caps|
    requires FifoWrap.BoundedRun(Init(w, caps, n), FifoWrap.Followed(Init(w, caps, n), acts))
    ensures var c := Run(true, Init(w, caps, n), acts);
      var moves := Events(Init(w, caps, n), FifoWrap.Followed(Init(w, caps, n), acts), q);
      && |c.queues| == |caps| && |c.queues[q].buffer| == caps[q] > 0
      && Replay(View([], [], [], []), moves).Some?
      && ShowsQueue(w, c.queues[q], Replay(View([], [], [], []), moves).value.fifo)
  {
    var s0 := Init(w, caps, n);
    var f := FifoWrap.Followed(s0, acts);
    InitInv(w, caps, n);
    SizeFacts(w, caps, q);
    assert ViewOf(s0.queues[q]) == View([], [], [], []);
    ShippedRun(w, caps, n, acts);
    RunRefines(s0, f, q);
    RunKeepsSize(s0, f, q);
    assert QueueInv(w, Run(false, s0, f).queues[q]);
    WordsShowQueue(w, Run(false, s0, f).queues[q]);
  }

  /** A slot that still holds an item after the sweep held loot of an open steal. */
  lemma SweptLoot(w: nat, U: Queue, i: nat)
    requires QueueInv(w, U) && U.owner.None? && i < U.cap
    ensures var r := Sweep(U.buffer, U.worker, U.tail - U.worker);
      r.buffer[i].Held? ==> U.thief.Some? && U.stealer + U.moved < U.until
  {
    var r := Sweep(U.buffer, U.worker, U.tail - U.worker);
    SweepCells(U.buffer, U.worker, U.tail - U.worker);
    var p := SlotPosition(U.cap, U.worker, i);
    assert Cell(r.buffer, p) == r.buffer[i];
    if p >= U.stealer + U.cap {
      CellAlias(U.buffer, p - U.cap);
      assert Cell(U.buffer, p - U.cap).Held? <==> Live(U, p - U.cap);
    }
  }

  lemma LootStays(w: nat, U: Queue)
    requires QueueInv(w, U) && U.owner.None? && U.thief.Some? && U.stealer + U.moved < U.until
    ensures Cell(Sweep(U.buffer, U.worker, U.tail - U.worker).buffer, U.stealer + U.moved).Held?
  {
    var p := U.stealer + U.moved;
    var r := Sweep(U.buffer, U.worker, U.tail - U.worker);
    SweepCells(U.buffer, U.worker, U.tail - U.worker);
    assert Live(U, p);
    CellAlias(U.buffer, p);
    CellAlias(r.buffer, p);
    assert p + U.cap >= U.tail;
  }

  /** Dropping a queue that no owner is using reads only slots that hold an item, and releases
      exactly the items of the queue, oldest first. */
  lemma DropIsExact(w: nat, U: Queue, x: Item)
    requires QueueInv(w, U) && U.owner.None? && w > 0
    ensures var r := Sweep(U.buffer, U.worker, U.tail - U.worker);
      && r.stale == 0
      && r.dropped == ViewOf(U).fifo
      && multiset(r.dropped)[x] + Tally(r.buffer, x) == Tally(U.buffer, x)
  {
    var k := U.tail - U.worker;
    forall p | U.worker <= p < U.worker + k ensures Cell(U.buffer, p).Held? { assert Live(U, p); }
    SweepStale(U.buffer, U.worker, k, 0);
    SweepTally(U.buffer, U.worker, k, x);
  }

  /** It leaves nothing behind exactly when no leaked drain still had items to move out; those
      are neither read nor released. */
  lemma DropIsComplete(w: nat, U: Queue)
    requires QueueInv(w, U) && U.owner.None? && w > 0
    ensures var r := Sweep(U.buffer, U.worker, U.tail - U.worker);
      (forall i :: 0 <= i < |r.buffer| ==> r.buffer[i] == Vacant) <==> ViewOf(U).loot == []
  {
    var r := Sweep(U.buffer, U.worker, U.tail - U.worker);
    if ViewOf(U).loot == [] {
      forall i | 0 <= i < |r.buffer| ensures r.buffer[i] == Vacant { SweptLoot(w, U, i); }
    } else {
      LootStays(w, U);
    }
  }

  lemma DropCount(w: nat, U: Queue)
    requires w > 0 && QueueInv(w, U) && U.owner.None?
    ensures (U.tail % w - U.worker % w) % w == U.tail - U.worker
  {
    FifoWrap.SameDistance(U.tail, U.worker, w);
  }

  /** `Queue::drop`, on the words the code stores; `U` is the unbounded queue they stand for.
      `stale` counts the slots it released although their item was already gone. */
  method DropQueue(w: nat, tail: int, worker: int, buffer: array<Slot>, ghost U: Queue)
    returns (dropped: seq<Item>, stale: nat)
    requires QueueInv(w, U) && w > 0 && U.owner.None?
    requires buffer[..] == U.buffer
    requires tail == U.tail % w && worker == U.worker % w
    modifies buffer
    ensures Swept(buffer[..], dropped, stale) == Sweep(U.buffer, U.worker, U.tail - U.worker)
  {
    var count := (tail - worker) % w;
    DropCount(w, U);
    dropped, stale := SweepWords(w, buffer, worker, count, U.worker);
  }
}
