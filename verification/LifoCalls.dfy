/** What the calls on the LIFO queue do from start to end: they stay what was asked for, take as
    much as they may, deliver in order, and end when nobody disturbs them. */
module LifoCalls {
  import opened Words
  import opened Ring
  import opened LifoMachine
  import opened LifoSafety
  import opened LifoDeque
  import opened LifoTheorems
  import LifoWrap

  /** What a call was asked to do. The last two forget what has become irrelevant. */
  datatype Call =
    | NoCall
    | Push(q: nat, item: Item)
    | Store(q: nat)
    | ExtendTo(q: nat)
    | Measure(q: nat)
    | StealTo(src: nat, dst: nat, keepLast: bool)
    | DrainFrom(src: nat)
    | PopFrom(q: nat)

  function GoalOf(q: nat, goal: Goal): Call {
    match goal
    case ToPush(x) => Push(q, x)
    case ToExtend => ExtendTo(q)
    case ToMeasure => Measure(q)
    case ToSteal(src, keep) => StealTo(src, q, keep)
  }

  function SinkOf(src: nat, to: Sink): Call {
    match to
    case Consumer => DrainFrom(src)
    case Into(r, _, keep) => StealTo(src, r.q, keep)
  }

  function CallOf(pc: Agent): Call {
    match pc
    case Idle => NoCall
    case Tail1(q, goal) => GoalOf(q, goal)
    case Tail2(q, goal, _) => GoalOf(q, goal)
    case Tail3(q, goal, _, _, _) => GoalOf(q, goal)
    case PushWrite(r, x) => Push(r.q, x)
    case PushStore(r) => Store(r.q)
    case Extend(r, _) => ExtendTo(r.q)
    case Book1(src, to) => SinkOf(src, to)
    case Book2(src, to, _, _, _) => SinkOf(src, to)
    case Book3(src, to, _, _, _, _) => SinkOf(src, to)
    case Book4(src, to, _, _, _, _, _) => SinkOf(src, to)
    case Take(m, _) => SinkOf(m.src, m.to)
    case Put(m, _, _) => SinkOf(m.src, m.to)
    case Publish(m) => SinkOf(m.src, m.to)
    case Release(m) => SinkOf(m.src, m.to)
    case Pop1(q) => PopFrom(q)
    case Pop2(q, _, _) => PopFrom(q)
    case Pop3(q, _, _, _, _) => PopFrom(q)
    case Pop4(q, _) => PopFrom(q)
  }

  function Started(i: Input): Call {
    match i
    case StartPush(q, x) => Push(q, x)
    case StartExtend(q) => ExtendTo(q)
    case StartMeasure(q) => Measure(q)
    case StartSteal(src, dst, keep) => StealTo(src, dst, keep)
    case StartDrain(src) => DrainFrom(src)
    case StartPop(q) => PopFrom(q)
    case _ => NoCall
  }

  /** The queue whose owner a call must be. */
  function OwnerOf(c: Call): Option<nat> {
    match c
    case NoCall => None
    case DrainFrom(_) => None
    case StealTo(_, dst, _) => Some(dst)
    case _ => Some(c.q)
  }

  /** A call starts as what was asked for, unless the owner side is taken or a queue is missing. */
  lemma StartsAsAsked(wrap: bool, w: nat, queues: seq<Queue>, a: nat, i: Input)
    requires w > 0 && QueuesTyped(queues)
    ensures var e, c := Next(wrap, w, queues, a, Idle, i), Started(i);
      var free := && (c.StealTo? || c.DrainFrom? ==> c.src < |queues|)
                  && (OwnerOf(c).Some? ==> OwnerOf(c).value < |queues| && queues[OwnerOf(c).value].owner.None?);
      if c == NoCall || !free then e == Stay else (e.Local? || e.On?) && CallOf(e.pc) == c
  {
  }

  predicate IsMove(pc: Agent) {
    pc.Take? || pc.Put? || pc.Publish? || pc.Release?
  }

  predicate IsBooking(pc: Agent) {
    pc.Book1? || pc.Book2? || pc.Book3? || pc.Book4?
  }

  /** The call goes on as it is, or ends; a push that has written its item is left with the store. */
  predicate Stays(pc: Agent, e: Effect) {
    && e != Stay
    && (e.Local? || e.On? ==>
          e.pc.Idle? || CallOf(e.pc) == CallOf(pc) || (pc.PushWrite? && CallOf(e.pc) == Store(pc.r.q) && e.On? && e.put == multiset{pc.item}))
  }

  lemma TakeStays(wrap: bool, w: nat, queues: seq<Queue>, a: nat, pc: Agent, i: Input)
    requires w > 0 && QueuesTyped(queues) && AgentTyped(|queues|, pc) && pc.Take?
    ensures Stays(pc, Next(wrap, w, queues, a, pc, i))
  {
  }

  lemma MoveStays(wrap: bool, w: nat, queues: seq<Queue>, a: nat, pc: Agent, i: Input)
    requires w > 0 && QueuesTyped(queues) && AgentTyped(|queues|, pc) && IsMove(pc) && !pc.Take?
    ensures Stays(pc, Next(wrap, w, queues, a, pc, i))
  {
  }

  lemma BookingStays(wrap: bool, w: nat, queues: seq<Queue>, a: nat, pc: Agent, i: Input)
    requires w > 0 && QueuesTyped(queues) && AgentTyped(|queues|, pc) && IsBooking(pc)
    ensures Stays(pc, Next(wrap, w, queues, a, pc, i))
  {
  }

  predicate IsWrite(pc: Agent) {
    pc.PushWrite? || pc.PushStore? || pc.Extend? || pc.Pop3? || pc.Pop4?
  }

  lemma WriteStays(wrap: bool, w: nat, queues: seq<Queue>, a: nat, pc: Agent, i: Input)
    requires w > 0 && QueuesTyped(queues) && AgentTyped(|queues|, pc) && IsWrite(pc)
    ensures Stays(pc, Next(wrap, w, queues, a, pc, i))
  {
  }

  lemma OwnerStays(wrap: bool, w: nat, queues: seq<Queue>, a: nat, pc: Agent, i: Input)
    requires w > 0 && QueuesTyped(queues) && AgentTyped(|queues|, pc) && !pc.Idle? && !IsMove(pc) && !IsBooking(pc) && !IsWrite(pc)
    ensures Stays(pc, Next(wrap, w, queues, a, pc, i))
  {
  }

  /** And stays that until it ends. */
  lemma StaysAsAsked(wrap: bool, w: nat, queues: seq<Queue>, a: nat, pc: Agent, i: Input)
    requires w > 0 && QueuesTyped(queues) && AgentTyped(|queues|, pc) && !pc.Idle?
    ensures Stays(pc, Next(wrap, w, queues, a, pc, i))
  {
    if pc.Take? {
      TakeStays(wrap, w, queues, a, pc, i);
    } else if IsMove(pc) {
      MoveStays(wrap, w, queues, a, pc, i);
    } else if IsBooking(pc) {
      BookingStays(wrap, w, queues, a, pc, i);
    } else if IsWrite(pc) {
      WriteStays(wrap, w, queues, a, pc, i);
    } else {
      OwnerStays(wrap, w, queues, a, pc, i);
    }
  }

  /** How much of a booking goes into the destination. */
  function Moved(to: Sink, count: int): int {
    if to.Into? && to.keepLast then count - 1 else count
  }

  lemma RoundTakesMost(w: nat, queues: seq<Queue>, want: nat, src: nat, to: Sink, t: Stamp, pop: int, head: int, n: int)
    requires w > 1 && SinkTyped(|queues|, to) && (to.Into? ==> to.room >= 0) && 0 <= n < w
    ensures var e := Round(w, queues, Want(want), src, to, t, pop, head, head, n);
      if want == 0 || n == 0 || (to.Into? && !to.keepLast && to.room == 0) then e.On? || e.Local? ==> e.pc.Idle?
      else
        && e.Local? && e.pc.Book4?
        && var c := e.pc.count;
           && e.pc == Book4(src, to, t, pop, head, head, c)
           && 1 <= c <= want && c <= n && (to.Into? ==> Moved(to, c) <= to.room)
           && (c == want || c == n || (to.Into? && Moved(to, c) == to.room))
  {
  }

  /** On words, for every round whose heads agree: it books as many items as are wanted, shown by
      the words, and fit; a full destination does not keep `steal_and_pop` from taking one. It
      gives up only if no item is shown, none is wanted, or none fits. */
  lemma BooksMost(w: nat, queues: seq<Queue>, a: nat, pc: Agent, want: nat)
    requires w > 1 && QueuesInv(w, queues) && QueuesTyped(queues) && AgentInv(queues, a, pc) && AgentTyped(|queues|, pc)
    requires pc.Book3? && pc.seen % w == pc.head % w
    requires QueuesTyped(LifoWrap.WrapQueues(w, queues)) && AgentTyped(|queues|, LifoWrap.WrapAgent(w, pc))
    ensures var e := Next(true, w, LifoWrap.WrapQueues(w, queues), a, LifoWrap.WrapAgent(w, pc), Want(want));
      var n := (queues[pc.src].pushCount - pc.pop - pc.head) % w;
      if want == 0 || n == 0 || (pc.to.Into? && !pc.to.keepLast && pc.to.room == 0) then e.On? || e.Local? ==> e.pc.Idle?
      else
        && e.Local? && e.pc.Book4?
        && var c := e.pc.count;
           && 1 <= c <= want && c <= n && (pc.to.Into? ==> Moved(pc.to, c) <= pc.to.room)
           && (c == want || c == n || (pc.to.Into? && Moved(pc.to, c) == pc.to.room))
  {
    var c := LifoWrap.WrapQueues(w, queues);
    var n := (queues[pc.src].pushCount - pc.pop - pc.head) % w;
    var p := LifoWrap.WrapAgent(w, pc);
    RoomIsThere(w, queues, a, pc);
    LifoWrap.WordCount(queues[pc.src].pushCount, pc.pop, pc.head, w);
    LifoWrap.SizeIsRound(w, c, Want(want), pc.src, p.to, p.since, queues[pc.src].pushCount % w, pc.pop % w, pc.head % w, pc.seen % w, n);
    RoundTakesMost(w, c, want, pc.src, p.to, p.since, pc.pop % w, pc.head % w, n);
  }

  lemma RoomIsThere(w: nat, queues: seq<Queue>, a: nat, pc: Agent)
    requires QueuesInv(w, queues) && AgentInv(queues, a, pc) && pc.Book3?
    ensures pc.to.Into? ==> pc.to.room >= 0
  {
  }

  /** The loot still to be moved, and the items above the tail, keep as they are while the marks
      that stand for them do. */
  lemma PartsStay(v: View, ev: Event)
    requires Allowed(v, ev)
    ensures var v' := Advance(v, ev);
      && (|v'.loot| == |v.loot| ==> v'.loot == v.loot)
      && (|v'.above| == |v.above| ==> v'.above == v.above)
  {
  }

  lemma Lengths(w: nat, Q: Queue)
    requires QueueInv(w, Q)
    ensures |ViewOf(Q).above| == Q.ahead && |ViewOf(Q).loot| == Q.booked - Q.head - Q.moved
  {
  }

  lemma OthersSpare(s: State, b: nat, i: Input, a: nat, q: nat)
    requires Inv(s) && Typed(s) && b < |s.agents| && a != b && q < |s.queues|
    ensures var s' := Step(false, s, b, i);
      && |s'.queues| == |s.queues| && |s'.queues[q].buffer| > 0 && |s.queues[q].buffer| > 0
      && (s.queues[q].thief == Some(a) ==> ViewOf(s'.queues[q]).loot == ViewOf(s.queues[q]).loot)
      && (s.queues[q].owner == Some(a) ==> ViewOf(s'.queues[q]).above == ViewOf(s.queues[q]).above)
  {
    QueueRefines(s, b, i, q);
    QueueMarks(s, b, i, q);
    var Q, Q' := s.queues[q], Step(false, s, b, i).queues[q];
    PartsStay(ViewOf(Q), QueueEvent(s, b, i, q));
    Lengths(s.w, Q);
    Lengths(s.w, Q');
  }

  lemma QueueMarks(s: State, b: nat, i: Input, q: nat)
    requires Inv(s) && Typed(s) && b < |s.agents| && q < |s.queues|
    ensures var s' := Step(false, s, b, i);
      |s'.queues| == |s.queues| && QueueInv(s.w, s'.queues[q]) && QueueInv(s.w, s.queues[q]) && Evolves(s.queues[q], s'.queues[q], b)
  {
    GoodNext(s.w, s.queues, b, s.agents[b], i);
    ApplyMarks(s, b, Next(false, s.w, s.queues, b, s.agents[b], i), q);
  }

  lemma ApplyMarks(s: State, b: nat, e: Effect, q: nat)
    requires b < |s.agents| && q < |s.queues| && QueuesInv(s.w, s.queues) && Good(s.w, s.queues, b, s.agents[b], e)
    ensures var s' := Apply(s, b, e);
      |s'.queues| == |s.queues| && QueueInv(s.w, s'.queues[q]) && QueueInv(s.w, s.queues[q]) && Evolves(s.queues[q], s'.queues[q], b)
  {
  }

  /** The booked items `L` on their way: some above the tail of the destination, one in the hand of
      the thief, some in the source, and `G` handed out. */
  ghost predicate OnWay(queues: seq<Queue>, pc: Agent, m0: Move, L: seq<Item>, G: multiset<Item>)
    requires QueuesTyped(queues) && AgentTyped(|queues|, pc)
  {
    match pc
    case Take(m, k) =>
      && m == m0 && k < |L| == m.count && ViewOf(queues[m.src]).loot == L[k..]
      && (if m.to.Into? then ViewOf(queues[m.to.r.q]).above == L[..k] && G == multiset{} else G == multiset(L[..k]))
    case Put(m, k, x) =>
      && m == m0 && k < |L| == m.count && ViewOf(queues[m.src]).loot == L[k + 1..]
      && x == L[k] && ViewOf(queues[m.to.r.q]).above == L[..k] && G == multiset{}
    case Publish(m) =>
      && m == m0 && |L| == m.count >= 1
      && ViewOf(queues[m.to.r.q]).above == L[..Moved(m.to, |L|)] && G == multiset(L[Moved(m.to, |L|)..])
    case Release(m) => m == m0 && m.to.Consumer? && G == multiset(L)
    case _ => false
  }

  /** What a step hands out. */
  function Got(e: Effect): multiset<Item> {
    if e.On? then e.got else multiset{}
  }

  /** Taking the next item. */
  lemma TakenOnWay(w: nat, queues: seq<Queue>, a: nat, m: Move, k: nat, L: seq<Item>, G: multiset<Item>)
    requires QueuesInv(w, queues) && QueuesTyped(queues) && AgentInv(queues, a, Take(m, k)) && AgentTyped(|queues|, Take(m, k))
    requires OnWay(queues, Take(m, k), m, L, G)
    ensures var queues', x := queues[m.src := Looted(queues[m.src])], L[k];
      && Cell(queues[m.src].buffer, m.from + k) == Held(x)
      && QueuesTyped(queues') && AgentTyped(|queues'|, AfterTake(m, k, x))
      && OnWay(queues', AfterTake(m, k, x), m, L, G + if m.to.Into? && k < Transfer(m) then multiset{} else multiset{x})
  {
    var Q, x := queues[m.src], L[k];
    LootRefines(w, Q);
    assert L[k..][1..] == L[k + 1..] && L[k..][0] == x;
    assert L[..k] + [x] == L[..k + 1];
    assert multiset(L[..k + 1]) == multiset(L[..k]) + multiset{x};
    if k + 1 == |L| { assert L[..k + 1] == L && L[k..] == [x]; }
  }

  /** Putting it above the tail of the destination. */
  function AfterPut(m: Move, k: nat): Agent {
    if k + 1 < m.count then Take(m, k + 1) else Publish(m)
  }

  lemma PutOnWay(w: nat, queues: seq<Queue>, a: nat, m: Move, k: nat, x: Item, L: seq<Item>, G: multiset<Item>)
    requires QueuesInv(w, queues) && QueuesTyped(queues) && AgentInv(queues, a, Put(m, k, x)) && AgentTyped(|queues|, Put(m, k, x))
    requires OnWay(queues, Put(m, k, x), m, L, G)
    ensures var queues' := queues[m.to.r.q := Filled(queues[m.to.r.q], x)];
      && QueuesTyped(queues') && AgentTyped(|queues'|, AfterPut(m, k))
      && OnWay(queues', AfterPut(m, k), m, L, G)
  {
    FillRefines(w, queues[m.to.r.q], x);
    assert L[..k] + [x] == L[..k + 1];
    if k + 1 == |L| { assert L[..k + 1] == L; }
  }

  lemma PutIs(w: nat, queues: seq<Queue>, a: nat, m: Move, k: nat, x: Item)
    requires QueuesInv(w, queues) && QueuesTyped(queues) && AgentInv(queues, a, Put(m, k, x)) && AgentTyped(|queues|, Put(m, k, x))
    ensures var Q := queues[m.to.r.q];
      StepPut(false, w, Q, m, k, x) == On(AfterPut(m, k), m.to.r.q, Filled(Q, x), multiset{}, multiset{})
  {
    FilledInv(w, queues[m.to.r.q], x);
  }

  /** A move is under way, with items yet to be taken or put. */
  predicate Carrying(s: State, a: nat) {
    Typed(s) && a < |s.agents| && (s.agents[a].Take? || s.agents[a].Put?)
  }

  lemma TypedApply(s: State, a: nat, e: Effect)
    requires Typed(s) && a < |s.agents| && Inv(s) && Good(s.w, s.queues, a, s.agents[a], e)
    ensures Typed(Apply(s, a, e))
  {
    ApplyKeeps(s, a, e);
    InvTyped(Apply(s, a, e));
  }

  lemma OwnTake(s: State, a: nat, i: Input, m: Move, L: seq<Item>, G: multiset<Item>)
    requires Inv(s) && Carrying(s, a) && s.agents[a].Take? && OnWay(s.queues, s.agents[a], m, L, G)
    ensures var e := Next(false, s.w, s.queues, a, s.agents[a], i);
      && e.On? && e.q < |s.queues| && QueuesTyped(s.queues[e.q := e.queue]) && AgentTyped(|s.queues|, e.pc)
      && OnWay(s.queues[e.q := e.queue], e.pc, m, L, G + e.got)
  {
    TakenOnWay(s.w, s.queues, a, m, s.agents[a].k, L, G);
    TakeIs(s.w, s.queues[m.src], m, s.agents[a].k);
  }

  lemma OwnPut(s: State, a: nat, i: Input, m: Move, L: seq<Item>, G: multiset<Item>)
    requires Inv(s) && Carrying(s, a) && s.agents[a].Put? && OnWay(s.queues, s.agents[a], m, L, G)
    ensures var e := Next(false, s.w, s.queues, a, s.agents[a], i);
      && e.On? && e.q < |s.queues| && QueuesTyped(s.queues[e.q := e.queue]) && AgentTyped(|s.queues|, e.pc)
      && OnWay(s.queues[e.q := e.queue], e.pc, m, L, G + e.got)
  {
    PutOnWay(s.w, s.queues, a, m, s.agents[a].k, s.agents[a].item, L, G);
    PutIs(s.w, s.queues, a, m, s.agents[a].k, s.agents[a].item);
    assert G + multiset{} == G;
  }

  lemma ApplyOnWay(s: State, a: nat, e: Effect, m: Move, L: seq<Item>, G: multiset<Item>)
    requires Typed(s) && a < |s.agents| && Typed(Apply(s, a, e)) && e.On? && e.q < |s.queues|
    requires QueuesTyped(s.queues[e.q := e.queue]) && AgentTyped(|s.queues|, e.pc) && OnWay(s.queues[e.q := e.queue], e.pc, m, L, G)
    ensures var s' := Apply(s, a, e); a < |s'.agents| && OnWay(s'.queues, s'.agents[a], m, L, G)
  {
  }

  lemma OwnOnWay(s: State, a: nat, i: Input, m: Move, L: seq<Item>, G: multiset<Item>)
    requires Inv(s) && Carrying(s, a) && OnWay(s.queues, s.agents[a], m, L, G)
    ensures var s' := Step(false, s, a, i);
      Typed(s') && a < |s'.agents| && OnWay(s'.queues, s'.agents[a], m, L, G + Got(Next(false, s.w, s.queues, a, s.agents[a], i)))
  {
    var e := Next(false, s.w, s.queues, a, s.agents[a], i);
    StepKeeps(s, a, i);
    InvTyped(Step(false, s, a, i));
    if s.agents[a].Take? { OwnTake(s, a, i, m, L, G); } else { OwnPut(s, a, i, m, L, G); }
    ApplyOnWay(s, a, e, m, L, G + e.got);
  }

  lemma OthersOnWay(s: State, b: nat, i: Input, a: nat, m: Move, L: seq<Item>, G: multiset<Item>)
    requires Inv(s) && Carrying(s, a) && b < |s.agents| && a != b && OnWay(s.queues, s.agents[a], m, L, G)
    ensures var s' := Step(false, s, b, i);
      Typed(s') && a < |s'.agents| && s'.agents[a] == s.agents[a] && OnWay(s'.queues, s'.agents[a], m, L, G)
  {
    var pc := s.agents[a];
    GoodNext(s.w, s.queues, b, s.agents[b], i);
    TypedApply(s, b, Next(false, s.w, s.queues, b, s.agents[b], i));
    assert AgentInv(s.queues, a, pc);
    OthersSpare(s, b, i, a, pc.m.src);
    if pc.m.to.Into? { OthersSpare(s, b, i, a, pc.m.to.r.q); }
  }

  /** What agent `a` hands out along a schedule. */
  function GotBy(s: State, acts: seq<Act>, a: nat): multiset<Item>
    decreases |acts|
  {
    if acts == [] || !Typed(s) then multiset{}
    else if acts[0].agent < |s.agents| then
      (if acts[0].agent == a then Got(Next(false, s.w, s.queues, a, s.agents[a], acts[0].input)) else multiset{})
      + GotBy(Step(false, s, acts[0].agent, acts[0].input), acts[1..], a)
    else GotBy(s, acts[1..], a)
  }

  /** The move of `a` is under way at every state of the schedule but the last. */
  predicate CarriesOn(s: State, acts: seq<Act>, a: nat)
    decreases |acts|
  {
    acts == [] || (Carrying(s, a) &&
      (if acts[0].agent < |s.agents| then CarriesOn(Step(false, s, acts[0].agent, acts[0].input), acts[1..], a)
       else CarriesOn(s, acts[1..], a)))
  }

  lemma {:induction false} MovesInOrder(s: State, acts: seq<Act>, a: nat, m: Move, L: seq<Item>, G: multiset<Item>)
    requires Inv(s) && Typed(s) && a < |s.agents| && OnWay(s.queues, s.agents[a], m, L, G) && CarriesOn(s, acts, a)
    ensures var s' := Run(false, s, acts);
      Inv(s') && Typed(s') && a < |s'.agents| && OnWay(s'.queues, s'.agents[a], m, L, G + GotBy(s, acts, a))
    decreases |acts|
  {
    if acts == [] {
      assert G + multiset{} == G;
    } else {
      var b, i := acts[0].agent, acts[0].input;
      if b < |s.agents| {
        var got := if b == a then Got(Next(false, s.w, s.queues, a, s.agents[a], i)) else multiset{};
        StepKeeps(s, b, i);
        if b == a { OwnOnWay(s, a, i, m, L, G); } else { OthersOnWay(s, b, i, a, m, L, G); }
        assert G + multiset{} == G;
        MovesInOrder(Step(false, s, b, i), acts[1..], a, m, L, G + got);
        assert (G + got) + GotBy(Step(false, s, b, i), acts[1..], a) == G + GotBy(s, acts, a);
      } else {
        MovesInOrder(s, acts[1..], a, m, L, G);
      }
    }
  }

  /** A booking takes the front of the deque. */
  lemma BooksFront(w: nat, queues: seq<Queue>, a: nat, pc: Agent)
    requires QueuesInv(w, queues) && QueuesTyped(queues) && AgentInv(queues, a, pc) && AgentTyped(|queues|, pc) && pc.Book4?
    requires queues[pc.src].popCount == pc.pop && queues[pc.src].booked == pc.head
    ensures var d := ViewOf(queues[pc.src]).deque;
      var m := Move(pc.src, pc.to, pc.head, pc.count, pc.head + pc.count);
      var queues' := queues[pc.src := Booked(queues[pc.src], a, pc.count)];
      && 1 <= pc.count <= |d| && QueuesTyped(queues') && AgentTyped(|queues'|, Take(m, 0))
      && OnWay(queues', Take(m, 0), m, d[..pc.count], multiset{})
  {
    GoodBooked(w, queues, a, pc);
    BookRefines(w, queues[pc.src], a, pc.count);
    var d := ViewOf(queues[pc.src]).deque;
    BookedApart(w, queues, a, pc);
    assert d[..pc.count][0..] == d[..pc.count] && d[..pc.count][..0] == [];
  }

  lemma BookedApart(w: nat, queues: seq<Queue>, a: nat, pc: Agent)
    requires QueuesInv(w, queues) && AgentInv(queues, a, pc) && pc.Book4? && QueuesTyped(queues)
    ensures pc.to.Into? ==> pc.to.r.q < |queues| && ViewOf(queues[pc.to.r.q]).above == []
    ensures pc.to.Into? && pc.src < |queues| ==> ViewOf(Booked(queues[pc.src], a, pc.count)).above == ViewOf(queues[pc.src]).above
  {
    if pc.to.Into? { Lengths(w, queues[pc.to.r.q]); }
  }

  lemma BookingOnWay(s: State, a: nat, i: Input, pc: Agent, m: Move)
    requires Inv(s) && Typed(s) && a < |s.agents| && s.agents[a] == pc && pc.Book4?
    requires m == Move(pc.src, pc.to, pc.head, pc.count, pc.head + pc.count)
    requires var s1 := Step(false, s, a, i); a < |s1.agents| && s1.agents[a].Take?
    ensures var d, s1 := ViewOf(s.queues[pc.src]).deque, Step(false, s, a, i);
      && 1 <= pc.count <= |d| && Inv(s1) && Typed(s1) && OnWay(s1.queues, s1.agents[a], m, d[..pc.count], multiset{})
  {
    assert AgentInv(s.queues, a, pc);
    StepKeeps(s, a, i);
    InvTyped(Step(false, s, a, i));
    BookIs(s.w, s.queues[pc.src], a, i, pc);
    BooksFront(s.w, s.queues, a, pc);
    ApplyOnWay(s, a, Next(false, s.w, s.queues, a, pc, i), m, ViewOf(s.queues[pc.src]).deque[..pc.count], multiset{});
  }

  lemma Delivered(queues: seq<Queue>, pc: Agent, m: Move, d: seq<Item>, G: multiset<Item>)
    requires QueuesTyped(queues) && AgentTyped(|queues|, pc) && 1 <= m.count <= |d| && OnWay(queues, pc, m, d[..m.count], G)
    ensures var n := Moved(m.to, m.count);
      && 0 <= n <= |d| && IsMove(pc) && pc.m == m
      && (pc.Publish? ==> m.to.Into? && ViewOf(queues[m.to.r.q]).above == d[..n] && G == multiset(d[n..m.count]))
      && (pc.Release? ==> m.to.Consumer? && G == multiset(d[..m.count]))
  {
    var n := Moved(m.to, m.count);
    assert d[..m.count][..n] == d[..n] && d[..m.count][n..] == d[n..m.count];
  }

  /** What becomes of a booking of `count` items from deque `d`, under every schedule: once all are
      moved, those for the destination lie above its tail in order; a `steal_and_pop` has handed
      out the last one, and a drain all of them. */
  lemma BookedIsDelivered(s: State, a: nat, i: Input, acts: seq<Act>, pc: Agent)
    requires Inv(s) && Typed(s) && a < |s.agents| && s.agents[a] == pc && pc.Book4?
    requires var s1 := Step(false, s, a, i); a < |s1.agents| && s1.agents[a].Take? && CarriesOn(s1, acts, a)
    ensures var d, s1 := ViewOf(s.queues[pc.src]).deque, Step(false, s, a, i);
      var n, s2 := Moved(pc.to, pc.count), Run(false, s1, acts);
      && 1 <= pc.count <= |d| && 0 <= n <= |d| && Typed(s2) && a < |s2.agents|
      && var p := s2.agents[a];
         && IsMove(p) && p.m == Move(pc.src, pc.to, pc.head, pc.count, pc.head + pc.count)
         && (p.Publish? ==> pc.to.Into? && ViewOf(s2.queues[pc.to.r.q]).above == d[..n] && GotBy(s1, acts, a) == multiset(d[n..pc.count]))
         && (p.Release? ==> pc.to.Consumer? && GotBy(s1, acts, a) == multiset(d[..pc.count]))
  {
    var m := Move(pc.src, pc.to, pc.head, pc.count, pc.head + pc.count);
    var d, s1 := ViewOf(s.queues[pc.src]).deque, Step(false, s, a, i);
    BookingOnWay(s, a, i, pc, m);
    MovesInOrder(s1, acts, a, m, d[..pc.count], multiset{});
    var s2 := Run(false, s1, acts);
    assert multiset{} + GotBy(s1, acts, a) == GotBy(s1, acts, a);
    Delivered(s2.queues, s2.agents[a], m, d, GotBy(s1, acts, a));
  }

  /** And the publishing step joins them to the back of the destination. */
  lemma PublishJoins(w: nat, queues: seq<Queue>, a: nat, pc: Agent, i: Input)
    requires QueuesInv(w, queues) && QueuesTyped(queues) && AgentInv(queues, a, pc) && AgentTyped(|queues|, pc) && pc.Publish?
    ensures var e := Next(false, w, queues, a, pc, i);
      && e.On? && e.q == pc.m.to.r.q && e.pc == Release(pc.m) && |e.queue.buffer| > 0
      && ViewOf(e.queue).deque == ViewOf(queues[e.q]).deque + ViewOf(queues[e.q]).above && ViewOf(e.queue).above == []
  {
    AppendRefines(w, queues[pc.m.to.r.q]);
  }
}
