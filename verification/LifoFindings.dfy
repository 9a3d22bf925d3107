/** What the words of the LIFO queue do not promise: an honest `Empty`, and a sound drop after a
    leaked drain. Each comes with a run of the shipped machine and its exact condition. */
module LifoFindings {
  import opened Words
  import opened Ring
  import opened LifoMachine
  import opened LifoSafety
  import opened LifoDeque
  import opened LifoRuns
  import LifoWrap
  import LifoWorker

  /** The length by counters is the length of the deque, on words and unbounded. */
  lemma LenIsDeque(w: nat, U: Queue)
    requires w > 0 && QueueInv(w, U)
    ensures Len(false, w, U.pushCount, U.popCount, U.booked) == |ViewOf(U).deque|
    ensures Len(true, w, U.pushCount % w, U.popCount % w, U.booked % w) == |ViewOf(U).deque|
  {
    LifoWrap.WordCount(U.pushCount, U.popCount, U.booked, w);
    ModSmall(Tail(U) - U.booked, w);
  }

  /** A ring of two with nothing booked. */
  function Two(push: int, pop: int, b: seq<Slot>): Queue {
    Queue(2, push, pop, 0, 0, b, None, None, 0, 0)
  }

  lemma PushedTwo(wrap: bool, push: int, push': int, pop: int, t: int, b: seq<Slot>, x: Item)
    requires |b| == 2 && 0 <= t < 2 && N(wrap, 4, push - pop) == t && N(wrap, 4, push + 1) == push' && b[t].Vacant?
    ensures Pushed(wrap, 4, Two(push, pop, b), x) == Two(push', pop, b[t := Held(x)]) && HasRoom(wrap, 4, Two(push, pop, b))
    ensures t > 0 ==> Nonempty(wrap, 4, Two(push, pop, b))
    ensures N(wrap, 4, push' - pop) > 0 ==> Nonempty(wrap, 4, Two(push', pop, b[t := Held(x)]))
  {
    RingOfTwo(b, t, Held(x));
  }

  lemma PoppedTwo(wrap: bool, push: int, pop: int, pop': int, t: int, b: seq<Slot>, x: Item)
    requires |b| == 2 && 1 <= t <= 2 && N(wrap, 4, push - pop) == t && N(wrap, 4, pop + 1) == pop' && b[t - 1] == Held(x)
    ensures Popped(wrap, 4, Two(push, pop, b)) == Two(push, pop', b[t - 1 := Vacant]) && HasItem(wrap, 4, Two(push, pop, b), x)
    ensures Nonempty(wrap, 4, Two(push, pop, b))
    ensures N(wrap, 4, push - pop') > 0 ==> Nonempty(wrap, 4, Two(push, pop', b[t - 1 := Vacant]))
  {
    RingOfTwo(b, t - 1, Vacant);
  }

  /** The state between two calls of the owner: the items it has pushed, the items it has popped,
      and the second slot of the ring, above an item that stays. */
  function Between(pu: multiset<Item>, co: multiset<Item>, push: int, pop: int, top: Slot, p: Agent): State {
    Pair(Ledger(4, pu, co), Two(push, pop, [Held(1), top]), Idle, p)
  }

  lemma PushTop(wrap: bool, pu: multiset<Item>, co: multiset<Item>, push: int, push': int, pop: int, p: Agent, x: Item, acts: seq<Act>)
    requires N(wrap, 4, push - pop) == 1 && N(wrap, 4, push + 1) == push' && N(wrap, 4, push' - pop) == 2 && AgentTyped(1, p)
    requires acts == PushActs(x)
    ensures Reaches(wrap, Between(pu, co, push, pop, Vacant, p), acts, Between(pu + multiset{x}, co, push', pop, Held(x), p), true)
  {
    PushedTwo(wrap, push, push', pop, 1, [Held(1), Vacant], x);
    assert [Held(1), Vacant][1 := Held(x)] == [Held(1), Held(x)];
    SoloPush(wrap, Ledger(4, pu, co), Two(push, pop, [Held(1), Vacant]), p, x, acts);
  }

  lemma PopTop(wrap: bool, pu: multiset<Item>, co: multiset<Item>, push: int, pop: int, pop': int, p: Agent, x: Item, acts: seq<Act>)
    requires N(wrap, 4, push - pop) == 2 && N(wrap, 4, pop + 1) == pop' && N(wrap, 4, push - pop') == 1 && AgentTyped(1, p)
    requires acts == PopActs()
    ensures Reaches(wrap, Between(pu, co, push, pop, Held(x), p), acts, Between(pu, co + multiset{x}, push, pop', Vacant, p), true)
  {
    PoppedTwo(wrap, push, pop, pop', 2, [Held(1), Held(x)], x);
    assert [Held(1), Held(x)][1 := Vacant] == [Held(1), Vacant];
    SoloPop(wrap, Ledger(4, pu, co), Two(push, pop, [Held(1), Held(x)]), p, x, acts);
  }

  lemma NewPair()
    ensures Init(4, [2], 2) == Pair(Ledger(4, multiset{}, multiset{}), Two(0, 0, [Vacant, Vacant]), Idle, Idle)
  {
    assert NewQueue(2) == Two(0, 0, [Vacant, Vacant]);
    assert Init(4, [2], 2).queues == [Two(0, 0, [Vacant, Vacant])] && Init(4, [2], 2).agents == [Idle, Idle];
  }

  /** Two items are pushed to a new queue. */
  lemma Setup(wrap: bool, new_: State) returns (acts: seq<Act>)
    requires new_ == Init(4, [2], 2)
    ensures acts == PushActs(1) + PushActs(2)
    ensures Reaches(wrap, new_, acts, Between(multiset{1, 2}, multiset{}, 2, 0, Held(2), Idle), false)
  {
    var first, second := PushActs(1), PushActs(2);
    acts := first + second;
    NewPair();
    SetupFirst(wrap, new_, first);
    SetupSecond(wrap, second);
    Then(wrap, new_, first, Between(multiset{1}, multiset{}, 1, 0, Vacant, Idle), second,
         Between(multiset{1, 2}, multiset{}, 2, 0, Held(2), Idle), false);
  }

  lemma SetupFirst(wrap: bool, s: State, acts: seq<Act>)
    requires acts == PushActs(1) && s == Pair(Ledger(4, multiset{}, multiset{}), Two(0, 0, [Vacant, Vacant]), Idle, Idle)
    ensures Reaches(wrap, s, acts, Between(multiset{1}, multiset{}, 1, 0, Vacant, Idle), false)
  {
    var b := [Vacant, Vacant];
    PushedTwo(wrap, 0, 1, 0, 0, b, 1);
    assert b[0 := Held(1)] == [Held(1), Vacant];
    SoloPush(wrap, Ledger(4, multiset{}, multiset{}), Two(0, 0, b), Idle, 1, acts);
  }

  lemma SetupSecond(wrap: bool, acts: seq<Act>)
    requires acts == PushActs(2)
    ensures Reaches(wrap, Between(multiset{1}, multiset{}, 1, 0, Vacant, Idle), acts, Between(multiset{1, 2}, multiset{}, 2, 0, Held(2), Idle), false)
  {
    PushTop(wrap, multiset{1}, multiset{}, 1, 2, 0, Idle, 2, acts);
  }

  /** The owner's turns while agent 1 is at `p`: pop, push 3, pop, push 4, pop. */
  lemma OwnerTurns(wrap: bool, p: Agent) returns (acts: seq<Act>)
    requires AgentTyped(1, p)
    ensures acts == PopActs() + (PushActs(3) + (PopActs() + (PushActs(4) + PopActs())))
    ensures Reaches(wrap, Between(multiset{1, 2}, multiset{}, 2, 0, Held(2), p), acts,
                    Between(multiset{1, 2, 3, 4}, multiset{2, 3, 4}, N(wrap, 4, 4), 3, Vacant, p), true)
  {
    var pop, push3, push4 := PopActs(), PushActs(3), PushActs(4);
    acts := pop + (push3 + (pop + (push4 + pop)));
    LastTurns(wrap, p, pop, push4, N(wrap, 4, 4));
    FirstTurns(wrap, p, pop, push3);
    Then(wrap, Between(multiset{1, 2}, multiset{}, 2, 0, Held(2), p), pop + push3, Between(multiset{1, 2, 3}, multiset{2}, 3, 1, Held(3), p),
         pop + (push4 + pop), Between(multiset{1, 2, 3, 4}, multiset{2, 3, 4}, N(wrap, 4, 4), 3, Vacant, p), true);
    assert (pop + push3) + (pop + (push4 + pop)) == acts;
  }

  /** A pop of `x` and a push of `y`. */
  lemma PopPush(wrap: bool, pu: multiset<Item>, co: multiset<Item>, push: int, push': int, pop: int, pop': int, p: Agent, x: Item, y: Item, pops: seq<Act>, pushes: seq<Act>)
    requires AgentTyped(1, p) && pops == PopActs() && pushes == PushActs(y)
    requires N(wrap, 4, push - pop) == 2 && N(wrap, 4, pop + 1) == pop' && N(wrap, 4, push - pop') == 1
    requires N(wrap, 4, push + 1) == push' && N(wrap, 4, push' - pop') == 2
    ensures Reaches(wrap, Between(pu, co, push, pop, Held(x), p), pops + pushes,
                    Between(pu + multiset{y}, co + multiset{x}, push', pop', Held(y), p), true)
  {
    PopTop(wrap, pu, co, push, pop, pop', p, x, pops);
    PushTop(wrap, pu, co + multiset{x}, push, push', pop', p, y, pushes);
    Then(wrap, Between(pu, co, push, pop, Held(x), p), pops, Between(pu, co + multiset{x}, push, pop', Vacant, p), pushes,
         Between(pu + multiset{y}, co + multiset{x}, push', pop', Held(y), p), true);
  }

  lemma FirstTurns(wrap: bool, p: Agent, pop: seq<Act>, push3: seq<Act>)
    requires AgentTyped(1, p) && pop == PopActs() && push3 == PushActs(3)
    ensures Reaches(wrap, Between(multiset{1, 2}, multiset{}, 2, 0, Held(2), p), pop + push3, Between(multiset{1, 2, 3}, multiset{2}, 3, 1, Held(3), p), true)
  {
    PopPush(wrap, multiset{1, 2}, multiset{}, 2, 3, 0, 1, p, 2, 3, pop, push3);
    assert multiset{1, 2} + multiset{3} == multiset{1, 2, 3} && multiset{} + multiset{2} == multiset{2};
  }

  lemma MiddleTurns(wrap: bool, p: Agent, pop: seq<Act>, push4: seq<Act>, four: int)
    requires AgentTyped(1, p) && pop == PopActs() && push4 == PushActs(4) && four == N(wrap, 4, 4)
    ensures Reaches(wrap, Between(multiset{1, 2, 3}, multiset{2}, 3, 1, Held(3), p), pop + push4,
                    Between(multiset{1, 2, 3, 4}, multiset{2, 3}, four, 2, Held(4), p), true)
  {
    PopPush(wrap, multiset{1, 2, 3}, multiset{2}, 3, four, 1, 2, p, 3, 4, pop, push4);
    assert multiset{1, 2, 3} + multiset{4} == multiset{1, 2, 3, 4} && multiset{2} + multiset{3} == multiset{2, 3};
  }

  lemma LastTurns(wrap: bool, p: Agent, pop: seq<Act>, push4: seq<Act>, four: int)
    requires AgentTyped(1, p) && pop == PopActs() && push4 == PushActs(4) && four == N(wrap, 4, 4)
    ensures Reaches(wrap, Between(multiset{1, 2, 3}, multiset{2}, 3, 1, Held(3), p), pop + (push4 + pop),
                    Between(multiset{1, 2, 3, 4}, multiset{2, 3, 4}, four, 3, Vacant, p), true)
  {
    MiddleTurns(wrap, p, pop, push4, four);
    PopTop(wrap, multiset{1, 2, 3, 4}, multiset{2, 3}, four, 2, 3, p, 4, pop);
    Then(wrap, Between(multiset{1, 2, 3}, multiset{2}, 3, 1, Held(3), p), pop + push4, Between(multiset{1, 2, 3, 4}, multiset{2, 3}, four, 2, Held(4), p), pop,
         Between(multiset{1, 2, 3, 4}, multiset{2, 3, 4}, four, 3, Vacant, p), true);
    assert (pop + push4) + pop == pop + (push4 + pop);
  }

  /** The drain of agent 1, from its start to the point at which it asks for the item count. */
  lemma CallRuns(wrap: bool) returns (acts: seq<Act>)
    ensures acts == LoadActs() + (PopActs() + (PushActs(3) + (PopActs() + (PushActs(4) + PopActs()))))
    ensures Reaches(wrap, Between(multiset{1, 2}, multiset{}, 2, 0, Held(2), Idle), acts,
                    Between(multiset{1, 2, 3, 4}, multiset{2, 3, 4}, N(wrap, 4, 4), 3, Vacant, Book3(0, Consumer, Stamp(0, 0), 0, 0, 0)), true)
  {
    var load := LoadActs();
    var p := Book3(0, Consumer, Stamp(0, 0), 0, 0, 0);
    SoloLoad(wrap, Ledger(4, multiset{1, 2}, multiset{}), Two(2, 0, [Held(1), Held(2)]), load);
    var turns := OwnerTurns(wrap, p);
    acts := load + turns;
    Then(wrap, Between(multiset{1, 2}, multiset{}, 2, 0, Held(2), Idle), load, Between(multiset{1, 2}, multiset{}, 2, 0, Held(2), p),
         turns, Between(multiset{1, 2, 3, 4}, multiset{2, 3, 4}, N(wrap, 4, 4), 3, Vacant, p), true);
  }

  /** On words the drain then finds no items, although one is there. */
  lemma WordsSayEmpty(pu: multiset<Item>, co: multiset<Item>, acts: seq<Act>)
    requires acts == [Act(1, Want(1))]
    ensures Reaches(true, Between(pu, co, 0, 3, Vacant, Book3(0, Consumer, Stamp(0, 0), 0, 0, 0)), acts, Between(pu, co, 0, 3, Vacant, Idle), true)
  {
    var s := Between(pu, co, 0, 3, Vacant, Book3(0, Consumer, Stamp(0, 0), 0, 0, 0));
    assert Leads(true, s, Act(1, Want(1)), Between(pu, co, 0, 3, Vacant, Idle));
    TrailEnds(true, [s, Between(pu, co, 0, 3, Vacant, Idle)], acts);
  }

  /** A run of the shipped machine from a new queue of two, on words of two bits. A drain starts
      while two items are there; while it is between loading its words and computing the count,
      the owner pops three times and pushes twice. The deque holds an item at every state of the
      call, the call stays within the documented bound, and it reports `Empty`. */
  lemma EmptyCanBeSpurious() returns (setup: seq<Act>, call: seq<Act>, ask: Act)
    ensures var s := Run(true, Init(4, [2], 2), setup);
      && NeverEmpty(true, s, call + [ask])
      && s.agents == [Idle, Idle] && call != [] && call[0] == Act(1, StartDrain(0)) && ask == Act(1, Want(1))
      && |Run(true, s, call).agents| == 2 && Run(true, s, call).agents[1] == Book3(0, Consumer, Stamp(0, 0), 0, 0, 0)
      && |Run(true, s, call + [ask]).agents| == 2 && Run(true, s, call + [ask]).agents[1] == Idle
    ensures var u := Run(false, Run(false, Init(4, [2], 2), setup), call);
      && |u.queues| == 1 && LifoWrap.Bounded(4, u.queues[0], Stamp(0, 0)) && Len(false, 4, u.queues[0].pushCount, u.queues[0].popCount, u.queues[0].booked) == 1
      && NeverEmpty(false, Run(false, Init(4, [2], 2), setup), call)
  {
    var new_ := Init(4, [2], 2);
    setup := Setup(true, new_);
    var setup' := Setup(false, new_);
    call := CallRuns(true);
    var call' := CallRuns(false);
    ask := Act(1, Want(1));
    var last := [ask];
    WordsSayEmpty(multiset{1, 2, 3, 4}, multiset{2, 3, 4}, last);
    Then(true, Between(multiset{1, 2}, multiset{}, 2, 0, Held(2), Idle), call,
         Between(multiset{1, 2, 3, 4}, multiset{2, 3, 4}, 0, 3, Vacant, Book3(0, Consumer, Stamp(0, 0), 0, 0, 0)), last,
         Between(multiset{1, 2, 3, 4}, multiset{2, 3, 4}, 0, 3, Vacant, Idle), true);
  }

  /** An item can go where the booked ones are to go: `steal_and_pop` has room for one in any case. */
  predicate Fits(to: Sink) {
    to.Into? ==> to.room > 0 || (to.keepLast && to.room == 0)
  }

  /** A booking round on words computes no items from the counts `pop` and `head` it holds. */
  predicate SaysEmpty(w: nat, Q: Queue, pop: int, head: int)
    requires w > 0
  {
    (Q.pushCount - pop - head) % w == 0
  }

  lemma RoundBooks(w: nat, queues: seq<Queue>, i: Input, src: nat, to: Sink, t: Stamp, push: int, pop: int, head: int, n: int)
    requires w > 1 && src < |queues| && SinkTyped(|queues|, to) && Fits(to) && i.Want? && i.n >= 1 && queues[src].pushCount == push
    requires ((push - pop) % w - head) % w == n
    ensures var e := StepSize(true, w, queues, i, src, to, t, pop, head, head); e.Local? && e.pc.Book4? <==> n != 0
  {
    LifoWrap.SizeIsRound(w, queues, i, src, to, t, push, pop, head, head, n);
  }

  lemma SaysEmptyIs(w: nat, Q: Queue, pop: int, head: int, n: int)
    requires w > 0 && n == ((Q.pushCount % w - pop % w) % w - head % w) % w
    ensures SaysEmpty(w, Q, pop, head) <==> n == 0
  {
    LifoWrap.WordCount(Q.pushCount, pop, head, w);
  }

  /** With a count asked for and room for it, that is what makes the round abort. */
  lemma AbortMeansSaysEmpty(w: nat, queues: seq<Queue>, i: Input, src: nat, to: Sink, t: Stamp, pop: int, head: int, seen: int)
    requires w > 1 && src < |queues| && SinkTyped(|queues|, to) && Fits(to) && i.Want? && i.n >= 1 && seen % w == head % w
    ensures StepSize(true, w, LifoWrap.WrapQueues(w, queues), i, src, to, t, pop % w, head % w, seen % w).Local?
         && StepSize(true, w, LifoWrap.WrapQueues(w, queues), i, src, to, t, pop % w, head % w, seen % w).pc.Book4?
       <==> !SaysEmpty(w, queues[src], pop, head)
  {
    var push, n := queues[src].pushCount % w, ((queues[src].pushCount % w - pop % w) % w - head % w) % w;
    SaysEmptyIs(w, queues[src], pop, head, n);
    RoundBooks(w, LifoWrap.WrapQueues(w, queues), i, src, to, t, push, pop % w, head % w, n);
  }

  /** The queue has these counters, between two calls of its owner. */
  ghost predicate Counts(w: nat, Q: Queue, cap: nat, pop: int, booked: int) {
    QueueInv(w, Q) && Q.owner.None? && Q.cap == cap && Q.popCount == pop && Q.booked == booked
  }

  /** Such a queue is only reported empty when it is. */
  ghost predicate Honest(w: nat, Q: Queue, pop: int, head: int)
    requires w > 0 && |Q.buffer| > 0
  {
    SaysEmpty(w, Q, pop, head) ==> ViewOf(Q).deque == []
  }

  lemma HonestBelow(w: nat, Q: Queue, pop: int, head: int)
    requires w > 0 && QueueInv(w, Q) && ((Q.popCount - pop) + (Q.booked - head)) % w < w - Q.cap
    ensures Honest(w, Q, pop, head)
  {
    var n, d := Tail(Q) - Q.booked, (Q.popCount - pop) + (Q.booked - head);
    assert Q.pushCount - pop - head == n + d;
    if SaysEmpty(w, Q, pop, head) { ZeroIsHonest(w, Q.cap, n, d); }
  }

  /** A queue with these counters and `n` items. */
  lemma Stocked(w: nat, cap: nat, pop: int, booked: int, n: nat) returns (Q: Queue)
    requires 0 < cap && 2 * cap <= w && w % cap == 0 && pop >= 0 && booked >= 0 && n <= cap
    ensures Counts(w, Q, cap, pop, booked) && Q.pushCount == pop + booked + n && |ViewOf(Q).deque| == n
  {
    var U := Queue(cap, pop + booked, pop, booked, booked, seq(cap, _ => Vacant), None, None, 0, 0);
    var items := seq(n, _ => 0);
    assert QueueInv(w, U);
    LifoWorker.AddedInv(w, U, items);
    LifoWorker.AddedView(w, U, items);
    Q := LifoWorker.Added(U, items);
  }

  lemma SpuriousOtherwise(w: nat, cap: nat, pop: int, booked: int, stalePop: int, staleHead: int) returns (Q: Queue)
    requires 0 < cap && 2 * cap <= w && w % cap == 0 && pop >= 0 && booked >= 0
    requires ((pop - stalePop) + (booked - staleHead)) % w >= w - cap
    ensures Counts(w, Q, cap, pop, booked) && !Honest(w, Q, stalePop, staleHead)
  {
    var d := (pop - stalePop) + (booked - staleHead);
    ZeroIsSpurious(w, cap, d);
    Q := Stocked(w, cap, pop, booked, w - d % w);
    assert Q.pushCount - stalePop - staleHead == (w - d % w) + d;
  }

  /** The exact condition. A booking round that holds the pop count and the head of some time ago
      is honest about `Empty`, whatever the queue holds now, if and only if the pops and the stolen
      items since then, modulo the word size, stay below the word size less the capacity. */
  lemma EmptyIsHonestIff(w: nat, cap: nat, pop: int, booked: int, stalePop: int, staleHead: int)
    requires 0 < cap && 2 * cap <= w && w % cap == 0 && pop >= 0 && booked >= 0
    ensures (forall Q :: Counts(w, Q, cap, pop, booked) ==> Honest(w, Q, stalePop, staleHead))
       <==> ((pop - stalePop) + (booked - staleHead)) % w < w - cap
  {
    if ((pop - stalePop) + (booked - staleHead)) % w < w - cap {
      forall Q | Counts(w, Q, cap, pop, booked) ensures Honest(w, Q, stalePop, staleHead) {
        HonestBelow(w, Q, stalePop, staleHead);
      }
    } else {
      var Q := SpuriousOtherwise(w, cap, pop, booked, stalePop, staleHead);
    }
  }

  /** Agent 1 drains two items and takes one. */
  function DrainActs(): seq<Act> { [Act(1, Want(2)), Act(1, Go), Act(1, Go)] }

  lemma DrainBooks(l: Ledger, p: Agent, m: Move, Q: Queue, B: Queue)
    requires l.w == 4 && p == Book3(0, Consumer, Stamp(0, 0), 0, 0, 0) && m == Move(0, Consumer, 0, 2, 2)
    requires Q == Two(2, 0, [Held(1), Held(2)]) && B == Q.(booked := 2, thief := Some(1), moved := 0)
    ensures Leads(true, Pair(l, Q, Idle, p), Act(1, Want(2)), Pair(l, Q, Idle, Book4(0, Consumer, Stamp(0, 0), 0, 0, 0, 2)))
    ensures Leads(true, Pair(l, Q, Idle, Book4(0, Consumer, Stamp(0, 0), 0, 0, 0, 2)), Act(1, Go), Pair(l, B, Idle, Take(m, 0)))
  {
  }

  lemma DrainTakes(l: Ledger, m: Move, B: Queue, Q': Queue)
    requires l.w == 4 && m == Move(0, Consumer, 0, 2, 2)
    requires B == Queue(2, 2, 0, 2, 0, [Held(1), Held(2)], None, Some(1), 0, 0) && Q' == Queue(2, 2, 0, 2, 0, [Vacant, Held(2)], None, Some(1), 1, 0)
    ensures Leads(true, Pair(l, B, Idle, Take(m, 0)), Act(1, Go), Pair(l.(consumed := l.consumed + multiset{1}), Q', Idle, Take(m, 1)))
    ensures Typed(Pair(l.(consumed := l.consumed + multiset{1}), Q', Idle, Take(m, 1)))
  {
    RingOfTwo([Held(1), Held(2)], 0, Vacant);
    assert [Held(1), Held(2)][0 := Vacant] == [Vacant, Held(2)];
  }

  lemma DrainTakesOne(l: Ledger, p: Agent, m: Move, acts: seq<Act>, Q: Queue, Q': Queue)
    requires l.w == 4 && p == Book3(0, Consumer, Stamp(0, 0), 0, 0, 0) && m == Move(0, Consumer, 0, 2, 2)
    requires |acts| == 3 && acts[0] == Act(1, Want(2)) && acts[1] == Act(1, Go) && acts[2] == Act(1, Go)
    requires Q == Two(2, 0, [Held(1), Held(2)]) && Q' == Queue(2, 2, 0, 2, 0, [Vacant, Held(2)], None, Some(1), 1, 0)
    ensures Reaches(true, Pair(l, Q, Idle, p), acts, Pair(l.(consumed := l.consumed + multiset{1}), Q', Idle, Take(m, 1)), false)
  {
    var B := Q.(booked := 2, thief := Some(1), moved := 0);
    DrainBooks(l, p, m, Q, B);
    DrainTakes(l, m, B, Q');
    ThreeReach(true, Pair(l, Q, Idle, p), Pair(l, Q, Idle, Book4(0, Consumer, Stamp(0, 0), 0, 0, 0, 2)), Pair(l, B, Idle, Take(m, 0)),
               Pair(l.(consumed := l.consumed + multiset{1}), Q', Idle, Take(m, 1)), acts);
  }

  lemma SweepOfTwo()
    ensures Sweep([Vacant, Held(2)], 0, 2).stale == 1 && Sweep([Vacant, Held(2)], 0, 2).dropped == [2]
  {
    RingOfTwo([Vacant, Held(2)], 0, Vacant);
    RingOfTwo([Vacant, Held(2)], 1, Vacant);
    SweepStale([Vacant, Held(2)], 0, 2, 1);
    ItemsOne([Vacant, Held(2)], 1);
  }

  /** A run of the shipped machine after which dropping the queue releases an item twice: a drain
      of two items is leaked after it has handed out the first. */
  lemma LeakedDrainDropsTwice() returns (acts: seq<Act>)
    ensures var s := Run(true, Init(4, [2], 2), acts);
      && |s.queues| == 1 && |s.queues[0].buffer| == 2 && s.queues[0].owner.None?
      && s.consumed == multiset{1}
      && Sweep(s.queues[0].buffer, s.queues[0].head, 2).stale == 1
  {
    var new_ := Init(4, [2], 2);
    var setup := Setup(true, new_);
    var load, drain := LoadActs(), DrainActs();
    var l, p := Ledger(4, multiset{1, 2}, multiset{}), Book3(0, Consumer, Stamp(0, 0), 0, 0, 0);
    var Q, Q' := Two(2, 0, [Held(1), Held(2)]), Queue(2, 2, 0, 2, 0, [Vacant, Held(2)], None, Some(1), 1, 0);
    var m := Move(0, Consumer, 0, 2, 2);
    LoadForDrain(l, Q, load);
    DrainTakesOne(l, p, m, drain, Q, Q');
    Then(true, Pair(l, Q, Idle, Idle), load, Pair(l, Q, Idle, p), drain, Pair(l.(consumed := l.consumed + multiset{1}), Q', Idle, Take(m, 1)), false);
    acts := setup + (load + drain);
    Then(true, new_, setup, Pair(l, Q, Idle, Idle), load + drain, Pair(l.(consumed := l.consumed + multiset{1}), Q', Idle, Take(m, 1)), false);
    SweepOfTwo();
  }

  lemma LoadForDrain(l: Ledger, Q: Queue, acts: seq<Act>)
    requires l.w == 4 && Q == Two(2, 0, [Held(1), Held(2)]) && acts == LoadActs()
    ensures Reaches(true, Pair(l, Q, Idle, Idle), acts, Pair(l, Q, Idle, Book3(0, Consumer, Stamp(0, 0), 0, 0, 0)), false)
  {
    SoloLoad(true, l, Q, acts);
  }
}
