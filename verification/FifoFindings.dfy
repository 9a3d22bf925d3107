/** What the words of the FIFO queue do not promise: an honest `Empty`. With a run of the shipped
    machine and the exact condition. */
module FifoFindings {
  import opened Words
  import opened Ring
  import opened FifoMachine
  import opened FifoSafety
  import opened FifoDeque
  import opened FifoRuns
  import FifoWrap
  import FifoWorker

  /** The length by positions is the length of the queue, on words and unbounded. */
  lemma LenIsQueue(w: nat, U: Queue)
    requires w > 0 && QueueInv(w, U)
    ensures U.tail - U.worker == N(true, w, U.tail % w - U.worker % w) == |ViewOf(U).fifo|
  {
    FifoWrap.SameDistance(U.tail, U.worker, w);
  }

  /** A ring of two with nothing booked. */
  function Two(tail: int, worker: int, b: seq<Slot>): Queue {
    Queue(2, tail, worker, worker, b, None, None, 0, 0, 0, None)
  }

  /** The state between two calls of the owner. */
  function Between(pu: multiset<Item>, co: multiset<Item>, tail: int, worker: int, b: seq<Slot>, p: Agent): State {
    Pair(Ledger(4, pu, co), Two(tail, worker, b), Idle, p)
  }

  lemma PushedTwo(wrap: bool, tail: int, tail': int, worker: int, b: seq<Slot>, b': seq<Slot>, i: nat, x: Item)
    requires |b| == 2 && i < 2 && (tail == i || tail == i + 2) && b[i].Vacant? && b' == b[i := Held(x)]
    requires N(wrap, 4, tail + 1) == tail' && N(wrap, 4, tail' - worker) > 0
    ensures Pushed(wrap, 4, Two(tail, worker, b), x) == Two(tail', worker, b') && Cell(b, tail).Vacant?
    ensures Nonempty(wrap, 4, Two(tail', worker, b'))
  {
    RingOfTwo(b, tail, i, Held(x));
  }

  /** The owner pushes `x` to slot `i`. */
  lemma PushTwo(wrap: bool, pu: multiset<Item>, co: multiset<Item>, tail: int, tail': int, worker: int, b: seq<Slot>, b': seq<Slot>, i: nat, p: Agent, x: Item, acts: seq<Act>)
    requires acts == PushActs(x) && AgentTyped(1, p) && |b| == 2 && i < 2 && (tail == i || tail == i + 2)
    requires b[i].Vacant? && b' == b[i := Held(x)]
    requires N(wrap, 4, tail - worker) <= 1 && N(wrap, 4, tail + 1) == tail' && N(wrap, 4, tail' - worker) > 0
    ensures Reaches(wrap, Between(pu, co, tail, worker, b, p), acts, Between(pu + multiset{x}, co, tail', worker, b', p), N(wrap, 4, tail - worker) > 0)
  {
    PushedTwo(wrap, tail, tail', worker, b, b', i, x);
    SoloPush(wrap, Ledger(4, pu, co), Two(tail, worker, b), p, x, acts);
  }

  lemma PoppedTwo(wrap: bool, tail: int, worker: int, worker': int, b: seq<Slot>, b': seq<Slot>, i: nat, x: Item)
    requires |b| == 2 && i < 2 && (worker == i || worker == i + 2) && b[i] == Held(x) && b' == b[i := Vacant]
    requires N(wrap, 4, tail - worker) > 0 && N(wrap, 4, worker + 1) == worker' && N(wrap, 4, tail - worker') > 0
    ensures Popped(wrap, 4, Two(tail, worker, b)) == Two(tail, worker', b') && tail != worker && Cell(b, worker) == Held(x)
    ensures Nonempty(wrap, 4, Two(tail, worker, b)) && Nonempty(wrap, 4, Two(tail, worker', b'))
  {
    RingOfTwo(b, worker, i, Vacant);
  }

  /** The owner pops `x` from slot `i`. */
  lemma PopTwo(wrap: bool, pu: multiset<Item>, co: multiset<Item>, tail: int, worker: int, worker': int, b: seq<Slot>, b': seq<Slot>, i: nat, p: Agent, x: Item, acts: seq<Act>)
    requires acts == PopActs() && AgentTyped(1, p) && |b| == 2 && i < 2 && (worker == i || worker == i + 2)
    requires b[i] == Held(x) && b' == b[i := Vacant]
    requires N(wrap, 4, tail - worker) > 0 && N(wrap, 4, worker + 1) == worker' && N(wrap, 4, tail - worker') > 0
    ensures Reaches(wrap, Between(pu, co, tail, worker, b, p), acts, Between(pu, co + multiset{x}, tail, worker', b', p), true)
  {
    PoppedTwo(wrap, tail, worker, worker', b, b', i, x);
    SoloPop(wrap, Ledger(4, pu, co), Two(tail, worker, b), p, x, acts);
  }

  lemma NewPair()
    ensures Init(4, [2], 2) == Between(multiset{}, multiset{}, 0, 0, [Vacant, Vacant], Idle)
  {
    assert NewQueue(2) == Two(0, 0, [Vacant, Vacant]);
    assert Init(4, [2], 2).queues == [Two(0, 0, [Vacant, Vacant])] && Init(4, [2], 2).agents == [Idle, Idle];
  }

  /** Two items are pushed to a new queue. */
  lemma Setup(wrap: bool, new_: State, first: seq<Act>, second: seq<Act>)
    requires new_ == Init(4, [2], 2) && first == PushActs(1) && second == PushActs(2)
    ensures Reaches(wrap, new_, first + second, Between(multiset{1, 2}, multiset{}, 2, 0, [Held(1), Held(2)], Idle), false)
  {
    NewPair();
    PushTwo(wrap, multiset{}, multiset{}, 0, 1, 0, [Vacant, Vacant], [Held(1), Vacant], 0, Idle, 1, first);
    PushTwo(wrap, multiset{1}, multiset{}, 1, 2, 0, [Held(1), Vacant], [Held(1), Held(2)], 1, Idle, 2, second);
    assert multiset{} + multiset{1} == multiset{1} && multiset{1} + multiset{2} == multiset{1, 2};
    Then(wrap, new_, first, Between(multiset{1}, multiset{}, 1, 0, [Held(1), Vacant], Idle), second,
         Between(multiset{1, 2}, multiset{}, 2, 0, [Held(1), Held(2)], Idle), false);
  }

  /** The owner pops `x` from slot `i` and pushes `y` there. */
  lemma PopPush(wrap: bool, pu: multiset<Item>, pu': multiset<Item>, co: multiset<Item>, co': multiset<Item>, tail: int, tail': int, worker: int, worker': int,
                b: seq<Slot>, b': seq<Slot>, i: nat, p: Agent, x: Item, y: Item, pop: seq<Act>, push: seq<Act>)
    requires AgentTyped(1, p) && pop == PopActs() && push == PushActs(y) && pu' == pu + multiset{y} && co' == co + multiset{x}
    requires |b| == 2 && i < 2 && (worker == i || worker == i + 2) && (tail == i || tail == i + 2)
    requires b[i] == Held(x) && b' == b[i := Held(y)]
    requires N(wrap, 4, tail - worker) == 2 && N(wrap, 4, worker + 1) == worker' && N(wrap, 4, tail - worker') == 1
    requires N(wrap, 4, tail + 1) == tail' && N(wrap, 4, tail' - worker') > 0
    ensures Reaches(wrap, Between(pu, co, tail, worker, b, p), pop + push, Between(pu', co', tail', worker', b', p), true)
  {
    var gap := b[i := Vacant];
    PopTwo(wrap, pu, co, tail, worker, worker', b, gap, i, p, x, pop);
    PushTwo(wrap, pu, co', tail, tail', worker', gap, b', i, p, y, push);
    Then(wrap, Between(pu, co, tail, worker, b, p), pop, Between(pu, co', tail, worker', gap, p), push,
         Between(pu', co', tail', worker', b', p), true);
  }

  /** The owner's first turns while agent 1 is at `p`: pop, push 3. */
  lemma FirstTurns(wrap: bool, p: Agent, pop: seq<Act>, push3: seq<Act>)
    requires AgentTyped(1, p) && pop == PopActs() && push3 == PushActs(3)
    ensures Reaches(wrap, Between(multiset{1, 2}, multiset{}, 2, 0, [Held(1), Held(2)], p), pop + push3,
                    Between(multiset{1, 2, 3}, multiset{1}, 3, 1, [Held(3), Held(2)], p), true)
  {
    PopPush(wrap, multiset{1, 2}, multiset{1, 2, 3}, multiset{}, multiset{1}, 2, 3, 0, 1, [Held(1), Held(2)], [Held(3), Held(2)], 0, p, 1, 3, pop, push3);
  }

  /** Then pop, push 4. */
  lemma MiddleTurns(wrap: bool, p: Agent, pop: seq<Act>, push4: seq<Act>, four: int)
    requires AgentTyped(1, p) && pop == PopActs() && push4 == PushActs(4) && four == N(wrap, 4, 4)
    ensures Reaches(wrap, Between(multiset{1, 2, 3}, multiset{1}, 3, 1, [Held(3), Held(2)], p), pop + push4,
                    Between(multiset{1, 2, 3, 4}, multiset{1, 2}, four, 2, [Held(3), Held(4)], p), true)
  {
    PopPush(wrap, multiset{1, 2, 3}, multiset{1, 2, 3, 4}, multiset{1}, multiset{1, 2}, 3, four, 1, 2, [Held(3), Held(2)], [Held(3), Held(4)], 1, p, 2, 4, pop, push4);
  }

  /** All of them, ending with one more pop. */
  lemma OwnerTurns(wrap: bool, p: Agent, pop: seq<Act>, push3: seq<Act>, push4: seq<Act>, four: int)
    requires AgentTyped(1, p) && pop == PopActs() && push3 == PushActs(3) && push4 == PushActs(4) && four == N(wrap, 4, 4)
    ensures Reaches(wrap, Between(multiset{1, 2}, multiset{}, 2, 0, [Held(1), Held(2)], p), (pop + push3) + (pop + push4) + pop,
                    Between(multiset{1, 2, 3, 4}, multiset{1, 2, 3}, four, 3, [Vacant, Held(4)], p), true)
  {
    FirstTurns(wrap, p, pop, push3);
    MiddleTurns(wrap, p, pop, push4, four);
    PopTwo(wrap, multiset{1, 2, 3, 4}, multiset{1, 2}, four, 2, 3, [Held(3), Held(4)], [Vacant, Held(4)], 0, p, 3, pop);
    assert multiset{1, 2} + multiset{3} == multiset{1, 2, 3};
    Then(wrap, Between(multiset{1, 2}, multiset{}, 2, 0, [Held(1), Held(2)], p), pop + push3,
         Between(multiset{1, 2, 3}, multiset{1}, 3, 1, [Held(3), Held(2)], p), pop + push4,
         Between(multiset{1, 2, 3, 4}, multiset{1, 2}, four, 2, [Held(3), Held(4)], p), true);
    Then(wrap, Between(multiset{1, 2}, multiset{}, 2, 0, [Held(1), Held(2)], p), (pop + push3) + (pop + push4),
         Between(multiset{1, 2, 3, 4}, multiset{1, 2}, four, 2, [Held(3), Held(4)], p), pop,
         Between(multiset{1, 2, 3, 4}, multiset{1, 2, 3}, four, 3, [Vacant, Held(4)], p), true);
  }

  /** The drain of agent 1, from its start to the point at which it asks for the item count. */
  lemma CallRuns(wrap: bool, load: seq<Act>, pop: seq<Act>, push3: seq<Act>, push4: seq<Act>, p: Agent, four: int)
    requires load == LoadActs() && pop == PopActs() && push3 == PushActs(3) && push4 == PushActs(4)
    requires p == Book2(0, Consumer, 0, 0, 0) && four == N(wrap, 4, 4)
    ensures Reaches(wrap, Between(multiset{1, 2}, multiset{}, 2, 0, [Held(1), Held(2)], Idle), load + ((pop + push3) + (pop + push4) + pop),
                    Between(multiset{1, 2, 3, 4}, multiset{1, 2, 3}, four, 3, [Vacant, Held(4)], p), true)
  {
    SoloLoad(wrap, Ledger(4, multiset{1, 2}, multiset{}), Two(2, 0, [Held(1), Held(2)]), load);
    OwnerTurns(wrap, p, pop, push3, push4, four);
    Then(wrap, Between(multiset{1, 2}, multiset{}, 2, 0, [Held(1), Held(2)], Idle), load, Between(multiset{1, 2}, multiset{}, 2, 0, [Held(1), Held(2)], p),
         (pop + push3) + (pop + push4) + pop, Between(multiset{1, 2, 3, 4}, multiset{1, 2, 3}, four, 3, [Vacant, Held(4)], p), true);
  }

  /** On words the drain then finds no items, although one is there. */
  lemma WordsSayEmpty(pu: multiset<Item>, co: multiset<Item>, b: seq<Slot>, acts: seq<Act>)
    requires acts == [Act(1, Want(1))] && |b| == 2
    ensures Reaches(true, Between(pu, co, 0, 3, b, Book2(0, Consumer, 0, 0, 0)), acts, Between(pu, co, 0, 3, b, Idle), true)
  {
    var s := Between(pu, co, 0, 3, b, Book2(0, Consumer, 0, 0, 0));
    assert Leads(true, s, Act(1, Want(1)), Between(pu, co, 0, 3, b, Idle));
    TrailEnds(true, [s, Between(pu, co, 0, 3, b, Idle)], acts);
  }

  /** A run of the shipped machine from a new queue of two, on words of two bits. A drain starts
      while two items are there; while it is between loading the heads and computing the count,
      the owner pops three times and pushes twice. The queue holds an item at every state of the
      call, the call stays within the documented bound, and it reports `Empty`. */
  lemma EmptyCanBeSpurious() returns (setup: seq<Act>, call: seq<Act>, ask: Act)
    ensures var s := Run(true, Init(4, [2], 2), setup);
      && NeverEmpty(true, s, call + [ask])
      && s.agents == [Idle, Idle] && call != [] && call[0] == Act(1, StartDrain(0)) && ask == Act(1, Want(1))
      && |Run(true, s, call).agents| == 2 && Run(true, s, call).agents[1] == Book2(0, Consumer, 0, 0, 0)
      && |Run(true, s, call + [ask]).agents| == 2 && Run(true, s, call + [ask]).agents[1] == Idle
    ensures var u := Run(false, Run(false, Init(4, [2], 2), setup), call);
      && |u.queues| == 1 && FifoWrap.Bounded(4, u.queues[0], 0) && u.queues[0].tail - u.queues[0].worker == 1
      && NeverEmpty(false, Run(false, Init(4, [2], 2), setup), call)
  {
    var new_ := Init(4, [2], 2);
    var push1, push2, load, pop, push3, push4 := PushActs(1), PushActs(2), LoadActs(), PopActs(), PushActs(3), PushActs(4);
    setup := push1 + push2;
    call := load + ((pop + push3) + (pop + push4) + pop);
    ask := Act(1, Want(1));
    var last, p := [ask], Book2(0, Consumer, 0, 0, 0);
    Setup(true, new_, push1, push2);
    Setup(false, new_, push1, push2);
    CallRuns(true, load, pop, push3, push4, p, 0);
    CallRuns(false, load, pop, push3, push4, p, 4);
    WordsSayEmpty(multiset{1, 2, 3, 4}, multiset{1, 2, 3}, [Vacant, Held(4)], last);
    Then(true, Between(multiset{1, 2}, multiset{}, 2, 0, [Held(1), Held(2)], Idle), call,
         Between(multiset{1, 2, 3, 4}, multiset{1, 2, 3}, 0, 3, [Vacant, Held(4)], p), last,
         Between(multiset{1, 2, 3, 4}, multiset{1, 2, 3}, 0, 3, [Vacant, Held(4)], Idle), true);
  }

  /** An item can go where the booked ones are to go: `steal_and_pop` has room for one in any case. */
  predicate Fits(to: Sink) {
    to.Into? ==> to.room > 0 || (to.keepLast && to.room == 0)
  }

  /** A booking round on words computes no items from the head `worker` it holds. */
  predicate SaysEmpty(w: nat, Q: Queue, worker: int)
    requires w > 0
  {
    (Q.tail - worker) % w == 0
  }

  /** With a count asked for, room for it and no steal open when the heads were loaded, that is
      what makes the round abort. */
  lemma AbortMeansSaysEmpty(w: nat, queues: seq<Queue>, i: Input, src: nat, to: Sink, t: int, worker: int)
    requires w > 1 && src < |queues| && SinkTyped(|queues|, to) && Fits(to) && i.Want? && i.n >= 1
    ensures StepSize(true, w, FifoWrap.WrapQueues(w, queues), i, src, to, t, worker % w, worker % w).Local?
         && StepSize(true, w, FifoWrap.WrapQueues(w, queues), i, src, to, t, worker % w, worker % w).pc.Book3?
       <==> !SaysEmpty(w, queues[src], worker)
  {
    ModSub(queues[src].tail, worker, w);
  }

  /** The queue has this capacity and worker head, between two calls of its owner. */
  ghost predicate Counts(w: nat, Q: Queue, cap: nat, worker: int) {
    QueueInv(w, Q) && Q.owner.None? && Q.cap == cap && Q.worker == worker
  }

  /** Such a queue is only reported empty when it is. */
  ghost predicate Honest(w: nat, Q: Queue, worker: int)
    requires w > 0 && |Q.buffer| > 0
  {
    SaysEmpty(w, Q, worker) ==> ViewOf(Q).fifo == []
  }

  lemma HonestBelow(w: nat, Q: Queue, worker: int)
    requires w > 0 && QueueInv(w, Q) && (Q.worker - worker) % w < w - Q.cap
    ensures Honest(w, Q, worker)
  {
    var n, d := Q.tail - Q.worker, Q.worker - worker;
    assert Q.tail - worker == n + d;
    if SaysEmpty(w, Q, worker) { ZeroIsHonest(w, Q.cap, n, d); }
  }

  /** A queue with this worker head and `n` items. */
  lemma Stocked(w: nat, cap: nat, worker: int, n: nat) returns (Q: Queue)
    requires 0 < cap && 2 * cap <= w && w % cap == 0 && worker >= 0 && n <= cap
    ensures Counts(w, Q, cap, worker) && Q.tail == worker + n && |ViewOf(Q).fifo| == n
  {
    var U := Queue(cap, worker, worker, worker, seq(cap, _ => Vacant), None, None, worker, 0, 0, None);
    var items := seq(n, _ => 0);
    assert QueueInv(w, U);
    FifoWorker.ExtendedInv(w, U, items);
    FifoWorker.ExtendedView(w, U, items);
    Q := FifoWorker.Extended(U, items);
  }

  lemma SpuriousOtherwise(w: nat, cap: nat, worker: int, stale: int) returns (Q: Queue)
    requires 0 < cap && 2 * cap <= w && w % cap == 0 && worker >= 0 && (worker - stale) % w >= w - cap
    ensures Counts(w, Q, cap, worker) && !Honest(w, Q, stale)
  {
    var d := worker - stale;
    ZeroIsSpurious(w, cap, d);
    Q := Stocked(w, cap, worker, w - d % w);
    assert Q.tail - stale == (w - d % w) + d;
  }

  /** The exact condition. A booking round that holds the worker head of some time ago is honest
      about `Empty`, whatever the queue holds now, if and only if the items that left the front
      since then, modulo the word size, stay below the word size less the capacity. */
  lemma EmptyIsHonestIff(w: nat, cap: nat, worker: int, stale: int)
    requires 0 < cap && 2 * cap <= w && w % cap == 0 && worker >= 0
    ensures (forall Q :: Counts(w, Q, cap, worker) ==> Honest(w, Q, stale)) <==> (worker - stale) % w < w - cap
  {
    if (worker - stale) % w < w - cap {
      forall Q | Counts(w, Q, cap, worker) ensures Honest(w, Q, stale) {
        HonestBelow(w, Q, stale);
      }
    } else {
      var Q := SpuriousOtherwise(w, cap, worker, stale);
    }
  }
}
