/** Runs of one FIFO queue with two agents, on words and on unbounded positions alike: agent 0 is
    the owner, and agent 1 drains. */
module FifoRuns {
  import opened Words
  import opened Ring
  import opened FifoMachine

  /** How many items the queue holds, by its positions. */
  predicate Nonempty(wrap: bool, w: nat, Q: Queue) {
    w > 0 && N(wrap, w, Q.tail - Q.worker) > 0
  }

  ghost predicate Occupied(wrap: bool, s: State) {
    Typed(s) && |s.queues| > 0 && Nonempty(wrap, s.w, s.queues[0])
  }

  /** The first queue holds an item at every state of the run, first and last included. */
  ghost predicate NeverEmpty(wrap: bool, s: State, acts: seq<Act>) {
    forall k :: 0 <= k <= |acts| ==> Occupied(wrap, Run(wrap, s, acts[..k]))
  }

  lemma {:induction false} RunJoined(wrap: bool, s: State, acts: seq<Act>, more: seq<Act>)
    requires Typed(Run(wrap, s, acts))
    ensures Run(wrap, s, acts + more) == Run(wrap, Run(wrap, s, acts), more)
    decreases |acts|
  {
    if acts == [] {
      assert acts + more == more;
    } else if Typed(s) {
      assert (acts + more)[1..] == acts[1..] + more && (acts + more)[0] == acts[0];
      if acts[0].agent < |s.agents| {
        RunJoined(wrap, Step(wrap, s, acts[0].agent, acts[0].input), acts[1..], more);
      } else {
        RunJoined(wrap, s, acts[1..], more);
      }
    }
  }

  lemma Joined(wrap: bool, s: State, acts: seq<Act>, more: seq<Act>)
    requires NeverEmpty(wrap, s, acts) && NeverEmpty(wrap, Run(wrap, s, acts), more)
    ensures NeverEmpty(wrap, s, acts + more)
  {
    assert acts[..|acts|] == acts;
    forall k | 0 <= k <= |acts + more| ensures Occupied(wrap, Run(wrap, s, (acts + more)[..k])) {
      if k <= |acts| {
        assert (acts + more)[..k] == acts[..k];
      } else {
        assert (acts + more)[..k] == acts + more[..k - |acts|];
        RunJoined(wrap, s, acts, more[..k - |acts|]);
      }
    }
  }

  /** The run leads from `s` to `s'`, and if `busy` the queue is occupied all along. */
  ghost predicate Reaches(wrap: bool, s: State, acts: seq<Act>, s': State, busy: bool) {
    Run(wrap, s, acts) == s' && Typed(s') && (busy ==> NeverEmpty(wrap, s, acts))
  }

  /** One step leads from `s` to `s'`. */
  ghost predicate Leads(wrap: bool, s: State, act: Act, s': State) {
    Typed(s) && act.agent < |s.agents| && Step(wrap, s, act.agent, act.input) == s'
  }

  lemma Single(wrap: bool, s: State, act: Act, s': State)
    requires Leads(wrap, s, act, s')
    ensures Run(wrap, s, [act]) == s'
  {
    assert [act][1..] == [];
  }

  /** A trail of states, each led to by the next act. */
  ghost predicate Trail(wrap: bool, trail: seq<State>, acts: seq<Act>) {
    |trail| == |acts| + 1 && forall k :: 0 <= k < |acts| ==> Leads(wrap, trail[k], acts[k], trail[k + 1])
  }

  lemma {:induction false} TrailRuns(wrap: bool, trail: seq<State>, acts: seq<Act>, k: nat)
    requires Trail(wrap, trail, acts) && k <= |acts|
    ensures Run(wrap, trail[0], acts[..k]) == trail[k]
  {
    if k > 0 {
      TrailRuns(wrap, trail, acts, k - 1);
      assert acts[..k] == acts[..k - 1] + [acts[k - 1]];
      assert Leads(wrap, trail[k - 1], acts[k - 1], trail[k - 1 + 1]);
      Single(wrap, trail[k - 1], acts[k - 1], trail[k]);
      RunJoined(wrap, trail[0], acts[..k - 1], [acts[k - 1]]);
    }
  }

  lemma TrailEnds(wrap: bool, trail: seq<State>, acts: seq<Act>)
    requires Trail(wrap, trail, acts)
    ensures Run(wrap, trail[0], acts) == trail[|acts|]
    ensures (forall k :: 0 <= k <= |acts| ==> Occupied(wrap, trail[k])) ==> NeverEmpty(wrap, trail[0], acts)
  {
    TrailRuns(wrap, trail, acts, |acts|);
    assert acts[..|acts|] == acts;
    forall k | 0 <= k <= |acts| ensures Run(wrap, trail[0], acts[..k]) == trail[k] {
      TrailRuns(wrap, trail, acts, k);
    }
  }

  /** The outside of a pair of agents at one queue: the word size and what went in and out. */
  datatype Ledger = Ledger(w: nat, pushed: multiset<Item>, consumed: multiset<Item>)

  function Pair(l: Ledger, Q: Queue, owner: Agent, other: Agent): State {
    State(l.w, [Q], [owner, other], l.pushed, l.consumed, false)
  }

  /** A queue that nobody owns or robs, whose ring is as large as it says. */
  predicate Plain(Q: Queue) {
    |Q.buffer| == Q.cap > 0 && Q.owner.None? && Q.ahead == 0 && Q.reading.None? && Q.stealer == Q.worker
  }

  /** A run of five steps; if the queue is occupied at each state, it is never empty. */
  lemma Five(wrap: bool, s0: State, s1: State, s2: State, s3: State, s4: State, s5: State, acts: seq<Act>)
    requires |acts| == 5
    requires Leads(wrap, s0, acts[0], s1) && Leads(wrap, s1, acts[1], s2) && Leads(wrap, s2, acts[2], s3)
    requires Leads(wrap, s3, acts[3], s4) && Leads(wrap, s4, acts[4], s5)
    ensures Run(wrap, s0, acts) == s5
    ensures (&& Occupied(wrap, s0) && Occupied(wrap, s1) && Occupied(wrap, s2) && Occupied(wrap, s3)
             && Occupied(wrap, s4) && Occupied(wrap, s5)) ==> NeverEmpty(wrap, s0, acts)
  {
    TrailEnds(wrap, [s0, s1, s2, s3, s4, s5], acts);
  }

  /** Taking the owner side. */
  lemma Begins(wrap: bool, l: Ledger, Q: Queue, p: Agent, i: Input, pc: Agent)
    requires l.w > 0 && Plain(Q) && AgentTyped(1, p)
    requires (exists x :: i == StartPush(0, x) && pc == Room1(0, ToPush(x))) || (i == StartPop(0) && pc == Pop1(0))
    ensures Leads(wrap, Pair(l, Q, Idle, p), Act(0, i), Pair(l, Q.(owner := Some(0)), pc, p))
  {
  }

  function PushActs(x: Item): seq<Act> {
    [Act(0, StartPush(0, x)), Act(0, Go), Act(0, Go), Act(0, Go), Act(0, Go)]
  }

  /** The queue after an undisturbed push. */
  function Pushed(wrap: bool, w: nat, Q: Queue, x: Item): Queue
    requires w > 0 && |Q.buffer| > 0
  {
    Q.(tail := N(wrap, w, Q.tail + 1), buffer := Write(Q.buffer, Q.tail, Held(x)))
  }

  lemma PushLoads(wrap: bool, l: Ledger, O: Queue, p: Agent, x: Item)
    requires l.w > 0 && |O.buffer| == O.cap > 0 && AgentTyped(1, p) && N(wrap, l.w, O.tail - O.stealer) <= O.cap - 1
    ensures Leads(wrap, Pair(l, O, Room1(0, ToPush(x)), p), Act(0, Go), Pair(l, O, Room2(0, ToPush(x), O.stealer), p))
    ensures Leads(wrap, Pair(l, O, Room2(0, ToPush(x), O.stealer), p), Act(0, Go), Pair(l, O, PushWrite(Reserve(0, O.tail, O.stealer), x), p))
  {
  }

  lemma PushStores(wrap: bool, l: Ledger, O: Queue, p: Agent, x: Item, r: Reserve, F: Queue, P: Queue)
    requires l.w > 0 && |O.buffer| == O.cap > 0 && AgentTyped(1, p) && r.q == 0 && Cell(O.buffer, r.tail).Vacant?
    requires F == O.(buffer := Write(O.buffer, r.tail, Held(x)), ahead := O.ahead + 1)
    requires P == Published(F, N(wrap, l.w, r.tail + 1))
    ensures Leads(wrap, Pair(l, O, PushWrite(r, x), p), Act(0, Go), Pair(l.(pushed := l.pushed + multiset{x}), F, PushStore(r), p))
    ensures Leads(wrap, Pair(l.(pushed := l.pushed + multiset{x}), F, PushStore(r), p), Act(0, Go), Pair(l.(pushed := l.pushed + multiset{x}), P, Idle, p))
  {
  }

  lemma PushOccupied(wrap: bool, l: Ledger, Q: Queue, p: Agent, x: Item, O: Queue, F: Queue, P: Queue, r: Reserve)
    requires l.w > 0 && Plain(Q) && AgentTyped(1, p) && r.q == 0
    requires O == Q.(owner := Some(0)) && F == O.(buffer := F.buffer, ahead := F.ahead) && |F.buffer| == |P.buffer| == P.cap == Q.cap
    requires Nonempty(wrap, l.w, Q) && Nonempty(wrap, l.w, P)
    ensures Occupied(wrap, Pair(l, Q, Idle, p)) && Occupied(wrap, Pair(l, O, Room1(0, ToPush(x)), p))
    ensures Occupied(wrap, Pair(l, O, Room2(0, ToPush(x), O.stealer), p)) && Occupied(wrap, Pair(l, O, PushWrite(r, x), p))
    ensures Occupied(wrap, Pair(l.(pushed := l.pushed + multiset{x}), F, PushStore(r), p))
    ensures Occupied(wrap, Pair(l.(pushed := l.pushed + multiset{x}), P, Idle, p))
  {
  }

  /** An owner's push that nobody disturbs. */
  lemma SoloPush(wrap: bool, l: Ledger, Q: Queue, p: Agent, x: Item, acts: seq<Act>)
    requires l.w > 0 && Plain(Q) && AgentTyped(1, p) && acts == PushActs(x)
    requires N(wrap, l.w, Q.tail - Q.stealer) <= Q.cap - 1 && Cell(Q.buffer, Q.tail).Vacant?
    ensures Reaches(wrap, Pair(l, Q, Idle, p), acts, Pair(l.(pushed := l.pushed + multiset{x}), Pushed(wrap, l.w, Q, x), Idle, p),
                    Nonempty(wrap, l.w, Q) && Nonempty(wrap, l.w, Pushed(wrap, l.w, Q, x)))
  {
    var r := Reserve(0, Q.tail, Q.stealer);
    var O := Q.(owner := Some(0));
    var F := O.(buffer := Write(Q.buffer, Q.tail, Held(x)), ahead := Q.ahead + 1);
    var P := Pushed(wrap, l.w, Q, x);
    var l' := l.(pushed := l.pushed + multiset{x});
    Begins(wrap, l, Q, p, StartPush(0, x), Room1(0, ToPush(x)));
    PushLoads(wrap, l, O, p, x);
    PushStores(wrap, l, O, p, x, r, F, P);
    if Nonempty(wrap, l.w, Q) && Nonempty(wrap, l.w, P) { PushOccupied(wrap, l, Q, p, x, O, F, P, r); }
    Five(wrap, Pair(l, Q, Idle, p), Pair(l, O, Room1(0, ToPush(x)), p), Pair(l, O, Room2(0, ToPush(x), O.stealer), p),
         Pair(l, O, PushWrite(r, x), p), Pair(l', F, PushStore(r), p), Pair(l', P, Idle, p), acts);
  }

  function PopActs(): seq<Act> {
    [Act(0, StartPop(0)), Act(0, Go), Act(0, Go), Act(0, Go), Act(0, Go)]
  }

  /** The queue after an undisturbed pop. */
  function Popped(wrap: bool, w: nat, Q: Queue): Queue
    requires w > 0 && |Q.buffer| > 0
  {
    var next := N(wrap, w, Q.worker + 1);
    Q.(worker := next, stealer := next, buffer := Write(Q.buffer, Q.worker, Vacant))
  }

  lemma PopLoads(wrap: bool, l: Ledger, O: Queue, p: Agent)
    requires l.w > 0 && |O.buffer| == O.cap > 0 && AgentTyped(1, p) && O.tail != O.worker
    ensures Leads(wrap, Pair(l, O, Pop1(0), p), Act(0, Go), Pair(l, O, Pop2(0, O.worker, O.stealer), p))
    ensures Leads(wrap, Pair(l, O, Pop2(0, O.worker, O.stealer), p), Act(0, Go), Pair(l, O, Pop3(0, O.worker, O.stealer), p))
  {
  }

  lemma PopTakes(wrap: bool, l: Ledger, O: Queue, p: Agent, x: Item, C: Queue, P: Queue)
    requires l.w > 0 && |O.buffer| == O.cap > 0 && AgentTyped(1, p) && O.stealer == O.worker && Cell(O.buffer, O.worker) == Held(x)
    requires C == O.(worker := N(wrap, l.w, O.worker + 1), stealer := N(wrap, l.w, O.worker + 1), reading := Some(O.worker))
    requires P == Vacate(C, O.worker).(reading := None, owner := None)
    ensures Leads(wrap, Pair(l, O, Pop3(0, O.worker, O.stealer), p), Act(0, Go), Pair(l, C, Pop4(0, O.worker), p))
    ensures Leads(wrap, Pair(l, C, Pop4(0, O.worker), p), Act(0, Go), Pair(l.(consumed := l.consumed + multiset{x}), P, Idle, p))
  {
  }

  lemma PopOccupied(wrap: bool, l: Ledger, Q: Queue, p: Agent, x: Item, O: Queue, C: Queue, P: Queue)
    requires l.w > 0 && Plain(Q) && AgentTyped(1, p)
    requires O == Q.(owner := Some(0)) && C == O.(worker := P.worker, stealer := P.stealer, reading := C.reading)
    requires P.tail == Q.tail && P.cap == Q.cap == |P.buffer| && Nonempty(wrap, l.w, Q) && Nonempty(wrap, l.w, P)
    ensures Occupied(wrap, Pair(l, Q, Idle, p)) && Occupied(wrap, Pair(l, O, Pop1(0), p))
    ensures Occupied(wrap, Pair(l, O, Pop2(0, O.worker, O.stealer), p)) && Occupied(wrap, Pair(l, O, Pop3(0, O.worker, O.stealer), p))
    ensures Occupied(wrap, Pair(l, C, Pop4(0, O.worker), p)) && Occupied(wrap, Pair(l.(consumed := l.consumed + multiset{x}), P, Idle, p))
  {
  }

  /** An owner's pop that nobody disturbs. */
  lemma SoloPop(wrap: bool, l: Ledger, Q: Queue, p: Agent, x: Item, acts: seq<Act>)
    requires l.w > 0 && Plain(Q) && AgentTyped(1, p) && acts == PopActs() && Q.tail != Q.worker && Cell(Q.buffer, Q.worker) == Held(x)
    ensures Reaches(wrap, Pair(l, Q, Idle, p), acts, Pair(l.(consumed := l.consumed + multiset{x}), Popped(wrap, l.w, Q), Idle, p),
                    Nonempty(wrap, l.w, Q) && Nonempty(wrap, l.w, Popped(wrap, l.w, Q)))
  {
    var O := Q.(owner := Some(0));
    var next := N(wrap, l.w, Q.worker + 1);
    var C := O.(worker := next, stealer := next, reading := Some(Q.worker));
    var P := Popped(wrap, l.w, Q);
    Begins(wrap, l, Q, p, StartPop(0), Pop1(0));
    PopLoads(wrap, l, O, p);
    PopTakes(wrap, l, O, p, x, C, P);
    if Nonempty(wrap, l.w, Q) && Nonempty(wrap, l.w, P) { PopOccupied(wrap, l, Q, p, x, O, C, P); }
    Five(wrap, Pair(l, Q, Idle, p), Pair(l, O, Pop1(0), p), Pair(l, O, Pop2(0, O.worker, O.stealer), p),
         Pair(l, O, Pop3(0, O.worker, O.stealer), p), Pair(l, C, Pop4(0, O.worker), p),
         Pair(l.(consumed := l.consumed + multiset{x}), P, Idle, p), acts);
  }

  /** Agent 1 starts to drain and loads the heads. */
  function LoadActs(): seq<Act> { [Act(1, StartDrain(0)), Act(1, Go)] }

  lemma SoloLoad(wrap: bool, l: Ledger, Q: Queue, acts: seq<Act>)
    requires l.w > 0 && Plain(Q) && acts == LoadActs()
    ensures Reaches(wrap, Pair(l, Q, Idle, Idle), acts, Pair(l, Q, Idle, Book2(0, Consumer, Q.worker, Q.worker, Q.stealer)), Nonempty(wrap, l.w, Q))
  {
    var s0, s1, s2 := Pair(l, Q, Idle, Idle), Pair(l, Q, Idle, Book1(0, Consumer)), Pair(l, Q, Idle, Book2(0, Consumer, Q.worker, Q.worker, Q.stealer));
    assert Leads(wrap, s0, acts[0], s1) && Leads(wrap, s1, acts[1], s2);
    TrailEnds(wrap, [s0, s1, s2], acts);
  }

  /** Two parts of a run, one after the other. */
  lemma Then(wrap: bool, s: State, acts: seq<Act>, s': State, more: seq<Act>, s'': State, busy: bool)
    requires Reaches(wrap, s, acts, s', busy) && Reaches(wrap, s', more, s'', busy)
    ensures Reaches(wrap, s, acts + more, s'', busy)
  {
    RunJoined(wrap, s, acts, more);
    if busy { Joined(wrap, s, acts, more); }
  }

  /** A ring of two, as sequence. */
  lemma RingOfTwo(b: seq<Slot>, p: int, i: nat, slot: Slot)
    requires |b| == 2 && i < 2 && (p == i || p == i + 2)
    ensures Cell(b, p) == b[i] && Write(b, p, slot) == b[i := slot]
  {
    ModUnique(p, 2, if p == i then 0 else 1, i);
  }
}
