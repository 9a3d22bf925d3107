/** Runs of one LIFO queue with two agents, on words and on unbounded counters alike: agent 0 is
    the owner, and agent 1 drains. */
module LifoRuns {
  import opened Words
  import opened Ring
  import opened LifoMachine

  /** How many items the deque holds, by the counters. */
  function Len(wrap: bool, w: nat, push: int, pop: int, booked: int): int
    requires w > 0
  {
    N(wrap, w, N(wrap, w, push - pop) - booked)
  }

  predicate Nonempty(wrap: bool, w: nat, Q: Queue) {
    w > 0 && Len(wrap, w, Q.pushCount, Q.popCount, Q.booked) > 0
  }

  ghost predicate Occupied(wrap: bool, s: State) {
    Typed(s) && |s.queues| > 0 && Nonempty(wrap, s.w, s.queues[0])
  }

  /** The first queue holds an item at every state of the run, first and last included. */
  ghost predicate NeverEmpty(wrap: bool, s: State, acts: seq<Act>) {
    forall k :: 0 <= k <= |acts| ==> Occupied(wrap, Run(wrap, s, acts[..k]))
  }

  lemma {:induction false} RunJoined(wrap: bool, s: State, acts: seq<Act>, more: seq<Act>)
    requires Typed(Run(wrap, s, acts))
    ensures Run(wrap, s, acts + more) == Run(wrap, Run(wrap, s, acts), more)
    decreases |acts|
  {
    if acts == [] {
      assert acts + more == more;
    } else if Typed(s) {
      assert (acts + more)[1..] == acts[1..] + more && (acts + more)[0] == acts[0];
      if acts[0].agent < |s.agents| {
        RunJoined(wrap, Step(wrap, s, acts[0].agent, acts[0].input), acts[1..], more);
      } else {
        RunJoined(wrap, s, acts[1..], more);
      }
    }
  }

  lemma Joined(wrap: bool, s: State, acts: seq<Act>, more: seq<Act>)
    requires NeverEmpty(wrap, s, acts) && NeverEmpty(wrap, Run(wrap, s, acts), more)
    ensures NeverEmpty(wrap, s, acts + more)
  {
    assert acts[..|acts|] == acts;
    forall k | 0 <= k <= |acts + more| ensures Occupied(wrap, Run(wrap, s, (acts + more)[..k])) {
      if k <= |acts| {
        assert (acts + more)[..k] == acts[..k];
      } else {
        assert (acts + more)[..k] == acts + more[..k - |acts|];
        RunJoined(wrap, s, acts, more[..k - |acts|]);
      }
    }
  }

  /** The run leads from `s` to `s'`, and if `busy` the queue is occupied all along. */
  ghost predicate Reaches(wrap: bool, s: State, acts: seq<Act>, s': State, busy: bool) {
    Run(wrap, s, acts) == s' && Typed(s') && (busy ==> NeverEmpty(wrap, s, acts))
  }

  /** One step leads from `s` to `s'`. */
  ghost predicate Leads(wrap: bool, s: State, act: Act, s': State) {
    Typed(s) && act.agent < |s.agents| && Step(wrap, s, act.agent, act.input) == s'
  }

  lemma Single(wrap: bool, s: State, act: Act, s': State)
    requires Leads(wrap, s, act, s')
    ensures Run(wrap, s, [act]) == s'
  {
    assert [act][1..] == [];
  }

  /** A trail of states, each led to by the next act. */
  ghost predicate Trail(wrap: bool, trail: seq<State>, acts: seq<Act>) {
    |trail| == |acts| + 1 && forall k :: 0 <= k < |acts| ==> Leads(wrap, trail[k], acts[k], trail[k + 1])
  }

  lemma {:induction false} TrailRuns(wrap: bool, trail: seq<State>, acts: seq<Act>, k: nat)
    requires Trail(wrap, trail, acts) && k <= |acts|
    ensures Run(wrap, trail[0], acts[..k]) == trail[k]
  {
    if k > 0 {
      TrailRuns(wrap, trail, acts, k - 1);
      assert acts[..k] == acts[..k - 1] + [acts[k - 1]];
      assert Leads(wrap, trail[k - 1], acts[k - 1], trail[k - 1 + 1]);
      Single(wrap, trail[k - 1], acts[k - 1], trail[k]);
      RunJoined(wrap, trail[0], acts[..k - 1], [acts[k - 1]]);
    }
  }

  lemma TrailEnds(wrap: bool, trail: seq<State>, acts: seq<Act>)
    requires Trail(wrap, trail, acts)
    ensures Run(wrap, trail[0], acts) == trail[|acts|]
    ensures (forall k :: 0 <= k <= |acts| ==> Occupied(wrap, trail[k])) ==> NeverEmpty(wrap, trail[0], acts)
  {
    TrailRuns(wrap, trail, acts, |acts|);
    assert acts[..|acts|] == acts;
    forall k | 0 <= k <= |acts| ensures Run(wrap, trail[0], acts[..k]) == trail[k] {
      TrailRuns(wrap, trail, acts, k);
    }
  }

  /** The outside of a pair of agents at one queue: the word size and what went in and out. */
  datatype Ledger = Ledger(w: nat, pushed: multiset<Item>, consumed: multiset<Item>)

  function Pair(l: Ledger, Q: Queue, owner: Agent, other: Agent): State {
    State(l.w, [Q], [owner, other], l.pushed, l.consumed, false)
  }

  /** A queue that nobody owns, whose ring is as large as it says. */
  predicate Plain(Q: Queue) {
    |Q.buffer| == Q.cap > 0 && Q.owner.None? && Q.ahead == 0
  }

  function TailWord(wrap: bool, w: nat, Q: Queue): int
    requires w > 0
  {
    N(wrap, w, Q.pushCount - Q.popCount)
  }

  /** A push finds room in its words and a vacant slot. */
  predicate HasRoom(wrap: bool, w: nat, Q: Queue)
    requires w > 0 && |Q.buffer| > 0
  {
    N(wrap, w, TailWord(wrap, w, Q) - Q.head) <= Q.cap - 1 && Cell(Q.buffer, TailWord(wrap, w, Q)).Vacant?
  }

  function PushActs(x: Item): seq<Act> {
    [Act(0, StartPush(0, x)), Act(0, Go), Act(0, Go), Act(0, Go), Act(0, Go), Act(0, Go)]
  }

  /** The queue after an undisturbed push. */
  function Pushed(wrap: bool, w: nat, Q: Queue, x: Item): Queue
    requires w > 0 && |Q.buffer| > 0
  {
    Q.(pushCount := N(wrap, w, Q.pushCount + 1), buffer := Write(Q.buffer, TailWord(wrap, w, Q), Held(x)))
  }

  /** A push that has computed the tail `t`. */
  lemma PushLoads(wrap: bool, l: Ledger, O: Queue, p: Agent, x: Item, t: int)
    requires l.w > 0 && |O.buffer| == O.cap > 0 && AgentTyped(1, p) && t == TailWord(wrap, l.w, O)
    requires N(wrap, l.w, t - O.head) <= O.cap - 1
    ensures Leads(wrap, Pair(l, O, Tail1(0, ToPush(x)), p), Act(0, Go), Pair(l, O, Tail2(0, ToPush(x), O.pushCount), p))
    ensures Leads(wrap, Pair(l, O, Tail2(0, ToPush(x), O.pushCount), p), Act(0, Go), Pair(l, O, Tail3(0, ToPush(x), O.pushCount, O.popCount, t), p))
    ensures Leads(wrap, Pair(l, O, Tail3(0, ToPush(x), O.pushCount, O.popCount, t), p), Act(0, Go),
                  Pair(l, O, PushWrite(Reserve(0, O.pushCount, O.popCount, t, O.head), x), p))
  {
  }

  lemma PushStores(wrap: bool, l: Ledger, O: Queue, p: Agent, x: Item, r: Reserve, F: Queue, P: Queue)
    requires l.w > 0 && |O.buffer| == O.cap > 0 && AgentTyped(1, p) && r.q == 0 && Cell(O.buffer, r.tail).Vacant?
    requires F == O.(buffer := Write(O.buffer, r.tail, Held(x)), ahead := O.ahead + 1)
    requires P == Published(F, N(wrap, l.w, r.push + 1))
    ensures Leads(wrap, Pair(l, O, PushWrite(r, x), p), Act(0, Go), Pair(l.(pushed := l.pushed + multiset{x}), F, PushStore(r), p))
    ensures Leads(wrap, Pair(l.(pushed := l.pushed + multiset{x}), F, PushStore(r), p), Act(0, Go), Pair(l.(pushed := l.pushed + multiset{x}), P, Idle, p))
  {
  }

  /** Taking the owner side. */
  lemma Begins(wrap: bool, l: Ledger, Q: Queue, p: Agent, i: Input, pc: Agent)
    requires l.w > 0 && Plain(Q) && AgentTyped(1, p)
    requires (exists x :: i == StartPush(0, x) && pc == Tail1(0, ToPush(x))) || (i == StartPop(0) && pc == Pop1(0))
    ensures Leads(wrap, Pair(l, Q, Idle, p), Act(0, i), Pair(l, Q.(owner := Some(0)), pc, p))
  {
  }

  /** A run of steps, one by one; if the queue is occupied at each state, it is never empty. */
  lemma Six(wrap: bool, s0: State, s1: State, s2: State, s3: State, s4: State, s5: State, s6: State, acts: seq<Act>)
    requires |acts| == 6
    requires Leads(wrap, s0, acts[0], s1) && Leads(wrap, s1, acts[1], s2) && Leads(wrap, s2, acts[2], s3)
    requires Leads(wrap, s3, acts[3], s4) && Leads(wrap, s4, acts[4], s5) && Leads(wrap, s5, acts[5], s6)
    ensures Run(wrap, s0, acts) == s6
    ensures (&& Occupied(wrap, s0) && Occupied(wrap, s1) && Occupied(wrap, s2) && Occupied(wrap, s3)
             && Occupied(wrap, s4) && Occupied(wrap, s5) && Occupied(wrap, s6)) ==> NeverEmpty(wrap, s0, acts)
  {
    TrailEnds(wrap, [s0, s1, s2, s3, s4, s5, s6], acts);
  }

  lemma Five(wrap: bool, s0: State, s1: State, s2: State, s3: State, s4: State, s5: State, acts: seq<Act>)
    requires |acts| == 5
    requires Leads(wrap, s0, acts[0], s1) && Leads(wrap, s1, acts[1], s2) && Leads(wrap, s2, acts[2], s3)
    requires Leads(wrap, s3, acts[3], s4) && Leads(wrap, s4, acts[4], s5)
    ensures Run(wrap, s0, acts) == s5
    ensures (&& Occupied(wrap, s0) && Occupied(wrap, s1) && Occupied(wrap, s2) && Occupied(wrap, s3)
             && Occupied(wrap, s4) && Occupied(wrap, s5)) ==> NeverEmpty(wrap, s0, acts)
  {
    TrailEnds(wrap, [s0, s1, s2, s3, s4, s5], acts);
  }

  lemma Three(wrap: bool, s0: State, s1: State, s2: State, s3: State, acts: seq<Act>)
    requires |acts| == 3
    requires Leads(wrap, s0, acts[0], s1) && Leads(wrap, s1, acts[1], s2) && Leads(wrap, s2, acts[2], s3)
    ensures Run(wrap, s0, acts) == s3
    ensures Occupied(wrap, s0) && Occupied(wrap, s1) && Occupied(wrap, s2) && Occupied(wrap, s3) ==> NeverEmpty(wrap, s0, acts)
  {
    TrailEnds(wrap, [s0, s1, s2, s3], acts);
  }

  lemma ThreeReach(wrap: bool, s0: State, s1: State, s2: State, s3: State, acts: seq<Act>)
    requires |acts| == 3 && Typed(s3)
    requires Leads(wrap, s0, acts[0], s1) && Leads(wrap, s1, acts[1], s2) && Leads(wrap, s2, acts[2], s3)
    ensures Reaches(wrap, s0, acts, s3, false)
  {
    Three(wrap, s0, s1, s2, s3, acts);
  }

  /** An owner's push that nobody disturbs. */
  lemma SoloPush(wrap: bool, l: Ledger, Q: Queue, p: Agent, x: Item, acts: seq<Act>)
    requires l.w > 0 && Plain(Q) && HasRoom(wrap, l.w, Q) && AgentTyped(1, p) && acts == PushActs(x)
    ensures Reaches(wrap, Pair(l, Q, Idle, p), acts, Pair(l.(pushed := l.pushed + multiset{x}), Pushed(wrap, l.w, Q, x), Idle, p),
                    Nonempty(wrap, l.w, Q) && Nonempty(wrap, l.w, Pushed(wrap, l.w, Q, x)))
  {
    var t := TailWord(wrap, l.w, Q);
    var r := Reserve(0, Q.pushCount, Q.popCount, t, Q.head);
    var O := Q.(owner := Some(0));
    var F := O.(buffer := Write(Q.buffer, t, Held(x)), ahead := Q.ahead + 1);
    var P := Pushed(wrap, l.w, Q, x);
    var l' := l.(pushed := l.pushed + multiset{x});
    var s1, s2 := Pair(l, O, Tail1(0, ToPush(x)), p), Pair(l, O, Tail2(0, ToPush(x), Q.pushCount), p);
    var s3, s4 := Pair(l, O, Tail3(0, ToPush(x), Q.pushCount, Q.popCount, t), p), Pair(l, O, PushWrite(r, x), p);
    var s5, s6 := Pair(l', F, PushStore(r), p), Pair(l', P, Idle, p);
    Begins(wrap, l, Q, p, StartPush(0, x), Tail1(0, ToPush(x)));
    PushLoads(wrap, l, O, p, x, t);
    PushStores(wrap, l, O, p, x, r, F, P);
    if Nonempty(wrap, l.w, Q) && Nonempty(wrap, l.w, P) { PushOccupied(wrap, l, Q, p, x, O, F, P, r, t); }
    Six(wrap, Pair(l, Q, Idle, p), s1, s2, s3, s4, s5, s6, acts);
  }

  lemma PushOccupied(wrap: bool, l: Ledger, Q: Queue, p: Agent, x: Item, O: Queue, F: Queue, P: Queue, r: Reserve, t: int)
    requires l.w > 0 && Plain(Q) && AgentTyped(1, p) && r.q == 0
    requires O == Q.(owner := Some(0)) && F == O.(buffer := F.buffer, ahead := F.ahead) && |F.buffer| == |P.buffer| == P.cap == Q.cap
    requires Nonempty(wrap, l.w, Q) && Nonempty(wrap, l.w, P)
    ensures Occupied(wrap, Pair(l, Q, Idle, p)) && Occupied(wrap, Pair(l, O, Tail1(0, ToPush(x)), p))
    ensures Occupied(wrap, Pair(l, O, Tail2(0, ToPush(x), Q.pushCount), p))
    ensures Occupied(wrap, Pair(l, O, Tail3(0, ToPush(x), Q.pushCount, Q.popCount, t), p)) && Occupied(wrap, Pair(l, O, PushWrite(r, x), p))
    ensures Occupied(wrap, Pair(l.(pushed := l.pushed + multiset{x}), F, PushStore(r), p))
    ensures Occupied(wrap, Pair(l.(pushed := l.pushed + multiset{x}), P, Idle, p))
  {
  }

  predicate HasItem(wrap: bool, w: nat, Q: Queue, x: Item)
    requires w > 0 && |Q.buffer| > 0
  {
    TailWord(wrap, w, Q) != Q.booked && Cell(Q.buffer, N(wrap, w, TailWord(wrap, w, Q) - 1)) == Held(x)
  }

  function PopActs(): seq<Act> {
    [Act(0, StartPop(0)), Act(0, Go), Act(0, Go), Act(0, Go), Act(0, Go)]
  }

  /** The queue after an undisturbed pop. */
  function Popped(wrap: bool, w: nat, Q: Queue): Queue
    requires w > 0 && |Q.buffer| > 0
  {
    Q.(popCount := N(wrap, w, Q.popCount + 1), buffer := Write(Q.buffer, N(wrap, w, TailWord(wrap, w, Q) - 1), Vacant))
  }

  lemma PopLoads(wrap: bool, l: Ledger, O: Queue, p: Agent, t: int)
    requires l.w > 0 && |O.buffer| == O.cap > 0 && AgentTyped(1, p) && t == TailWord(wrap, l.w, O)
    ensures Leads(wrap, Pair(l, O, Pop1(0), p), Act(0, Go), Pair(l, O, Pop2(0, O.popCount, O.booked), p))
    ensures Leads(wrap, Pair(l, O, Pop2(0, O.popCount, O.booked), p), Act(0, Go), Pair(l, O, Pop3(0, O.popCount, O.popCount, O.booked, t), p))
  {
  }

  lemma PopTakes(wrap: bool, l: Ledger, O: Queue, p: Agent, x: Item, t: int, C: Queue, pos: int, P: Queue)
    requires l.w > 0 && |O.buffer| == O.cap > 0 && AgentTyped(1, p) && t != O.booked
    requires pos == N(wrap, l.w, t - 1) && Cell(O.buffer, pos) == Held(x)
    requires C == O.(popCount := N(wrap, l.w, O.popCount + 1), ahead := 1)
    requires P == Vacate(C, pos).(ahead := 0, owner := None)
    ensures Leads(wrap, Pair(l, O, Pop3(0, O.popCount, O.popCount, O.booked, t), p), Act(0, Go), Pair(l, C, Pop4(0, pos), p))
    ensures Leads(wrap, Pair(l, C, Pop4(0, pos), p), Act(0, Go), Pair(l.(consumed := l.consumed + multiset{x}), P, Idle, p))
  {
  }

  lemma PopOccupied(wrap: bool, l: Ledger, Q: Queue, p: Agent, x: Item, O: Queue, C: Queue, P: Queue, t: int, pos: int)
    requires l.w > 0 && Plain(Q) && AgentTyped(1, p)
    requires O == Q.(owner := Some(0)) && C == O.(popCount := P.popCount, ahead := 1) && P == Q.(popCount := P.popCount, buffer := P.buffer)
    requires |P.buffer| == Q.cap && Nonempty(wrap, l.w, Q) && Nonempty(wrap, l.w, P)
    ensures Occupied(wrap, Pair(l, Q, Idle, p)) && Occupied(wrap, Pair(l, O, Pop1(0), p))
    ensures Occupied(wrap, Pair(l, O, Pop2(0, O.popCount, O.booked), p)) && Occupied(wrap, Pair(l, O, Pop3(0, O.popCount, O.popCount, O.booked, t), p))
    ensures Occupied(wrap, Pair(l, C, Pop4(0, pos), p)) && Occupied(wrap, Pair(l.(consumed := l.consumed + multiset{x}), P, Idle, p))
  {
  }

  /** An owner's pop that nobody disturbs. The item leaves the deque one step before it leaves
      its slot. */
  lemma SoloPop(wrap: bool, l: Ledger, Q: Queue, p: Agent, x: Item, acts: seq<Act>)
    requires l.w > 0 && Plain(Q) && HasItem(wrap, l.w, Q, x) && AgentTyped(1, p) && acts == PopActs()
    ensures Reaches(wrap, Pair(l, Q, Idle, p), acts, Pair(l.(consumed := l.consumed + multiset{x}), Popped(wrap, l.w, Q), Idle, p),
                    Nonempty(wrap, l.w, Q) && Nonempty(wrap, l.w, Popped(wrap, l.w, Q)))
  {
    var t := TailWord(wrap, l.w, Q);
    var pos := N(wrap, l.w, t - 1);
    var O := Q.(owner := Some(0));
    var C := O.(popCount := N(wrap, l.w, Q.popCount + 1), ahead := 1);
    var P := Popped(wrap, l.w, Q);
    Begins(wrap, l, Q, p, StartPop(0), Pop1(0));
    PopLoads(wrap, l, O, p, t);
    PopTakes(wrap, l, O, p, x, t, C, pos, P);
    if Nonempty(wrap, l.w, Q) && Nonempty(wrap, l.w, P) { PopOccupied(wrap, l, Q, p, x, O, C, P, t, pos); }
    Five(wrap, Pair(l, Q, Idle, p), Pair(l, O, Pop1(0), p), Pair(l, O, Pop2(0, O.popCount, O.booked), p),
         Pair(l, O, Pop3(0, O.popCount, O.popCount, O.booked, t), p), Pair(l, C, Pop4(0, pos), p),
         Pair(l.(consumed := l.consumed + multiset{x}), P, Idle, p), acts);
  }

  /** Agent 1 starts to drain and loads its words. */
  function LoadActs(): seq<Act> { [Act(1, StartDrain(0)), Act(1, Go), Act(1, Go)] }

  function Loaded(Q: Queue): Agent {
    Book3(0, Consumer, Stamp(Q.popCount, Q.booked), Q.popCount, Q.booked, Q.head)
  }

  lemma SoloLoad(wrap: bool, l: Ledger, Q: Queue, acts: seq<Act>)
    requires l.w > 0 && Plain(Q) && acts == LoadActs()
    ensures Reaches(wrap, Pair(l, Q, Idle, Idle), acts, Pair(l, Q, Idle, Loaded(Q)), Nonempty(wrap, l.w, Q))
  {
    Three(wrap, Pair(l, Q, Idle, Idle), Pair(l, Q, Idle, Book1(0, Consumer)),
          Pair(l, Q, Idle, Book2(0, Consumer, Stamp(Q.popCount, Q.booked), Q.popCount, Q.booked)), Pair(l, Q, Idle, Loaded(Q)), acts);
  }

  /** Two parts of a run, one after the other. */
  lemma Then(wrap: bool, s: State, acts: seq<Act>, s': State, more: seq<Act>, s'': State, busy: bool)
    requires Reaches(wrap, s, acts, s', busy) && Reaches(wrap, s', more, s'', busy)
    ensures Reaches(wrap, s, acts + more, s'', busy)
  {
    RunJoined(wrap, s, acts, more);
    if busy { Joined(wrap, s, acts, more); }
  }

  /** A ring of two, as sequence. */
  lemma RingOfTwo(b: seq<Slot>, p: int, slot: Slot)
    requires |b| == 2 && 0 <= p < 2
    ensures Cell(b, p) == b[p] && Write(b, p, slot) == b[p := slot]
  {
    ModSmall(p, 2);
  }
}
