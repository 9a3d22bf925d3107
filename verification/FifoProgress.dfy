/** No call on the FIFO queue waits for another: run alone, from whatever state others have left,
    each ends within a number of its own steps that the capacities bound. */
module FifoProgress {
  import opened Words
  import opened Ring
  import opened FifoMachine
  import opened FifoSafety
  import FifoCalls

  /** The heads that a call holds are current. */
  predicate Current(Q: Queue, worker: int, stealer: int) { Q.worker == worker && Q.stealer == stealer }

  /** How many of its own steps a call that runs alone is from its end. */
  function Rank(queues: seq<Queue>, pc: Agent): int
    requires AgentTyped(|queues|, pc)
  {
    match pc
    case Idle => 0
    case Room1(q, goal) => Need(queues, q, goal) + 1
    case Room2(q, goal, _) => Need(queues, q, goal)
    case Dest1(_, src, _) => 2 * queues[src].cap + 10
    case Dest2(_, src, _, _) => 2 * queues[src].cap + 9
    case Empty1(_) => 2
    case Empty2(_, _) => 1
    case PushWrite(_, _) => 2
    case PushStore(_) => 1
    case Extend(r, n) => 1 + r.head + queues[r.q].cap - (r.tail + n)
    case Book1(src, _) => 2 * queues[src].cap + 8
    case Book2(src, _, _, worker, stealer) => 2 * queues[src].cap + if Current(queues[src], worker, stealer) then 5 else 7
    case Book3(src, _, _, worker, stealer, _) => 2 * queues[src].cap + if Current(queues[src], worker, stealer) then 4 else 6
    case Take(m, k) => 2 * (m.count - k) + 3
    case Put(m, k, _) => 2 * (m.count - k) + 2
    case Publish(_) => 3
    case Done1(_) => 2
    case Done2(m, worker, stealer) => if Current(queues[m.src], worker, stealer) then 1 else 2
    case Pop1(_) => 4
    case Pop2(q, worker, stealer) => if Current(queues[q], worker, stealer) then 3 else 5
    case Pop3(q, worker, stealer) => if Current(queues[q], worker, stealer) then 2 else 4
    case Pop4(_, _) => 1
  }

  /** From the load of the tail on. */
  function Need(queues: seq<Queue>, q: nat, goal: Goal): int
    requires q < |queues|
  {
    match goal
    case ToPush(_) => 3
    case ToExtend => 2 + queues[q].cap
    case ToMeasure => 1
  }

  /** The call has ended, or a step of it brings it nearer to its end. */
  ghost predicate Nearer(queues: seq<Queue>, pc: Agent, e: Effect)
    requires AgentTyped(|queues|, pc)
  {
    match e
    case Stay => false
    case Fault => false
    case Local(pc') => AgentTyped(|queues|, pc') && 0 <= Rank(queues, pc') < Rank(queues, pc)
    case On(pc', q, Q', _, _) =>
      q < |queues| && AgentTyped(|queues|, pc') && 0 <= Rank(queues[q := Q'], pc') < Rank(queues, pc)
  }

  lemma RoomNearer(w: nat, queues: seq<Queue>, a: nat, pc: Agent, i: Input)
    requires QueuesInv(w, queues) && QueuesTyped(queues) && AgentInv(queues, a, pc) && AgentTyped(|queues|, pc) && !i.Flaky?
    requires pc.Room1? || pc.Room2? || pc.Extend?
    requires Good(w, queues, a, pc, Next(false, w, queues, a, pc, i))
    ensures Nearer(queues, pc, Next(false, w, queues, a, pc, i))
  {
  }

  lemma LoadNearer(w: nat, queues: seq<Queue>, a: nat, pc: Agent, i: Input)
    requires QueuesInv(w, queues) && QueuesTyped(queues) && AgentInv(queues, a, pc) && AgentTyped(|queues|, pc) && !i.Flaky?
    requires pc.Dest1? || pc.Dest2? || pc.Empty1? || pc.Empty2?
    requires Good(w, queues, a, pc, Next(false, w, queues, a, pc, i))
    ensures Nearer(queues, pc, Next(false, w, queues, a, pc, i))
  {
  }

  lemma PushNearer(w: nat, queues: seq<Queue>, a: nat, pc: Agent, i: Input)
    requires QueuesInv(w, queues) && QueuesTyped(queues) && AgentInv(queues, a, pc) && AgentTyped(|queues|, pc) && !i.Flaky?
    requires pc.PushWrite? || pc.PushStore? || pc.Publish? || pc.Done1? || pc.Done2?
    requires Good(w, queues, a, pc, Next(false, w, queues, a, pc, i))
    ensures Nearer(queues, pc, Next(false, w, queues, a, pc, i))
  {
  }

  lemma PopLoadNearer(w: nat, queues: seq<Queue>, a: nat, pc: Agent, i: Input)
    requires QueuesInv(w, queues) && QueuesTyped(queues) && AgentInv(queues, a, pc) && AgentTyped(|queues|, pc) && !i.Flaky?
    requires pc.Pop1? || pc.Pop2?
    requires Good(w, queues, a, pc, Next(false, w, queues, a, pc, i))
    ensures Nearer(queues, pc, Next(false, w, queues, a, pc, i))
  {
  }

  lemma PopTakeNearer(w: nat, queues: seq<Queue>, a: nat, pc: Agent, i: Input)
    requires QueuesInv(w, queues) && QueuesTyped(queues) && AgentInv(queues, a, pc) && AgentTyped(|queues|, pc) && !i.Flaky?
    requires pc.Pop3? || pc.Pop4?
    requires Good(w, queues, a, pc, Next(false, w, queues, a, pc, i))
    ensures Nearer(queues, pc, Next(false, w, queues, a, pc, i))
  {
  }

  lemma BookNearer(w: nat, queues: seq<Queue>, a: nat, pc: Agent, i: Input)
    requires QueuesInv(w, queues) && QueuesTyped(queues) && AgentInv(queues, a, pc) && AgentTyped(|queues|, pc)
    requires pc.Book1? || pc.Book2?
    requires Good(w, queues, a, pc, Next(false, w, queues, a, pc, i))
    ensures Nearer(queues, pc, Next(false, w, queues, a, pc, i))
  {
  }

  lemma CasNearer(w: nat, queues: seq<Queue>, a: nat, pc: Agent, i: Input)
    requires QueuesInv(w, queues) && QueuesTyped(queues) && AgentInv(queues, a, pc) && AgentTyped(|queues|, pc) && !i.Flaky?
    requires pc.Book3?
    ensures Nearer(queues, pc, Next(false, w, queues, a, pc, i))
  {
    BookIs(w, queues[pc.src], a, i, pc);
    assert QueueInv(w, queues[pc.src]);
  }

  lemma TakeNearer(w: nat, queues: seq<Queue>, a: nat, pc: Agent, i: Input)
    requires QueuesInv(w, queues) && QueuesTyped(queues) && AgentInv(queues, a, pc) && AgentTyped(|queues|, pc) && pc.Take?
    ensures Nearer(queues, pc, Next(false, w, queues, a, pc, i))
  {
    TakeIs(w, queues[pc.m.src], pc.m, pc.k);
  }

  lemma PutNearer(w: nat, queues: seq<Queue>, a: nat, pc: Agent, i: Input)
    requires QueuesInv(w, queues) && QueuesTyped(queues) && AgentInv(queues, a, pc) && AgentTyped(|queues|, pc) && pc.Put?
    ensures Nearer(queues, pc, Next(false, w, queues, a, pc, i))
  {
    FifoCalls.PutIs(w, queues, a, pc.m, pc.k, pc.item);
  }

  /** Every own step, spurious failures of a weak CAS apart, brings a call nearer to its end. */
  lemma StepNearer(w: nat, queues: seq<Queue>, a: nat, pc: Agent, i: Input)
    requires QueuesInv(w, queues) && QueuesTyped(queues) && AgentInv(queues, a, pc) && AgentTyped(|queues|, pc)
    requires !pc.Idle? && !i.Flaky?
    ensures Nearer(queues, pc, Next(false, w, queues, a, pc, i))
  {
    GoodNext(w, queues, a, pc, i);
    if pc.Room1? || pc.Room2? || pc.Extend? {
      RoomNearer(w, queues, a, pc, i);
    } else if pc.Dest1? || pc.Dest2? || pc.Empty1? || pc.Empty2? {
      LoadNearer(w, queues, a, pc, i);
    } else if pc.PushWrite? || pc.PushStore? || pc.Publish? || pc.Done1? || pc.Done2? {
      PushNearer(w, queues, a, pc, i);
    } else if pc.Pop1? || pc.Pop2? {
      PopLoadNearer(w, queues, a, pc, i);
    } else if pc.Pop3? || pc.Pop4? {
      PopTakeNearer(w, queues, a, pc, i);
    } else if pc.Book3? {
      CasNearer(w, queues, a, pc, i);
    } else if pc.Take? {
      TakeNearer(w, queues, a, pc, i);
    } else if pc.Put? {
      PutNearer(w, queues, a, pc, i);
    } else {
      BookNearer(w, queues, a, pc, i);
    }
  }

  /** The states through which steps of `a` alone lead, with these decisions of the environment. */
  ghost predicate Alone(a: nat, inputs: seq<Input>, trail: seq<State>) {
    0 < |trail| <= |inputs| + 1 && forall k :: 0 <= k < |trail| - 1 ==> Leads(trail[k], a, inputs[k], trail[k + 1])
  }

  ghost predicate Leads(s: State, a: nat, i: Input, s': State) {
    Typed(s) && a < |s.agents| && s' == Step(false, s, a, i)
  }

  lemma Prepend(a: nat, s: State, inputs: seq<Input>, trail: seq<State>)
    requires inputs != [] && Alone(a, inputs[1..], trail) && Leads(s, a, inputs[0], trail[0])
    ensures Alone(a, inputs, [s] + trail)
  {
    forall k | 0 <= k < |trail| ensures Leads(([s] + trail)[k], a, inputs[k], ([s] + trail)[k + 1]) {
      if k > 0 { assert Leads(trail[k - 1], a, inputs[1..][k - 1], trail[k - 1 + 1]); }
    }
  }

  predicate Within(s: State, a: nat, k: nat) {
    Typed(s) && a < |s.agents| && Rank(s.queues, s.agents[a]) <= k
  }

  lemma AloneNearer(s: State, a: nat, i: Input, k: nat) returns (s': State)
    requires Inv(s) && Within(s, a, k) && !s.agents[a].Idle? && !i.Flaky?
    ensures k > 0 && Inv(s') && Within(s', a, k - 1) && Leads(s, a, i, s')
  {
    var pc := s.agents[a];
    s' := Step(false, s, a, i);
    StepNearer(s.w, s.queues, a, pc, i);
    StepKeeps(s, a, i);
    InvTyped(s');
    ApplyNearer(s, a, Next(false, s.w, s.queues, a, pc, i), k);
  }

  lemma ApplyNearer(s: State, a: nat, e: Effect, k: nat)
    requires Within(s, a, k) && Nearer(s.queues, s.agents[a], e) && Typed(Apply(s, a, e))
    ensures k > 0 && Within(Apply(s, a, e), a, k - 1)
  {
  }

  lemma {:induction false} EndsWithin(s: State, a: nat, k: nat, inputs: seq<Input>) returns (trail: seq<State>)
    requires Inv(s) && Within(s, a, k) && |inputs| >= k && forall n :: 0 <= n < |inputs| ==> !inputs[n].Flaky?
    ensures Alone(a, inputs, trail) && trail[0] == s && |trail| <= k + 1
    ensures a < |trail[|trail| - 1].agents| && trail[|trail| - 1].agents[a].Idle?
    decreases k
  {
    if s.agents[a].Idle? {
      trail := [s];
    } else {
      NotIdle(s, a, k);
      var next := AloneNearer(s, a, inputs[0], k);
      var rest := EndsWithin(next, a, k - 1, inputs[1..]);
      Prepend(a, s, inputs, rest);
      trail := [s] + rest;
    }
  }

  lemma NotIdle(s: State, a: nat, k: nat)
    requires Inv(s) && Within(s, a, k) && !s.agents[a].Idle?
    ensures k > 0
  {
    StepNearer(s.w, s.queues, a, s.agents[a], Go);
  }

  /** The most steps of its own that a call needs, by the capacities of its queues. */
  function Bound(queues: seq<Queue>, pc: Agent): int
    requires AgentTyped(|queues|, pc)
  {
    match pc
    case Idle => 0
    case Room1(q, goal) => Need(queues, q, goal) + 2
    case Room2(q, goal, _) => Need(queues, q, goal) + 2
    case Dest1(_, src, _) => 2 * queues[src].cap + 11
    case Dest2(_, src, _, _) => 2 * queues[src].cap + 11
    case Extend(r, _) => queues[r.q].cap + 4
    case Book1(src, _) => 2 * queues[src].cap + 11
    case Book2(src, _, _, _, _) => 2 * queues[src].cap + 11
    case Book3(src, _, _, _, _, _) => 2 * queues[src].cap + 11
    case Take(m, _) => 2 * queues[m.src].cap + 11
    case Put(m, _, _) => 2 * queues[m.src].cap + 11
    case _ => 5
  }

  lemma RankBound(w: nat, queues: seq<Queue>, a: nat, pc: Agent)
    requires QueuesInv(w, queues) && QueuesTyped(queues) && AgentInv(queues, a, pc) && AgentTyped(|queues|, pc)
    ensures 0 <= Rank(queues, pc) <= Bound(queues, pc)
  {
    if pc.Take? || pc.Put? { assert QueueInv(w, queues[pc.m.src]); }
  }

  /** From every state that any schedule can lead to, and whatever the iterator and `count_fn`
      answer, a call that runs alone ends within the bound, spurious CAS failures apart. */
  lemma EndsAlone(s: State, a: nat, inputs: seq<Input>) returns (trail: seq<State>)
    requires Inv(s) && Typed(s) && a < |s.agents| && |inputs| >= Bound(s.queues, s.agents[a])
    requires forall n :: 0 <= n < |inputs| ==> !inputs[n].Flaky?
    ensures Alone(a, inputs, trail) && trail[0] == s && |trail| <= Bound(s.queues, s.agents[a]) + 1
    ensures a < |trail[|trail| - 1].agents| && trail[|trail| - 1].agents[a].Idle?
  {
    RankBound(s.w, s.queues, a, s.agents[a]);
    trail := EndsWithin(s, a, Bound(s.queues, s.agents[a]), inputs);
  }
}
