/** A sweep for work that comes back with nothing has looked at every other worker. */
module PoolSweep {
  import opened Words
  import opened PoolMachine
  import opened PoolSafety

  predicate Sweeping(ag: Agent) { ag.call.Ready? && ag.frame.In? && (ag.frame.pc.Steal? || ag.frame.pc.StealBook?) }

  /** The worker whose deque a step looks at. */
  function Looks(n: nat, ag: Agent): set<nat> {
    if Sweeping(ag) && ag.frame.pc.StealBook? && n > 0 then {Victim(n, ag.frame.pc.start, ag.frame.pc.off)} else {}
  }

  /** The worker at which a sweep from `start` looks in its turn `j`. */
  function Victim(n: nat, start: nat, j: nat): nat
    requires n > 0
  {
    (start + j) % n
  }

  /** The first `off` of them, `w` itself left out, are in `seen`. */
  ghost predicate Covers(n: nat, w: nat, start: nat, off: nat, seen: set<nat>) {
    n > 0 ==> forall j: nat :: j < off ==> Victim(n, start, j) == w || Victim(n, start, j) in seen
  }

  /** How far a sweep from `start` has come. */
  ghost predicate Swept(n: nat, w: nat, start: nat, ag: Agent, seen: set<nat>) {
    && ag.frame.In? && ag.frame.w == w
    && match ag.frame.pc
       case Steal(st, off, _) => st == start && off <= n && Covers(n, w, start, off, seen)
       case StealBook(st, off, _) => st == start && off < n && Covers(n, w, start, off, seen)
       case StealEnd(got, _) => got == 0 ==> n < 2 || Covers(n, w, start, n, seen)
       case _ => true
  }

  lemma CoversMore(n: nat, w: nat, start: nat, off: nat, seen: set<nat>, m: set<nat>)
    requires n > 0 && Covers(n, w, start, off, seen) && (Victim(n, start, off) == w || Victim(n, start, off) in m)
    ensures Covers(n, w, start, off + 1, seen + m)
  {
  }

  lemma ChooseStep(g: Global, workers: seq<Worker>, a: nat, ag: Agent, i: Input, start: nat, seen: set<nat>)
    requires Typed(|workers|, ag) && Sweeping(ag) && ag.frame.pc.Steal? && Swept(|workers|, ag.frame.w, start, ag, seen)
    ensures var e := Next(g, workers, a, ag, i);
      !e.Fault? && Swept(|workers|, ag.frame.w, start, e.ag, seen)
  {
    var n, off := |workers|, ag.frame.pc.off;
    assert seen + {} == seen;
    if off < n && Victim(n, start, off) == ag.frame.w { CoversMore(n, ag.frame.w, start, off, seen, {}); }
  }

  lemma LookStep(g: Global, workers: seq<Worker>, a: nat, ag: Agent, i: Input, start: nat, seen: set<nat>)
    requires Typed(|workers|, ag) && Sweeping(ag) && ag.frame.pc.StealBook? && Swept(|workers|, ag.frame.w, start, ag, seen)
    ensures var e := Next(g, workers, a, ag, i);
      !e.Fault? && Swept(|workers|, ag.frame.w, start, e.ag, seen + Looks(|workers|, ag))
  {
    var n, off := |workers|, ag.frame.pc.off;
    CoversMore(n, ag.frame.w, start, off, seen, {Victim(n, start, off)});
  }

  lemma SweepStep(g: Global, workers: seq<Worker>, a: nat, ag: Agent, i: Input, start: nat, seen: set<nat>)
    requires Typed(|workers|, ag) && Sweeping(ag) && Swept(|workers|, ag.frame.w, start, ag, seen)
    ensures var e := Next(g, workers, a, ag, i);
      !e.Fault? && Swept(|workers|, ag.frame.w, start, e.ag, seen + Looks(|workers|, ag))
  {
    if ag.frame.pc.Steal? {
      assert seen + {} == seen;
      ChooseStep(g, workers, a, ag, i, start, seen);
    } else {
      LookStep(g, workers, a, ag, i, start, seen);
    }
  }

  /** A steal takes the oldest jobs of a deque, at most half of it and of a batch, rounded up. */
  lemma LootIsHalf(g: Global, workers: seq<Worker>, a: nat, ag: Agent, i: Input)
    requires Typed(|workers|, ag) && Sweeping(ag) && ag.frame.pc.StealBook? && |workers| > 0
    ensures var e, V := Next(g, workers, a, ag, i), workers[Victim(|workers|, ag.frame.pc.start, ag.frame.pc.off)];
      && !e.Fault? && e.ag.frame.In?
      && (e.ag.frame.pc.StealPut? ==>
            && e.On? && e.w == Victim(|workers|, ag.frame.pc.start, ag.frame.pc.off) && e.ag.frame.pc.items != []
            && e.ag.frame.pc.items + e.W.deque == V.deque
            && 2 * |e.ag.frame.pc.items| <= |V.deque| + 1 && 2 * |e.ag.frame.pc.items| <= PULL_BATCH + 1)
  {
  }

  /** Every worker is some steps on from any start. */
  lemma Around(n: nat, start: nat, v: nat) returns (j: nat)
    requires v < n
    ensures j < n && Victim(n, start, j) == v
  {
    j := (v - start) % n;
    ModAdd(v - start, start, n);
    ModSmall(v, n);
  }

  predicate SweepsOn(s: State, acts: seq<Act>, a: nat)
    decreases |acts|
  {
    acts == [] ||
      (&& AllTyped(s) && a < |s.agents| && Sweeping(s.agents[a])
       && (if acts[0].agent < |s.agents| then SweepsOn(Step(s, acts[0].agent, acts[0].input), acts[1..], a) else SweepsOn(s, acts[1..], a)))
  }

  /** The workers whose deques `a` looks at along a schedule. */
  function LookedAt(s: State, acts: seq<Act>, a: nat): set<nat>
    decreases |acts|
  {
    if acts == [] || !AllTyped(s) then {}
    else if acts[0].agent < |s.agents| then
      (if acts[0].agent == a then Looks(|s.workers|, s.agents[a]) else {}) + LookedAt(Step(s, acts[0].agent, acts[0].input), acts[1..], a)
    else LookedAt(s, acts[1..], a)
  }

  /** The first act of a schedule leads to `s1`, and looks at `m`. */
  ghost predicate Turn(s: State, acts: seq<Act>, a: nat, s1: State, m: set<nat>) {
    && acts != [] && Inv(s1) && a < |s1.agents| && |s1.workers| == |s.workers|
    && Execute(s, acts) == Execute(s1, acts[1..])
    && SweepsOn(s1, acts[1..], a)
    && LookedAt(s, acts, a) == m + LookedAt(s1, acts[1..], a)
  }

  lemma TurnIs(s: State, acts: seq<Act>, a: nat)
    requires Inv(s) && AllTyped(s) && a < |s.agents| && acts != [] && SweepsOn(s, acts, a) && acts[0].agent < |s.agents|
    requires |Step(s, acts[0].agent, acts[0].input).agents| == |s.agents| && |Step(s, acts[0].agent, acts[0].input).workers| == |s.workers|
    ensures Turn(s, acts, a, Step(s, acts[0].agent, acts[0].input), if acts[0].agent == a then Looks(|s.workers|, s.agents[a]) else {})
  {
    StepKeeps(s, acts[0].agent, acts[0].input);
  }

  lemma NoTurn(s: State, acts: seq<Act>, a: nat)
    requires Inv(s) && AllTyped(s) && a < |s.agents| && acts != [] && SweepsOn(s, acts, a) && acts[0].agent >= |s.agents|
    ensures Turn(s, acts, a, s, {})
  {
    assert {} + LookedAt(s, acts[1..], a) == LookedAt(s, acts, a);
  }

  lemma StepOf(s: State, b: nat, i: Input)
    requires Inv(s) && AllTyped(s) && b < |s.agents|
    ensures var s', e := Step(s, b, i), Next(s.g, s.workers, b, s.agents[b], i);
      && !e.Fault? && |s'.agents| == |s.agents| && |s'.workers| == |s.workers| && s'.agents[b] == e.ag
      && forall c :: 0 <= c < |s.agents| && c != b ==> s'.agents[c] == s.agents[c]
  {
    GoodNext(s.g, s.workers, b, s.agents[b], i);
    ApplyKeepsRest(s, b, Next(s.g, s.workers, b, s.agents[b], i));
  }

  lemma ApplyKeepsRest(s: State, a: nat, e: Effect)
    requires a < |s.agents| && !e.Fault? && (e.On? ==> e.w < |s.workers|)
    ensures var s' := Apply(s, a, e);
      && |s'.agents| == |s.agents| && |s'.workers| == |s.workers| && s'.agents[a] == e.ag
      && forall c :: 0 <= c < |s.agents| && c != a ==> s'.agents[c] == s.agents[c]
  {
  }

  lemma SweepTurn(s: State, acts: seq<Act>, a: nat, start: nat, seen: set<nat>) returns (s1: State, m: set<nat>)
    requires Inv(s) && a < |s.agents| && Sweeping(s.agents[a]) && SweepsOn(s, acts, a) && acts != []
    requires Swept(|s.workers|, s.agents[a].frame.w, start, s.agents[a], seen)
    ensures Turn(s, acts, a, s1, m) && Swept(|s.workers|, s.agents[a].frame.w, start, s1.agents[a], seen + m)
  {
    InvTyped(s);
    var b, i := acts[0].agent, acts[0].input;
    s1, m := s, {};
    assert seen + {} == seen;
    if b >= |s.agents| {
      NoTurn(s, acts, a);
    } else {
      StepOf(s, b, i);
      TurnIs(s, acts, a);
      s1 := Step(s, b, i);
      if b == a {
        SweepStep(s.g, s.workers, a, s.agents[a], i, start, seen);
        m := Looks(|s.workers|, s.agents[a]);
      }
    }
  }

  lemma OverIsLast(s: State, acts: seq<Act>, a: nat)
    requires SweepsOn(s, acts, a) && a < |s.agents| && !Sweeping(s.agents[a])
    ensures acts == []
  {
  }

  lemma {:induction false} SweepGoesOn(s: State, acts: seq<Act>, a: nat, n: nat, w: nat, start: nat, seen: set<nat>)
    requires Inv(s) && a < |s.agents| && n == |s.workers| && Swept(n, w, start, s.agents[a], seen) && SweepsOn(s, acts, a)
    ensures var s' := Execute(s, acts); a < |s'.agents| && Swept(n, w, start, s'.agents[a], seen + LookedAt(s, acts, a))
    decreases |acts|
  {
    if acts == [] || !Sweeping(s.agents[a]) {
      if acts != [] { OverIsLast(s, acts, a); }
      assert seen + {} == seen;
    } else {
      var s1, m := SweepTurn(s, acts, a, start, seen);
      SweepGoesOn(s1, acts[1..], a, n, w, start, seen + m);
      assert (seen + m) + LookedAt(s1, acts[1..], a) == seen + LookedAt(s, acts, a);
    }
  }

  /** Under every schedule, a sweep that ends with nothing has looked at the deque of every other
      worker, wherever it started. */
  lemma SweepIsExhaustive(s: State, acts: seq<Act>, a: nat, v: nat)
    requires Inv(s) && a < |s.agents| && Sweeping(s.agents[a]) && s.agents[a].frame.pc.Steal? && s.agents[a].frame.pc.off == 0
    requires SweepsOn(s, acts, a)
    requires var s' := Execute(s, acts);
      a < |s'.agents| && s'.agents[a].frame.In? && s'.agents[a].frame.pc.StealEnd? && s'.agents[a].frame.pc.got == 0
    requires v < |s.workers| && v != s.agents[a].frame.w
    ensures v in LookedAt(s, acts, a)
  {
    var n, w, start := |s.workers|, s.agents[a].frame.w, s.agents[a].frame.pc.start;
    WorkerExists(s, a);
    SweepGoesOn(s, acts, a, n, w, start, {});
    assert {} + LookedAt(s, acts, a) == LookedAt(s, acts, a);
    EndCovers(n, w, start, Execute(s, acts).agents[a], LookedAt(s, acts, a), v);
  }

  lemma EndCovers(n: nat, w: nat, start: nat, ag: Agent, seen: set<nat>, v: nat)
    requires Swept(n, w, start, ag, seen) && ag.frame.pc.StealEnd? && ag.frame.pc.got == 0 && v < n && w < n && v != w
    ensures v in seen
  {
    var j := Around(n, start, v);
    assert Victim(n, start, j) == v;
  }

  lemma WorkerExists(s: State, a: nat)
    requires Inv(s) && a < |s.agents| && s.agents[a].frame.In?
    ensures s.agents[a].frame.w < |s.workers|
  {
    assert AgentInv(s.g, s.workers, a, s.agents[a]);
  }

  /** Half of the private jobs are to be shared: at a refill always, and on the countdown if some
      worker announces sleep. */
  lemma SharesHalf(g: Global, workers: seq<Worker>, a: nat, ag: Agent, i: Input)
    requires Typed(|workers|, ag) && ag.call.Ready? && ag.frame.In?
    ensures var e, f := Next(g, workers, a, ag, i), ag.frame;
      && (f.pc.Promote? ==>
            && e.Note? && e.ag.frame.In? && e.ag.frame.mine == f.mine && e.ag.call.Ready?
            && e.ag.frame.pc == (if (exists c: nat :: c < |workers| && workers[c].bit) && |f.mine| >= 2
                                 then Share(|f.mine| / 2, 0, Some(f.pc.job)) else Running(f.pc.job)))
      && (f.pc.TakeLen? && f.pc.refill && f.pc.n > 0 ==>
            && e.Note? && e.ag.frame.In? && e.ag.frame.mine == f.mine
            && e.ag.frame.pc == (if |f.mine| >= 2 then Share(|f.mine| / 2, 0, None) else Shared(None)))
  {
  }
}
