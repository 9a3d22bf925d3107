/** The pool on its park words: the threads of the pool, each `park` and `unpark` of theirs made
    of the accesses to the word of that worker, and a kernel that may end a wait for its own
    reasons. The permit of the pool is what the word says. */
module HostedPool {
  import opened Words
  import opened PoolMachine
  import PoolSafety
  import PoolTheorems
  import Permit

  /** `parks[w]` is the word of worker `w` and the progress of the calls on it; thread `a` is its
      unparker `a`. */
  datatype Hosted = Hosted(pool: State, parks: seq<Permit.State>)

  /** A step of a thread, the system call of thread `a` that wakes whoever waits on the word of
      worker `w`, or a wait on that word that ends for no reason. */
  datatype Move = Thread(a: nat, input: Input) | Wake(a: nat, w: nat) | Kernel(w: nat)

  /** Thread `a` has found the word at `ASLEEP` and has yet to make its system call. */
  predicate Wakes(p: Permit.State, a: nat) {
    a < |p.unparkers| && p.unparkers[a] == Permit.Waking
  }

  predicate Free(parks: seq<Permit.State>, a: nat) {
    forall w :: 0 <= w < |parks| ==> !Wakes(parks[w], a)
  }

  /** The worker that the next step of a call unparks. */
  function Unparks(n: nat, c: Call): Option<nat> {
    match c
    case Signal(_, _, c) => Some(c)
    case SpecSignal(w, _) => Some(w)
    case Hint(c) => Some(c)
    case Shut(i) => if i < n then Some(i) else None
    case _ => None
  }

  /** The parker's next access takes the signal. */
  predicate Passes(p: Permit.State) {
    (p.parker == Permit.Entered && p.word == Permit.SIGNAL) || p.parker == Permit.Consume
  }

  /** An access of `park`. The thread gets past it when the access takes the signal; nothing of
      the pool is consulted. */
  function StepPark(s: Hosted, a: nat, w: nat): Hosted
    requires AllTyped(s.pool) && a < |s.pool.agents| && w < |s.parks|
  {
    Hosted(if Passes(s.parks[w]) then Step(s.pool, a, Flaky) else s.pool,
           s.parks[w := Permit.Step(s.parks[w], Permit.Park)])
  }

  /** The swap of an unpark by thread `a`. */
  function Swap(p: Permit.State, a: nat): Permit.State {
    Permit.Step(Permit.Step(p, Permit.Unpark(a)), Permit.Unpark(a))
  }

  predicate InPark(s: Hosted, ag: Agent)
    requires Typed(|s.parks|, ag)
  {
    ag.call.Ready? && ag.frame.In? && (ag.frame.pc.Parked? || s.parks[ag.frame.w].parker == Permit.Undo)
  }

  predicate HostedTyped(s: Hosted) {
    AllTyped(s.pool) && |s.parks| == |s.pool.workers|
  }

  lemma UnparksTyped(n: nat, c: Call)
    requires CallTyped(n, c)
    ensures Unparks(n, c).Some? ==> Unparks(n, c).value < n
  {
  }

  function SwapAt(parks: seq<Permit.State>, c: Option<nat>, a: nat): seq<Permit.State>
    requires c.Some? ==> c.value < |parks|
  {
    if c.None? then parks else parks[c.value := Swap(parks[c.value], a)]
  }

  function StepThread(s: Hosted, a: nat, i: Input): Hosted
    requires HostedTyped(s) && a < |s.pool.agents|
  {
    var ag := s.pool.agents[a];
    if !Free(s.parks, a) then s
    else if InPark(s, ag) then StepPark(s, a, ag.frame.w)
    else Hosted(Step(s.pool, a, i), SwapAt(s.parks, Unparks(|s.parks|, ag.call), a))
  }

  function StepHosted(s: Hosted, m: Move): Hosted
    requires HostedTyped(s)
  {
    match m
    case Thread(a, i) => if a < |s.pool.agents| then StepThread(s, a, i) else s
    case Wake(a, w) =>
      if w < |s.parks| && Wakes(s.parks[w], a)
      then s.(parks := s.parks[w := Permit.Step(s.parks[w], Permit.Unpark(a))]) else s
    case Kernel(w) =>
      if w < |s.parks| then s.(parks := s.parks[w := Permit.Step(s.parks[w], Permit.Spurious)]) else s
  }

  function RunHosted(s: Hosted, moves: seq<Move>): Hosted
    decreases |moves|
  {
    if moves == [] || !HostedTyped(s) then s else RunHosted(StepHosted(s, moves[0]), moves[1..])
  }

  function New(t: Tuning, workers: nat, agents: nat): Hosted {
    Hosted(Init(t, workers, agents), seq(workers, _ => Permit.Init(agents)))
  }

  /** A step changes no permit, except that it sets the one of worker `c`. */
  predicate PermitStays(workers: seq<Worker>, e: Effect, c: Option<nat>) {
    && (e.On? ==> e.w < |workers| && e.W.permit == (workers[e.w].permit || c == Some(e.w)))
    && (c.Some? ==> e.On? && e.w == c.value)
  }

  lemma CallPermit(g: Global, workers: seq<Worker>, a: nat, f: Frame, c: Call, i: Input)
    requires CallTyped(|workers|, c)
    ensures PermitStays(workers, StepCall(g, workers, a, f, c, i), Unparks(|workers|, c))
  {
  }

  lemma OutsidePermit(g: Global, workers: seq<Worker>, a: nat, i: Input)
    ensures PermitStays(workers, StepOutside(g, workers, a, i), None)
  {
  }

  lemma SleepPermit(g: Global, workers: seq<Worker>, w: nat, pc: Pc, mine: seq<Job>, k: Counters, i: Input)
    requires w < |workers| && (PoolSafety.IsPrepare(pc) || PoolSafety.IsResume(pc)) && !pc.Parked?
    ensures PermitStays(workers, StepPrepare(g, workers[w], w, pc, mine, k, i), None)
  {
  }

  lemma StealPermit(g: Global, workers: seq<Worker>, a: nat, w: nat, pc: Pc, mine: seq<Job>, k: Counters, i: Input)
    requires w < |workers| && PoolTheorems.IsFinding(pc)
    ensures PermitStays(workers, StepLoop(g, workers, a, w, pc, mine, k, i), None)
  {
  }

  lemma WorkPermit(g: Global, workers: seq<Worker>, a: nat, w: nat, pc: Pc, mine: seq<Job>, k: Counters, i: Input)
    requires w < |workers| && !PoolSafety.IsPrepare(pc) && !PoolSafety.IsResume(pc) && !PoolTheorems.IsFinding(pc)
    ensures PermitStays(workers, StepLoop(g, workers, a, w, pc, mine, k, i), None)
  {
  }

  lemma LoopPermit(g: Global, workers: seq<Worker>, a: nat, w: nat, pc: Pc, mine: seq<Job>, k: Counters, i: Input)
    requires w < |workers| && !pc.Parked?
    ensures PermitStays(workers, StepLoop(g, workers, a, w, pc, mine, k, i), None)
  {
    if PoolSafety.IsPrepare(pc) || PoolSafety.IsResume(pc) {
      PoolSafety.LoopIsPrepare(g, workers, a, w, pc, mine, k, i);
      SleepPermit(g, workers, w, pc, mine, k, i);
    } else if PoolTheorems.IsFinding(pc) {
      StealPermit(g, workers, a, w, pc, mine, k, i);
    } else {
      WorkPermit(g, workers, a, w, pc, mine, k, i);
    }
  }

  /** Outside `park`, only an unpark changes a permit, and it sets it. */
  lemma NextPermit(g: Global, workers: seq<Worker>, a: nat, ag: Agent, i: Input)
    requires Typed(|workers|, ag) && !(ag.call.Ready? && ag.frame.In? && ag.frame.pc.Parked?)
    ensures PermitStays(workers, Next(g, workers, a, ag, i), Unparks(|workers|, ag.call))
  {
    if !ag.call.Ready? {
      CallPermit(g, workers, a, ag.frame, ag.call, i);
    } else if ag.frame.Outside? {
      OutsidePermit(g, workers, a, i);
    } else {
      LoopPermit(g, workers, a, ag.frame.w, ag.frame.pc, ag.frame.mine, ag.frame.k, i);
    }
  }

  /** And `park` clears its own when it gets past. */
  lemma PassPermit(g: Global, workers: seq<Worker>, a: nat, ag: Agent)
    requires Typed(|workers|, ag) && ag.call.Ready? && ag.frame.In? && ag.frame.pc.Parked?
    ensures var e := Next(g, workers, a, ag, Flaky); e.On? && e.w == ag.frame.w && !e.W.permit
  {
    var f := ag.frame;
    PoolSafety.LoopIsPrepare(g, workers, a, f.w, f.pc, f.mine, f.k, Flaky);
  }

  /** The permit of a worker is the signal in its word. */
  ghost predicate Mirrors(W: Worker, p: Permit.State, agents: nat) {
    && Permit.Inv(p)
    && (W.permit <==> p.word == Permit.SIGNAL)
    && |p.unparkers| == agents
    && (forall u :: 0 <= u < |p.unparkers| ==> p.unparkers[u] != Permit.Swapping)
  }

  ghost predicate HostedInv(s: Hosted) {
    && PoolSafety.Inv(s.pool)
    && HostedTyped(s)
    && (forall w :: 0 <= w < |s.parks| ==> Mirrors(s.pool.workers[w], s.parks[w], |s.pool.agents|))
  }

  lemma SwapMirrors(W: Worker, W': Worker, p: Permit.State, n: nat, a: nat)
    requires Mirrors(W, p, n) && a < n && W'.permit && !Wakes(p, a)
    ensures Mirrors(W', Swap(p, a), n)
  {
    Permit.StepKeeps(p, Permit.Unpark(a));
    Permit.StepKeeps(Permit.Step(p, Permit.Unpark(a)), Permit.Unpark(a));
  }

  /** An access of the parker that does not take the signal leaves the permit as it is. */
  lemma ParkMirrors(W: Worker, W': Worker, p: Permit.State, n: nat)
    requires Mirrors(W, p, n) && W'.permit == (W.permit && !Passes(p))
    ensures Mirrors(W', Permit.Step(p, Permit.Park), n)
  {
    Permit.StepKeeps(p, Permit.Park);
  }

  lemma WakeMirrors(W: Worker, p: Permit.State, n: nat, a: nat)
    requires Mirrors(W, p, n) && Wakes(p, a)
    ensures Mirrors(W, Permit.Step(p, Permit.Unpark(a)), n)
  {
    Permit.StepKeeps(p, Permit.Unpark(a));
  }

  lemma KernelMirrors(W: Worker, p: Permit.State, n: nat)
    requires Mirrors(W, p, n)
    ensures Mirrors(W, Permit.Step(p, Permit.Spurious), n)
  {
    Permit.StepKeeps(p, Permit.Spurious);
  }

  lemma ApplyWorkers(s: State, a: nat, e: Effect, w: nat)
    requires a < |s.agents| && w < |s.workers| && !e.Fault? && (e.On? ==> e.w < |s.workers|)
    ensures var s' := Apply(s, a, e);
      && |s'.workers| == |s.workers| && |s'.agents| == |s.agents|
      && s'.workers[w] == if e.On? && e.w == w then e.W else s.workers[w]
  {
  }

  /** A step of a thread that is not in `park`. */
  lemma ThreadKeeps(s: Hosted, a: nat, i: Input)
    requires HostedInv(s) && a < |s.pool.agents| && Free(s.parks, a) && !InPark(s, s.pool.agents[a])
    ensures HostedInv(StepThread(s, a, i))
  {
    var ag := s.pool.agents[a];
    var e := Next(s.pool.g, s.pool.workers, a, ag, i);
    var c := Unparks(|s.parks|, ag.call);
    UnparksTyped(|s.parks|, ag.call);
    PoolSafety.StepKeeps(s.pool, a, i);
    PoolSafety.GoodNext(s.pool.g, s.pool.workers, a, ag, i);
    NextPermit(s.pool.g, s.pool.workers, a, ag, i);
    var s' := StepThread(s, a, i);
    ApplyWorkers(s.pool, a, e, 0);
    forall w | 0 <= w < |s'.parks| ensures Mirrors(s'.pool.workers[w], s'.parks[w], |s'.pool.agents|) {
      ApplyWorkers(s.pool, a, e, w);
      if c == Some(w) { SwapMirrors(s.pool.workers[w], s'.pool.workers[w], s.parks[w], |s.pool.agents|, a); }
    }
  }

  lemma ParkKeeps(s: Hosted, a: nat)
    requires HostedInv(s) && a < |s.pool.agents| && InPark(s, s.pool.agents[a])
    requires Passes(s.parks[s.pool.agents[a].frame.w]) ==> s.pool.agents[a].frame.pc.Parked?
    ensures HostedInv(StepPark(s, a, s.pool.agents[a].frame.w))
  {
    var ag := s.pool.agents[a];
    var v := ag.frame.w;
    var s' := StepPark(s, a, v);
    if Passes(s.parks[v]) {
      PoolSafety.StepKeeps(s.pool, a, Flaky);
      PassPermit(s.pool.g, s.pool.workers, a, ag);
      forall w | 0 <= w < |s.parks| ensures Mirrors(s'.pool.workers[w], s'.parks[w], |s'.pool.agents|) {
        ApplyWorkers(s.pool, a, Next(s.pool.g, s.pool.workers, a, ag, Flaky), w);
        if w == v { ParkMirrors(s.pool.workers[w], s'.pool.workers[w], s.parks[w], |s.pool.agents|); }
      }
    } else {
      ParkMirrors(s.pool.workers[v], s.pool.workers[v], s.parks[v], |s.pool.agents|);
    }
  }

  lemma HostedKeeps(s: Hosted, m: Move)
    requires HostedInv(s)
    ensures HostedInv(StepHosted(s, m))
  {
    match m
    case Thread(a, i) =>
      if a < |s.pool.agents| && Free(s.parks, a) {
        if InPark(s, s.pool.agents[a]) { ParkKeeps(s, a); } else { ThreadKeeps(s, a, i); }
      }
    case Wake(a, w) =>
      if w < |s.parks| && Wakes(s.parks[w], a) { WakeMirrors(s.pool.workers[w], s.parks[w], |s.pool.agents|, a); }
    case Kernel(w) =>
      if w < |s.parks| { KernelMirrors(s.pool.workers[w], s.parks[w], |s.pool.agents|); }
  }

  lemma NewInv(t: Tuning, workers: nat, agents: nat)
    requires workers > 0
    ensures HostedInv(New(t, workers, agents))
  {
    PoolSafety.InitInv(t, workers, agents);
    PoolSafety.InvTyped(Init(t, workers, agents));
  }

  /** The acts of the pool that a run on park words makes: an access of `park` is an act only when
      it takes the signal. */
  function ActOf(s: Hosted, m: Move): seq<Act>
    requires HostedTyped(s)
  {
    if !m.Thread? || m.a >= |s.pool.agents| || !Free(s.parks, m.a) then []
    else if !InPark(s, s.pool.agents[m.a]) then [Act(m.a, m.input)]
    else if Passes(s.parks[s.pool.agents[m.a].frame.w]) then [Act(m.a, Flaky)]
    else []
  }

  function ActsOf(s: Hosted, moves: seq<Move>): seq<Act>
    decreases |moves|
  {
    if moves == [] || !HostedTyped(s) then [] else ActOf(s, moves[0]) + ActsOf(StepHosted(s, moves[0]), moves[1..])
  }

  lemma StepProjects(s: Hosted, m: Move, acts: seq<Act>)
    requires HostedTyped(s)
    ensures Execute(s.pool, ActOf(s, m) + acts) == Execute(StepHosted(s, m).pool, acts)
  {
    if ActOf(s, m) == [] {
      assert [] + acts == acts;
    } else {
      var act := ActOf(s, m)[0];
      assert (ActOf(s, m) + acts)[1..] == acts && (ActOf(s, m) + acts)[0] == act;
    }
  }

  /** Every run on park words is a run of the pool, and along it the permits are the signals. */
  lemma {:induction false} RunProjects(s: Hosted, moves: seq<Move>)
    requires HostedInv(s)
    ensures HostedInv(RunHosted(s, moves))
    ensures RunHosted(s, moves).pool == Execute(s.pool, ActsOf(s, moves))
    decreases |moves|
  {
    if moves != [] {
      HostedKeeps(s, moves[0]);
      StepProjects(s, moves[0], ActsOf(StepHosted(s, moves[0]), moves[1..]));
      RunProjects(StepHosted(s, moves[0]), moves[1..]);
    }
  }

  /** Every worker's thread is blocked in the kernel, no thread is inside a call, and no thread
      has a system call left to make. */
  ghost predicate AllBlocked(s: Hosted) {
    && |s.parks| == |s.pool.workers|
    && (forall a :: 0 <= a < |s.pool.agents| ==>
          && Free(s.parks, a) && s.pool.agents[a].call.Ready?
          && (s.pool.agents[a].frame.In? ==> s.pool.agents[a].frame.pc.Parked?))
    && (forall w :: 0 <= w < |s.parks| ==> !s.pool.workers[w].home && s.parks[w].parker == Permit.Blocked)
  }

  lemma BlockedIsAsleep(s: Hosted)
    requires HostedInv(s) && AllBlocked(s)
    ensures PoolTheorems.AllAsleep(s.pool)
  {
    forall w | 0 <= w < |s.pool.workers| ensures !s.pool.workers[w].home && !s.pool.workers[w].permit {
      assert Mirrors(s.pool.workers[w], s.parks[w], |s.pool.agents|);
      if Permit.WakeComing(s.parks[w]) {
        var u :| 0 <= u < |s.parks[w].unparkers| && s.parks[w].unparkers[u] == Permit.Waking;
        assert Wakes(s.parks[w], u) && !Free(s.parks, u);
      }
    }
  }

  /** No stall on the shipped park words: under every interleaving of threads and kernel, if the
      pool has not been shut down, every worker is blocked in the kernel and nobody is inside a
      call, then every job that was ever submitted has run, exactly once. */
  lemma BlockedMeansDone(t: Tuning, workers: nat, agents: nat, moves: seq<Move>)
    requires workers > 0
    requires var s := RunHosted(New(t, workers, agents), moves); s.pool.g.running && AllBlocked(s)
    ensures var s := RunHosted(New(t, workers, agents), moves); s.pool.submitted == s.pool.ran
  {
    var s0 := New(t, workers, agents);
    NewInv(t, workers, agents);
    RunProjects(s0, moves);
    BlockedIsAsleep(RunHosted(s0, moves));
    PoolTheorems.AsleepMeansDone(t, workers, agents, ActsOf(s0, moves));
  }

  /** Once the loop of `shut_down` has passed every worker, no thread stays blocked: whoever is in
      the kernel has a wake on its way, and its park returns within four more moves of its own. */
  lemma ShutDownFreesAll(s: Hosted, moves: seq<Move>, a: nat)
    requires HostedInv(s) && PoolTheorems.AllTold(s.pool)
    requires var s' := RunHosted(s, moves);
      a < |s'.pool.agents| && s'.pool.agents[a].frame.In? && s'.pool.agents[a].frame.pc.Parked?
    ensures var s' := RunHosted(s, moves);
      && s'.pool.agents[a].frame.w < |s'.parks|
      && var p := s'.parks[s'.pool.agents[a].frame.w];
         && Permit.Owed(p) && Permit.Inv(p)
         && (p.parker == Permit.Blocked ==> Permit.WakeComing(p))
         && forall more :: Permit.Progress(p, more) >= 4 ==> Permit.Run(p, more).returned > p.returned
  {
    var s' := RunHosted(s, moves);
    RunProjects(s, moves);
    PoolTheorems.ShutDownWakesAll(s.pool, ActsOf(s, moves));
    var w := s'.pool.agents[a].frame.w;
    assert Mirrors(s'.pool.workers[w], s'.parks[w], |s'.pool.agents|);
    SignalFrees(s'.parks[w]);
  }

  lemma SignalFrees(p: Permit.State)
    requires Permit.Inv(p) && p.word == Permit.SIGNAL
    ensures Permit.Owed(p) && (p.parker == Permit.Blocked ==> Permit.WakeComing(p))
    ensures forall more :: Permit.Progress(p, more) >= 4 ==> Permit.Run(p, more).returned > p.returned
  {
    forall more | Permit.Progress(p, more) >= 4 ensures Permit.Run(p, more).returned > p.returned {
      Permit.SignalIsDelivered(p, more);
    }
  }
}
