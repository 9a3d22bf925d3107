/** What goes into the pool and comes out of it: jobs, and the threads that run its workers. */
module PoolLeaving {
  import opened Words
  import opened PoolMachine
  import opened PoolSafety

  /** The thread is on its way out of `run`. */
  predicate Leaves(f: Frame) { f.In? && (f.pc.Exit? || f.pc.ExitClear?) }

  /** A step that sets a thread on its way out finds the pool shut down. */
  ghost predicate Excused(g: Global, f: Frame, e: Effect) {
    !e.Fault? && (Leaves(e.ag.frame) ==> Leaves(f) || !g.running) && (f.In? && e.ag.frame.Outside? ==> Leaves(f))
  }

  lemma CallExcused(g: Global, workers: seq<Worker>, a: nat, ag: Agent, i: Input)
    requires Typed(|workers|, ag) && !ag.call.Ready?
    ensures Excused(g, ag.frame, StepCall(g, workers, a, ag.frame, ag.call, i))
  {
  }

  lemma SleepExcused(g: Global, workers: seq<Worker>, ag: Agent, i: Input)
    requires Typed(|workers|, ag) && ag.frame.In? && (IsPrepare(ag.frame.pc) || IsResume(ag.frame.pc))
    ensures Excused(g, ag.frame, StepPrepare(g, workers[ag.frame.w], ag.frame.w, ag.frame.pc, ag.frame.mine, ag.frame.k, i))
  {
  }

  predicate IsHunt(pc: Pc) {
    pc.Search? || pc.SearchBack? || pc.Steal? || pc.StealBook? || pc.StealKeep? || pc.StealPut? || pc.StealEnd?
  }

  lemma HuntExcused(g: Global, workers: seq<Worker>, a: nat, ag: Agent, i: Input)
    requires Typed(|workers|, ag) && ag.frame.In? && IsHunt(ag.frame.pc) && |workers| > 0
    ensures Excused(g, ag.frame, StepLoop(g, workers, a, ag.frame.w, ag.frame.pc, ag.frame.mine, ag.frame.k, i))
  {
  }

  predicate IsFair(pc: Pc) {
    pc.Top? || pc.CapLook? || pc.CapTake? || pc.CapPush? || pc.CapLen? || pc.Take? || pc.TakeLen?
  }

  predicate IsLocal(pc: Pc) {
    pc.Own? || pc.Promote? || pc.Share? || pc.Shared? || pc.Running? || pc.InboxOne? || pc.InboxMove? || pc.DequePop?
  }

  lemma FairExcused(g: Global, workers: seq<Worker>, a: nat, ag: Agent, i: Input)
    requires Typed(|workers|, ag) && ag.frame.In? && IsFair(ag.frame.pc)
    requires !StepLoop(g, workers, a, ag.frame.w, ag.frame.pc, ag.frame.mine, ag.frame.k, i).Fault?
    ensures Excused(g, ag.frame, StepLoop(g, workers, a, ag.frame.w, ag.frame.pc, ag.frame.mine, ag.frame.k, i))
  {
  }

  lemma LocalExcused(g: Global, workers: seq<Worker>, a: nat, ag: Agent, i: Input)
    requires Typed(|workers|, ag) && ag.frame.In? && IsLocal(ag.frame.pc)
    requires !StepLoop(g, workers, a, ag.frame.w, ag.frame.pc, ag.frame.mine, ag.frame.k, i).Fault?
    ensures Excused(g, ag.frame, StepLoop(g, workers, a, ag.frame.w, ag.frame.pc, ag.frame.mine, ag.frame.k, i))
  {
  }

  lemma RestExcused(g: Global, workers: seq<Worker>, a: nat, ag: Agent, i: Input)
    requires Typed(|workers|, ag) && ag.frame.In? && (ag.frame.pc.ReadySlot? || ag.frame.pc.CheckRunning? || ag.frame.pc.Exit?)
    requires !StepLoop(g, workers, a, ag.frame.w, ag.frame.pc, ag.frame.mine, ag.frame.k, i).Fault?
    ensures Excused(g, ag.frame, StepLoop(g, workers, a, ag.frame.w, ag.frame.pc, ag.frame.mine, ag.frame.k, i))
  {
  }

  lemma StepExcused(g: Global, workers: seq<Worker>, a: nat, ag: Agent, i: Input)
    requires PoolInv(g, workers) && AgentInv(g, workers, a, ag) && Typed(|workers|, ag)
    ensures Excused(g, ag.frame, Next(g, workers, a, ag, i))
  {
    GoodNext(g, workers, a, ag, i);
    if !ag.call.Ready? {
      CallExcused(g, workers, a, ag, i);
    } else if ag.frame.In? {
      var f := ag.frame;
      if IsPrepare(f.pc) || IsResume(f.pc) {
        LoopIsPrepare(g, workers, a, f.w, f.pc, f.mine, f.k, i);
        SleepExcused(g, workers, ag, i);
      } else if IsHunt(f.pc) {
        HuntExcused(g, workers, a, ag, i);
      } else if IsFair(f.pc) {
        FairExcused(g, workers, a, ag, i);
      } else if IsLocal(f.pc) {
        LocalExcused(g, workers, a, ag, i);
      } else {
        RestExcused(g, workers, a, ag, i);
      }
    }
  }

  /** Whoever is leaving `run` has been told to. */
  ghost predicate NoDeserters(s: State) {
    forall a :: 0 <= a < |s.agents| && Leaves(s.agents[a].frame) ==> !s.g.running
  }

  lemma ApplyLeaving(s: State, a: nat, e: Effect)
    requires a < |s.agents| && NoDeserters(s) && Excused(s.g, s.agents[a].frame, e) && (e.g.running ==> s.g.running)
    requires e.On? ==> e.w < |s.workers|
    ensures NoDeserters(Apply(s, a, e)) && |Apply(s, a, e).agents| == |s.agents|
  {
  }

  lemma StepLeaving(s: State, a: nat, i: Input)
    requires Inv(s) && AllTyped(s) && a < |s.agents| && NoDeserters(s)
    ensures NoDeserters(Step(s, a, i)) && |Step(s, a, i).agents| == |s.agents|
  {
    GoodNext(s.g, s.workers, a, s.agents[a], i);
    StepExcused(s.g, s.workers, a, s.agents[a], i);
    ApplyLeaving(s, a, Next(s.g, s.workers, a, s.agents[a], i));
  }

  lemma {:induction false} RunLeaving(s: State, acts: seq<Act>)
    requires Inv(s) && NoDeserters(s)
    ensures Inv(Execute(s, acts)) && NoDeserters(Execute(s, acts))
    decreases |acts|
  {
    InvTyped(s);
    if acts != [] {
      var a, i := acts[0].agent, acts[0].input;
      if a < |s.agents| {
        StepKeeps(s, a, i);
        StepLeaving(s, a, i);
        RunLeaving(Step(s, a, i), acts[1..]);
      } else {
        RunLeaving(s, acts[1..]);
      }
    }
  }

  /** A worker stays until the pool is shut down: in every run, a step that ends `run` is made when
      the pool no longer runs. */
  lemma StaysUntilShutDown(t: Tuning, workers: nat, agents: nat, acts: seq<Act>, a: nat, i: Input)
    requires workers > 0
    ensures var s := Execute(Init(t, workers, agents), acts);
      Inv(s) && AllTyped(s)
      && (a < |s.agents| && s.agents[a].frame.In? && a < |Step(s, a, i).agents| && Step(s, a, i).agents[a].frame.Outside? ==> !s.g.running)
  {
    InitInv(t, workers, agents);
    RunLeaving(Init(t, workers, agents), acts);
    var s := Execute(Init(t, workers, agents), acts);
    InvTyped(s);
    if a < |s.agents| { StepEndsRun(s, a, i); }
  }

  lemma StepEndsRun(s: State, a: nat, i: Input)
    requires Inv(s) && AllTyped(s) && NoDeserters(s) && a < |s.agents|
    ensures s.agents[a].frame.In? && a < |Step(s, a, i).agents| && Step(s, a, i).agents[a].frame.Outside? ==> !s.g.running
  {
    GoodNext(s.g, s.workers, a, s.agents[a], i);
    StepExcused(s.g, s.workers, a, s.agents[a], i);
  }

  /** And then it leaves as soon as it finds nothing to do, or is about to park. */
  lemma LeavesWhenTold(g: Global, workers: seq<Worker>, a: nat, ag: Agent, i: Input)
    requires Typed(|workers|, ag) && ag.call.Ready? && ag.frame.In? && !g.running
    requires ag.frame.pc.CheckRunning? || ag.frame.pc.LastCheck? || ag.frame.pc.ExitClear?
    ensures var e := Next(g, workers, a, ag, i); !e.Fault? && Leaves(e.ag.frame)
  {
  }

  /** The jobs that a step takes in are those handed to it, and a job has run when it ends. */
  lemma JobsInAndOut(g: Global, workers: seq<Worker>, a: nat, ag: Agent, i: Input)
    requires Typed(|workers|, ag) && ag.call.Ready? && (ag.frame.Outside? || ag.frame.pc.Running?)
    ensures var e, n := Next(g, workers, a, ag, i), |workers|;
      && !e.Fault?
      && (i.Submit? && (i.hint.Some? ==> i.hint.value < n) ==> e.Note? && e.put == [i.job] && e.ag.call == Push(i.job, i.hint))
      && (i.SubmitLocal? && i.w < n ==>
            e.Note? && e.put == [i.job] && e.ag.call == if g.t.localWakes then Put(i.w, i.job) else Push(i.job, None))
      && (!i.Submit? && !i.SubmitLocal? ==> e.put == [])
      && e.ran == (if ag.frame.In? && i.Finish? then [ag.frame.pc.job] else [])
      && (ag.frame.In? && !i.Finish? ==> e.ag.frame == ag.frame)
  {
  }

  /** A local submission keeps the newest job warm; what it displaces goes to the inbox, or to the
      injector if sharing displaced work is on and the inbox is in use. */
  lemma NewestIsWarm(g: Global, workers: seq<Worker>, a: nat, ag: Agent, i: Input)
    requires Typed(|workers|, ag) && (ag.call.Put? || ag.call.Look? || ag.call.Displace?)
    ensures var e, W := Next(g, workers, a, ag, i), workers[ag.call.w];
      && !e.Fault? && e.ag.frame == ag.frame
      && (ag.call.Put? ==>
            && e.On? && e.w == ag.call.w && e.W.slot == Some(ag.call.job) && e.W.inbox == W.inbox && e.g.injector == g.injector
            && (W.slot.Some? ==> (e.ag.call.Look? || e.ag.call.Displace?) && e.ag.call.job == W.slot.value && e.ag.call.w == ag.call.w))
      && (ag.call.Look? ==>
            && e.Note? && e.g == g && e.ag.call.Displace? && e.ag.call.job == ag.call.job
            && (e.ag.call.toInjector <==> W.inbox != [] || i.Flaky?))
      && (ag.call.Displace? ==>
            if ag.call.toInjector then e.Note? && e.g.injector == g.injector + [ag.call.job]
            else e.On? && e.w == ag.call.w && e.W.inbox == W.inbox + [ag.call.job] && e.W.slot == W.slot)
  {
  }
}
