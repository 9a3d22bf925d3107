/** How long a worker may serve one source before it looks at another, and how much it takes or
    shares at a time. */
module PoolFairness {
  import opened Words
  import opened PoolMachine
  import opened PoolSafety

  /** The thread is in the loop of `run`, with no call in progress. */
  predicate InLoop(ag: Agent) { ag.call.Ready? && ag.frame.In? }

  /** What the loop keeps in its own variables, whatever others do. */
  predicate Kept(t: Tuning, f: Frame) {
    f.In? ==>
      && (!f.pc.Top? && !f.pc.Running? ==> f.k.lifoRun == 0)
      && (f.pc.Take? || f.pc.TakeLen? ==> f.pc.n <= t.injectorBatch)
      && (f.pc.InboxMove? ==> f.pc.moved < t.promoteEvery || f.pc.moved == 0)
  }

  /** Nothing but the private queue comes next. */
  predicate BoundForOwn(pc: Pc) {
    match pc
    case CapLook => true
    case CapTake(_) => true
    case CapPush(_, _) => true
    case CapLen(_) => true
    case Take(_, refill) => !refill
    case TakeLen(_, refill) => !refill
    case Own => true
    case _ => false
  }

  /** How many jobs the thread may still start from its slot before it looks at its private queue. */
  function SlotBudget(t: Tuning, f: Frame): nat {
    match f
    case Outside => t.lifoRunLimit
    case In(_, pc, _, k) =>
      if BoundForOwn(pc) then 0
      else if k.lifoRun <= t.lifoRunLimit then t.lifoRunLimit - k.lifoRun else 0
  }

  /** How many jobs it may still move out of its inbox before it comes to the top again. */
  function InboxBudget(t: Tuning, f: Frame): nat {
    match f
    case Outside => 0
    case In(_, pc, _, _) =>
      if pc.InboxMove? then (if pc.moved < t.promoteEvery then t.promoteEvery - pc.moved else 1)
      else if BoundForOwn(pc) then (if t.promoteEvery > 0 then t.promoteEvery else 1)
      else 0
  }

  /** How many jobs of its private queue it may still start before it thinks of sharing. */
  function PromoteBudget(f: Frame): nat {
    match f
    case Outside => 0
    case In(_, _, _, k) => k.untilPromote
  }

  predicate FromSlot(ag: Agent, e: Effect) { InLoop(ag) && ag.frame.pc.Top? && e.On? }

  predicate FromInbox(ag: Agent, e: Effect) { InLoop(ag) && ag.frame.pc.InboxMove? && e.On? }

  predicate FromOwn(ag: Agent, e: Effect) {
    InLoop(ag) && ag.frame.pc.Own? && !e.Fault? && e.ag.frame.In? && e.ag.frame.pc.Running?
  }

  predicate VisitsOwn(ag: Agent) { InLoop(ag) && ag.frame.pc.Own? }

  predicate VisitsTop(ag: Agent) { InLoop(ag) && ag.frame.pc.Top? }

  /** It thinks of sharing, has just shared a batch, or enters or leaves the loop. */
  predicate Resets(ag: Agent) {
    ag.frame.In? ==> ag.frame.pc.Exit? || ag.frame.pc.Shared? || (ag.frame.pc.Own? && ag.frame.k.untilPromote <= 1)
  }

  function Times(b: bool): nat { if b then 1 else 0 }

  /** What holds of every step, for its own thread. */
  ghost predicate Spends(g: Global, ag: Agent, e: Effect) {
    && !e.Fault? && e.g.t == g.t
    && Kept(g.t, e.ag.frame)
    && (!VisitsOwn(ag) ==> SlotBudget(g.t, e.ag.frame) + Times(FromSlot(ag, e)) <= SlotBudget(g.t, ag.frame))
    && (!VisitsTop(ag) ==> InboxBudget(g.t, e.ag.frame) + Times(FromInbox(ag, e)) <= InboxBudget(g.t, ag.frame))
    && (!Resets(ag) ==> PromoteBudget(e.ag.frame) + Times(FromOwn(ag, e)) <= PromoteBudget(ag.frame))
  }

  lemma CallSpends(g: Global, workers: seq<Worker>, a: nat, ag: Agent, i: Input)
    requires Typed(|workers|, ag) && Kept(g.t, ag.frame) && !ag.call.Ready?
    ensures Spends(g, ag, StepCall(g, workers, a, ag.frame, ag.call, i))
  {
  }

  lemma OutsideSpends(g: Global, workers: seq<Worker>, a: nat, ag: Agent, i: Input)
    requires ag == Agent(Outside, Ready)
    ensures Spends(g, ag, StepOutside(g, workers, a, i))
  {
  }

  lemma SleepSpends(g: Global, workers: seq<Worker>, a: nat, ag: Agent, i: Input)
    requires Typed(|workers|, ag) && Kept(g.t, ag.frame) && InLoop(ag) && (IsPrepare(ag.frame.pc) || IsResume(ag.frame.pc))
    ensures Spends(g, ag, StepPrepare(g, workers[ag.frame.w], ag.frame.w, ag.frame.pc, ag.frame.mine, ag.frame.k, i))
  {
  }

  lemma SearchSpends(g: Global, workers: seq<Worker>, a: nat, ag: Agent, i: Input)
    requires Typed(|workers|, ag) && Kept(g.t, ag.frame) && InLoop(ag)
    requires var pc := ag.frame.pc; pc.Search? || pc.SearchBack? || pc.StealEnd?
    requires !StepLoop(g, workers, a, ag.frame.w, ag.frame.pc, ag.frame.mine, ag.frame.k, i).Fault?
    ensures Spends(g, ag, StepLoop(g, workers, a, ag.frame.w, ag.frame.pc, ag.frame.mine, ag.frame.k, i))
  {
  }

  lemma StealSpends(g: Global, workers: seq<Worker>, a: nat, ag: Agent, i: Input)
    requires Typed(|workers|, ag) && Kept(g.t, ag.frame) && InLoop(ag)
    requires var pc := ag.frame.pc; pc.Steal? || pc.StealBook? || pc.StealKeep? || pc.StealPut?
    requires !StepLoop(g, workers, a, ag.frame.w, ag.frame.pc, ag.frame.mine, ag.frame.k, i).Fault?
    ensures Spends(g, ag, StepLoop(g, workers, a, ag.frame.w, ag.frame.pc, ag.frame.mine, ag.frame.k, i))
  {
  }

  predicate IsTaking(pc: Pc) { pc.Top? || pc.CapLook? || pc.CapTake? || pc.CapPush? || pc.CapLen? || pc.Take? || pc.TakeLen? }

  lemma TakingSpends(g: Global, workers: seq<Worker>, a: nat, ag: Agent, i: Input)
    requires Typed(|workers|, ag) && Kept(g.t, ag.frame) && InLoop(ag) && IsTaking(ag.frame.pc)
    ensures Spends(g, ag, StepLoop(g, workers, a, ag.frame.w, ag.frame.pc, ag.frame.mine, ag.frame.k, i))
  {
  }

  lemma OwnSpends(g: Global, workers: seq<Worker>, a: nat, ag: Agent, i: Input)
    requires Typed(|workers|, ag) && Kept(g.t, ag.frame) && InLoop(ag)
    requires var pc := ag.frame.pc; pc.Own? || pc.Promote? || pc.Share? || pc.Shared? || pc.Running?
    requires !StepLoop(g, workers, a, ag.frame.w, ag.frame.pc, ag.frame.mine, ag.frame.k, i).Fault?
    ensures Spends(g, ag, StepLoop(g, workers, a, ag.frame.w, ag.frame.pc, ag.frame.mine, ag.frame.k, i))
  {
  }

  lemma InboxSpends(g: Global, workers: seq<Worker>, a: nat, ag: Agent, i: Input)
    requires Typed(|workers|, ag) && Kept(g.t, ag.frame) && InLoop(ag)
    requires var pc := ag.frame.pc; pc.InboxOne? || pc.InboxMove? || pc.DequePop?
    requires !StepLoop(g, workers, a, ag.frame.w, ag.frame.pc, ag.frame.mine, ag.frame.k, i).Fault?
    ensures Spends(g, ag, StepLoop(g, workers, a, ag.frame.w, ag.frame.pc, ag.frame.mine, ag.frame.k, i))
  {
  }

  lemma LeaveSpends(g: Global, workers: seq<Worker>, a: nat, ag: Agent, i: Input)
    requires Typed(|workers|, ag) && Kept(g.t, ag.frame) && InLoop(ag)
    requires var pc := ag.frame.pc; pc.ReadySlot? || pc.CheckRunning? || pc.Exit?
    requires !StepLoop(g, workers, a, ag.frame.w, ag.frame.pc, ag.frame.mine, ag.frame.k, i).Fault?
    ensures Spends(g, ag, StepLoop(g, workers, a, ag.frame.w, ag.frame.pc, ag.frame.mine, ag.frame.k, i))
  {
  }

  /** No step goes beyond the budgets. */
  lemma StepSpends(g: Global, workers: seq<Worker>, a: nat, ag: Agent, i: Input)
    requires PoolInv(g, workers) && AgentInv(g, workers, a, ag) && Typed(|workers|, ag) && Kept(g.t, ag.frame)
    ensures Spends(g, ag, Next(g, workers, a, ag, i))
  {
    GoodNext(g, workers, a, ag, i);
    if !ag.call.Ready? {
      CallSpends(g, workers, a, ag, i);
    } else if ag.frame.Outside? {
      OutsideSpends(g, workers, a, ag, i);
    } else {
      var f := ag.frame;
      if IsPrepare(f.pc) || IsResume(f.pc) {
        LoopIsPrepare(g, workers, a, f.w, f.pc, f.mine, f.k, i);
        SleepSpends(g, workers, a, ag, i);
      } else if f.pc.Search? || f.pc.SearchBack? || f.pc.StealEnd? {
        SearchSpends(g, workers, a, ag, i);
      } else if f.pc.Steal? || f.pc.StealBook? || f.pc.StealKeep? || f.pc.StealPut? {
        StealSpends(g, workers, a, ag, i);
      } else if IsTaking(f.pc) {
        TakingSpends(g, workers, a, ag, i);
      } else if f.pc.InboxOne? || f.pc.InboxMove? || f.pc.DequePop? {
        InboxSpends(g, workers, a, ag, i);
      } else if f.pc.ReadySlot? || f.pc.CheckRunning? || f.pc.Exit? {
        LeaveSpends(g, workers, a, ag, i);
      } else {
        OwnSpends(g, workers, a, ag, i);
      }
    }
  }

  /** What the loops of all threads keep. */
  ghost predicate AllKept(s: State) {
    forall a :: 0 <= a < |s.agents| ==> Kept(s.g.t, s.agents[a].frame)
  }

  lemma StepKeepsAll(s: State, a: nat, i: Input)
    requires Inv(s) && AllTyped(s) && a < |s.agents| && AllKept(s)
    ensures var s' := Step(s, a, i);
      && Inv(s') && AllTyped(s') && AllKept(s') && s'.g.t == s.g.t && |s'.agents| == |s.agents|
      && (forall c :: 0 <= c < |s.agents| && c != a ==> s'.agents[c] == s.agents[c])
      && s'.agents[a] == Next(s.g, s.workers, a, s.agents[a], i).ag
      && Spends(s.g, s.agents[a], Next(s.g, s.workers, a, s.agents[a], i))
  {
    StepKeeps(s, a, i);
    StepSpends(s.g, s.workers, a, s.agents[a], i);
    GoodNext(s.g, s.workers, a, s.agents[a], i);
    ApplyAgents(s, a, Next(s.g, s.workers, a, s.agents[a], i));
  }

  lemma ApplyAgents(s: State, a: nat, e: Effect)
    requires a < |s.agents| && !e.Fault? && (e.On? ==> e.w < |s.workers|)
    ensures var s' := Apply(s, a, e);
      s'.g == e.g && |s'.agents| == |s.agents| && s'.agents[a] == e.ag && forall c :: 0 <= c < |s.agents| && c != a ==> s'.agents[c] == s.agents[c]
  {
  }

  /** Along a schedule, the steps of `a` that count. */
  function Counted(s: State, acts: seq<Act>, a: nat, counts: (Agent, Effect) -> bool): nat
    decreases |acts|
  {
    if acts == [] || !AllTyped(s) then 0
    else if acts[0].agent < |s.agents| then
      (if acts[0].agent == a then Times(counts(s.agents[a], Next(s.g, s.workers, a, s.agents[a], acts[0].input))) else 0)
      + Counted(Step(s, acts[0].agent, acts[0].input), acts[1..], a, counts)
    else Counted(s, acts[1..], a, counts)
  }

  /** No step of `a` along the schedule is at such a place. */
  predicate Without(s: State, acts: seq<Act>, a: nat, stop: Agent -> bool)
    decreases |acts|
  {
    acts == [] || !AllTyped(s) ||
      (if acts[0].agent < |s.agents| then
         (acts[0].agent == a ==> !stop(s.agents[a])) && Without(Step(s, acts[0].agent, acts[0].input), acts[1..], a, stop)
       else Without(s, acts[1..], a, stop))
  }

  /** A budget that no step of a thread exceeds, except at the places where it is renewed. */
  ghost predicate Covers(counts: (Agent, Effect) -> bool, stop: Agent -> bool, budget: (Tuning, Frame) -> nat) {
    forall g: Global, ag: Agent, e: Effect :: Spends(g, ag, e) && !stop(ag) ==>
      !e.Fault? && budget(g.t, e.ag.frame) + Times(counts(ag, e)) <= budget(g.t, ag.frame)
  }

  lemma {:induction false} WithinBudget(s: State, acts: seq<Act>, a: nat, counts: (Agent, Effect) -> bool, stop: Agent -> bool, budget: (Tuning, Frame) -> nat)
    requires Inv(s) && AllKept(s) && a < |s.agents| && Covers(counts, stop, budget) && Without(s, acts, a, stop)
    ensures Counted(s, acts, a, counts) <= budget(s.g.t, s.agents[a].frame)
    decreases |acts|
  {
    InvTyped(s);
    if acts != [] {
      var b, i := acts[0].agent, acts[0].input;
      if b < |s.agents| {
        StepKeepsAll(s, b, i);
        WithinBudget(Step(s, b, i), acts[1..], a, counts, stop, budget);
      } else {
        WithinBudget(s, acts[1..], a, counts, stop, budget);
      }
    }
  }

  lemma {:induction false} RunKeepsAll(s: State, acts: seq<Act>)
    requires Inv(s) && AllKept(s)
    ensures var s' := Execute(s, acts); Inv(s') && AllKept(s') && s'.g.t == s.g.t && |s'.agents| == |s.agents|
    decreases |acts|
  {
    InvTyped(s);
    if acts != [] {
      var b, i := acts[0].agent, acts[0].input;
      if b < |s.agents| {
        StepKeepsAll(s, b, i);
        RunKeepsAll(Step(s, b, i), acts[1..]);
      } else {
        RunKeepsAll(s, acts[1..]);
      }
    }
  }

  /** The states that a pool of this tuning can get to. */
  ghost predicate Reachable(t: Tuning, s: State) {
    exists workers: nat, agents: nat, past: seq<Act> :: workers > 0 && s == Execute(Init(t, workers, agents), past)
  }

  lemma ReachableKeeps(t: Tuning, s: State)
    requires Reachable(t, s)
    ensures Inv(s) && AllKept(s) && s.g.t == t
  {
    var workers: nat, agents: nat, past: seq<Act> :| workers > 0 && s == Execute(Init(t, workers, agents), past);
    InitInv(t, workers, agents);
    RunKeepsAll(Init(t, workers, agents), past);
  }

  lemma SlotCovers()
    ensures Covers(FromSlot, VisitsOwn, SlotBudget)
  {
  }

  lemma InboxCovers()
    ensures Covers(FromInbox, VisitsTop, InboxBudget)
  {
  }

  lemma PromoteCovers()
    ensures Covers(FromOwn, Resets, (t, f) => PromoteBudget(f))
  {
  }

  lemma MostBudget(t: Tuning, f: Frame)
    ensures SlotBudget(t, f) <= t.lifoRunLimit
    ensures InboxBudget(t, f) <= if t.promoteEvery > 0 then t.promoteEvery else 1
  {
  }

  /** The slot does not starve the rest: in every run, a worker thread starts at most
      `lifo_run_limit` jobs from its warm slot between two looks at its private queue. */
  lemma SlotIsCapped(t: Tuning, s: State, acts: seq<Act>, a: nat)
    requires Reachable(t, s) && a < |s.agents| && Without(s, acts, a, VisitsOwn)
    ensures Counted(s, acts, a, FromSlot) <= t.lifoRunLimit
  {
    ReachableKeeps(t, s);
    SlotCovers();
    WithinBudget(s, acts, a, FromSlot, VisitsOwn, SlotBudget);
    MostBudget(t, s.agents[a].frame);
  }

  /** A producer that feeds the inbox does not keep its worker there: it moves at most
      `promote_every` jobs, or one, between two visits to the top of its loop. */
  lemma InboxIsCapped(t: Tuning, s: State, acts: seq<Act>, a: nat)
    requires Reachable(t, s) && a < |s.agents| && Without(s, acts, a, VisitsTop)
    ensures Counted(s, acts, a, FromInbox) <= if t.promoteEvery > 0 then t.promoteEvery else 1
  {
    ReachableKeeps(t, s);
    InboxCovers();
    WithinBudget(s, acts, a, FromInbox, VisitsTop, InboxBudget);
    MostBudget(t, s.agents[a].frame);
  }

  /** Private jobs do not keep a worker from sharing: it starts fewer of them than its countdown
      says before it looks for sleepers or shares a batch. */
  lemma PromotionComes(t: Tuning, s: State, acts: seq<Act>, a: nat)
    requires Reachable(t, s) && a < |s.agents| && Without(s, acts, a, Resets)
    ensures Counted(s, acts, a, FromOwn) <= PromoteBudget(s.agents[a].frame)
  {
    ReachableKeeps(t, s);
    PromoteCovers();
    WithinBudget(s, acts, a, FromOwn, Resets, (t, f) => PromoteBudget(f));
  }

  /** What the top of the loop does: below the limit it runs the job in the slot, and at the limit
      it takes nothing from the slot and is bound for the private queue. */
  lemma TopTurns(g: Global, workers: seq<Worker>, a: nat, ag: Agent, i: Input)
    requires Typed(|workers|, ag) && InLoop(ag) && ag.frame.pc.Top?
    ensures var e, slot := Next(g, workers, a, ag, i), workers[ag.frame.w].slot;
      && (FromSlot(ag, e) <==> ag.frame.k.lifoRun < g.t.lifoRunLimit && slot.Some?)
      && (FromSlot(ag, e) ==> e.w == ag.frame.w && e.W == workers[e.w].(slot := None) && InLoop(e.ag) && e.ag.frame.pc == Running(slot.value))
      && (!FromSlot(ag, e) ==> e.Note? && e.ran == [] && InLoop(e.ag) && BoundForOwn(e.ag.frame.pc) && e.ag.frame.k.lifoRun == 0)
  {
  }

  /** A refill takes the oldest jobs of the injector, one by one, until the batch is full or none is
      left; then it wakes one sleeper for each job it has left there, as far as there are workers. */
  lemma TakesBatch(g: Global, workers: seq<Worker>, a: nat, ag: Agent, i: Input)
    requires Typed(|workers|, ag) && InLoop(ag) && Kept(g.t, ag.frame) && (ag.frame.pc.Take? || ag.frame.pc.TakeLen?)
    ensures var e, f := Next(g, workers, a, ag, i), ag.frame;
      && e.Note? && e.ag.frame.In? && f.pc.n <= g.t.injectorBatch
      && (if f.pc.Take? && f.pc.n < g.t.injectorBatch && g.injector != [] then
            && e.ag.frame.pc == Take(f.pc.n + 1, f.pc.refill) && InLoop(e.ag)
            && e.ag.frame.mine + e.g.injector == f.mine + g.injector && |e.ag.frame.mine| == |f.mine| + 1
          else e.g.injector == g.injector && e.ag.frame.mine == f.mine)
      && (f.pc.TakeLen? ==>
            if g.injector == [] then e.ag.call.Ready?
            else
              && e.ag.call.Claim? && e.ag.call.spare.None? && 1 <= e.ag.call.left <= |g.injector| && e.ag.call.left <= |workers|
              && (e.ag.call.left == |g.injector| || e.ag.call.left == |workers|))
  {
  }

  /** One step of sharing: the oldest private job goes to the deque, unless enough are shared or
      the deque is full (`Flaky`); then one sleeper is to be woken for each job shared. */
  lemma ShareStep(g: Global, workers: seq<Worker>, a: nat, ag: Agent, i: Input)
    requires Typed(|workers|, ag) && InLoop(ag) && ag.frame.pc.Share?
    ensures var e, f, m := Next(g, workers, a, ag, i), ag.frame, ag.frame.mine;
      if f.pc.left > 0 && m != [] && !i.Flaky? then
        && e.On? && e.w == f.w && e.W == workers[f.w].(deque := workers[f.w].deque + [m[0]])
        && InLoop(e.ag) && e.ag.frame == f.(mine := m[1..], pc := Share(f.pc.left - 1, f.pc.shared + 1, f.pc.next))
      else
        && e.Note? && e.ag.frame == f.(pc := Shared(f.pc.next))
        && e.ag.call == (if f.pc.shared == 0 then Ready else Claim(Some(f.w), f.pc.shared, None, false))
  {
  }

  /** What a schedule finds `a` sharing at every state but the last, and the jobs it shares. */
  predicate SharesOn(s: State, acts: seq<Act>, a: nat)
    decreases |acts|
  {
    acts == [] ||
      (&& AllTyped(s) && a < |s.agents| && InLoop(s.agents[a]) && s.agents[a].frame.pc.Share?
       && (if acts[0].agent < |s.agents| then SharesOn(Step(s, acts[0].agent, acts[0].input), acts[1..], a) else SharesOn(s, acts[1..], a)))
  }

  function SharedJobs(s: State, acts: seq<Act>, a: nat): seq<Job>
    decreases |acts|
  {
    if acts == [] || !AllTyped(s) then []
    else if acts[0].agent < |s.agents| then
      (if acts[0].agent == a then Moves(s.agents[a], acts[0].input) else []) + SharedJobs(Step(s, acts[0].agent, acts[0].input), acts[1..], a)
    else SharedJobs(s, acts[1..], a)
  }

  function Moves(ag: Agent, i: Input): seq<Job> {
    if ag.frame.In? && ag.frame.pc.Share? && ag.frame.pc.left > 0 && ag.frame.mine != [] && !i.Flaky? then [ag.frame.mine[0]] else []
  }

  /** Where sharing has come to, from `left` jobs to share and `shared` already shared. */
  ghost predicate Sharing(ag: Agent, left: nat, shared: nat, mine: seq<Job>, moved: seq<Job>, full: bool) {
    && ag.frame.In? && mine == moved + ag.frame.mine && |moved| <= left
    && (if InLoop(ag) && ag.frame.pc.Share? then ag.frame.pc.left + |moved| == left && ag.frame.pc.shared == shared + |moved|
        else
          && (|moved| == left || ag.frame.mine == [] || full)
          && ag.call == if shared + |moved| == 0 then Ready else Claim(Some(ag.frame.w), shared + |moved|, None, false))
  }

  /** The deque was full when sharing stopped. */
  predicate Stops(acts: seq<Act>) { acts != [] && acts[|acts| - 1].input.Flaky? }

  predicate AtShare(ag: Agent) { InLoop(ag) && ag.frame.pc.Share? }

  lemma NextShares(g: Global, workers: seq<Worker>, a: nat, ag: Agent, i: Input)
    requires Typed(|workers|, ag) && AtShare(ag)
    ensures var e, p := Next(g, workers, a, ag, i), ag.frame.pc;
      !e.Fault? && Sharing(e.ag, p.left, p.shared, ag.frame.mine, Moves(ag, i), i.Flaky?)
  {
    ShareStep(g, workers, a, ag, i);
  }

  lemma OwnShares(s: State, a: nat, i: Input)
    requires Inv(s) && AllTyped(s) && AllKept(s) && a < |s.agents| && AtShare(s.agents[a])
    ensures var s', p := Step(s, a, i), s.agents[a].frame.pc;
      a < |s'.agents| && Sharing(s'.agents[a], p.left, p.shared, s.agents[a].frame.mine, Moves(s.agents[a], i), i.Flaky?)
  {
    StepKeepsAll(s, a, i);
    NextShares(s.g, s.workers, a, s.agents[a], i);
  }

  lemma StillSharing(ag: Agent)
    requires AtShare(ag)
    ensures Sharing(ag, ag.frame.pc.left, ag.frame.pc.shared, ag.frame.mine, [], false)
  {
  }

  /** The first act of a schedule leads to `s1`, and shares `m`. */
  ghost predicate Turn(s: State, acts: seq<Act>, a: nat, s1: State, m: seq<Job>) {
    && acts != [] && Inv(s1) && AllKept(s1) && a < |s1.agents|
    && Execute(s, acts) == Execute(s1, acts[1..])
    && SharesOn(s1, acts[1..], a)
    && SharedJobs(s, acts, a) == m + SharedJobs(s1, acts[1..], a)
  }

  lemma TurnIs(s: State, acts: seq<Act>, a: nat)
    requires Inv(s) && AllTyped(s) && AllKept(s) && a < |s.agents| && acts != [] && SharesOn(s, acts, a) && acts[0].agent < |s.agents|
    ensures Turn(s, acts, a, Step(s, acts[0].agent, acts[0].input), if acts[0].agent == a then Moves(s.agents[a], acts[0].input) else [])
  {
    StepKeepsAll(s, acts[0].agent, acts[0].input);
  }

  lemma NoTurn(s: State, acts: seq<Act>, a: nat)
    requires Inv(s) && AllTyped(s) && AllKept(s) && a < |s.agents| && acts != [] && SharesOn(s, acts, a) && acts[0].agent >= |s.agents|
    ensures Turn(s, acts, a, s, [])
  {
    assert [] + SharedJobs(s, acts[1..], a) == SharedJobs(s, acts, a);
  }

  lemma ShareTurn(s: State, acts: seq<Act>, a: nat) returns (s1: State, m: seq<Job>)
    requires Inv(s) && AllKept(s) && a < |s.agents| && AtShare(s.agents[a]) && SharesOn(s, acts, a) && acts != []
    ensures Turn(s, acts, a, s1, m)
    ensures var p := s.agents[a].frame.pc; Sharing(s1.agents[a], p.left, p.shared, s.agents[a].frame.mine, m, acts[0].input.Flaky?)
  {
    InvTyped(s);
    var b, i := acts[0].agent, acts[0].input;
    s1, m := s, [];
    StillSharing(s.agents[a]);
    if b >= |s.agents| {
      NoTurn(s, acts, a);
    } else {
      TurnIs(s, acts, a);
      s1 := Step(s, b, i);
      if b == a {
        OwnShares(s, a, i);
        m := Moves(s.agents[a], i);
      } else {
        StepKeepsAll(s, b, i);
      }
    }
  }

  lemma OverIsLast(s: State, acts: seq<Act>, a: nat)
    requires SharesOn(s, acts, a) && a < |s.agents| && !AtShare(s.agents[a])
    ensures acts == []
  {
  }

  lemma SharingJoins(ag1: Agent, ag': Agent, left: nat, shared: nat, mine: seq<Job>, m: seq<Job>, moved: seq<Job>, last: bool, full: bool)
    requires Sharing(ag1, left, shared, mine, m, last) && AtShare(ag1)
    requires Sharing(ag', ag1.frame.pc.left, ag1.frame.pc.shared, ag1.frame.mine, moved, full)
    ensures Sharing(ag', left, shared, mine, m + moved, full)
  {
    assert m + (moved + ag'.frame.mine) == (m + moved) + ag'.frame.mine;
  }

  lemma StopsLater(acts: seq<Act>)
    requires |acts| > 1
    ensures Stops(acts[1..]) == Stops(acts)
  {
  }

  lemma LastTurn(s: State, acts: seq<Act>, a: nat, s1: State, m: seq<Job>)
    requires Turn(s, acts, a, s1, m) && !AtShare(s1.agents[a])
    ensures |acts| == 1 && Execute(s, acts) == s1 && SharedJobs(s, acts, a) == m && Stops(acts) == acts[0].input.Flaky?
  {
    OverIsLast(s1, acts[1..], a);
    assert m + [] == m;
  }

  /** Under every schedule, sharing moves the oldest private jobs in order, as many as it set out
      to unless the deque fills up or none is left, and then wakes a sleeper for each of them. */
  lemma {:induction false} SharesOldest(s: State, acts: seq<Act>, a: nat)
    requires Inv(s) && AllKept(s) && a < |s.agents| && AtShare(s.agents[a]) && SharesOn(s, acts, a)
    ensures var s' := Execute(s, acts);
      && a < |s'.agents|
      && Sharing(s'.agents[a], s.agents[a].frame.pc.left, s.agents[a].frame.pc.shared, s.agents[a].frame.mine, SharedJobs(s, acts, a), Stops(acts))
    decreases |acts|
  {
    var ag := s.agents[a];
    if acts == [] {
      StillSharing(ag);
    } else {
      var s1, m := ShareTurn(s, acts, a);
      if AtShare(s1.agents[a]) {
        SharesOldest(s1, acts[1..], a);
        SharingJoins(s1.agents[a], Execute(s1, acts[1..]).agents[a], ag.frame.pc.left, ag.frame.pc.shared, ag.frame.mine,
                     m, SharedJobs(s1, acts[1..], a), acts[0].input.Flaky?, Stops(acts[1..]));
        if |acts| > 1 { StopsLater(acts); }
      } else {
        LastTurn(s, acts, a, s1, m);
      }
    }
  }
}
