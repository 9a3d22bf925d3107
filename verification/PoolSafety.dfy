/** Safety of the pool over every interleaving: what the sleep handshake keeps. */
module PoolSafety {
  import opened Words
  import opened PoolMachine

  /** The worker has a permit, or a thread that has claimed it is about to leave one. */
  predicate Awaking(W: Worker) { W.permit || W.coming != {} }

  /** The worker will look at the injector again before it sleeps, or be woken. */
  predicate Watches(W: Worker) { W.stage <= 1 || Awaking(W) }

  /** A worker that has announced sleep and is no longer marked was claimed. What it has already
      looked at stays empty unless a wake is coming or owed. After shutdown has passed it, it
      does not sleep without a permit. */
  ghost predicate WorkerInv(running: bool, W: Worker) {
    && (W.home <==> W.runner.None?)
    && (W.home ==> W.deque == [] && W.stage == 0)
    && (W.stage >= 1 && !W.bit ==> Awaking(W))
    && (W.stage >= 3 && W.inbox != [] ==> Awaking(W) || W.owing != {})
    && (W.stage >= 4 && W.slot.Some? ==> Awaking(W) || W.owing != {})
    && (W.told ==> !running)
    && (W.stage == 5 && W.told ==> W.permit)
  }

  /** While the pool runs, a job in the injector is somebody's business. */
  ghost predicate LookedAfter(g: Global, workers: seq<Worker>) {
    g.running && g.injector != [] ==>
      g.duty != {} || exists w :: 0 <= w < |workers| && Watches(workers[w])
  }

  ghost predicate SearchInv(g: Global, n: nat) {
    && g.searching == |g.holders| + |g.backing|
    && 2 * |g.holders| <= n + 1
    && g.holders !! g.backing
  }

  ghost predicate PoolInv(g: Global, workers: seq<Worker>) {
    && |workers| > 0
    && LookedAfter(g, workers)
    && SearchInv(g, |workers|)
    && (forall w :: 0 <= w < |workers| ==> WorkerInv(g.running, workers[w]))
  }

  /** How far towards sleep a worker thread at `pc` is. */
  predicate StageAt(pc: Pc, stage: nat) {
    match pc
    case PrepInjector => stage == 1
    case PrepInbox => stage == 2
    case PrepSlot => stage == 3
    case Steal(_, _, prep) => stage == if prep then 4 else 0
    case StealBook(_, _, prep) => stage == if prep then 4 else 0
    case StealKeep(_, prep) => stage == if prep then 4 else 0
    case StealPut(_, prep) => stage == if prep then 4 else 0
    case StealEnd(_, prep) => stage == if prep then 4 else 0
    case LastCheck => stage == 4
    case ExitClear => stage == 4
    case Parked => stage == 5
    case Retract => true
    case _ => stage == 0
  }

  /** Where the private queue is known to be empty. */
  predicate NoMine(pc: Pc) {
    match pc
    case InboxOne => true
    case InboxMove(moved) => moved == 0
    case DequePop => true
    case Search => true
    case SearchBack => true
    case Steal(_, _, _) => true
    case StealBook(_, _, _) => true
    case StealKeep(_, _) => true
    case StealPut(_, _) => true
    case StealEnd(_, _) => true
    case Take(n, refill) => n == 0 && refill
    case TakeLen(n, refill) => n == 0 && refill
    case ReadySlot => true
    case CheckRunning => true
    case Announce => true
    case PrepInjector => true
    case PrepInbox => true
    case PrepSlot => true
    case LastCheck => true
    case ExitClear => true
    case Parked => true
    case Exit => true
    case _ => false
  }

  /** Where the own deque is known to be empty. */
  predicate NoDeque(pc: Pc) {
    match pc
    case Search => true
    case SearchBack => true
    case Steal(_, _, _) => true
    case StealBook(_, _, _) => true
    case StealKeep(_, _) => true
    case StealPut(_, _) => true
    case StealEnd(got, _) => got == 0
    case Take(_, refill) => refill
    case TakeLen(_, refill) => refill
    case ReadySlot => true
    case CheckRunning => true
    case Announce => true
    case PrepInjector => true
    case PrepInbox => true
    case PrepSlot => true
    case LastCheck => true
    case ExitClear => true
    case Parked => true
    case Exit => true
    case _ => false
  }

  ghost predicate LoopInv(workers: seq<Worker>, w: nat, pc: Pc, mine: seq<Job>) {
    && w < |workers|
    && StageAt(pc, workers[w].stage)
    && (NoMine(pc) ==> mine == [])
    && (NoDeque(pc) ==> workers[w].deque == [])
    && (pc.StealBook? ==> (pc.start + pc.off) % |workers| != w)
  }

  ghost predicate FrameInv(workers: seq<Worker>, f: Frame) {
    f.In? ==> LoopInv(workers, f.w, f.pc, f.mine)
  }

  /** Whether a call still has to make sure that somebody looks at the injector. */
  predicate Owes(c: Call) {
    match c
    case Claim(_, left, _, owes) => owes && left > 0
    case Clear(_, left, _, owes, _) => owes && left > 0
    case Spec(_, _, owes) => owes
    case SpecClear(_, _, owes) => owes
    case _ => false
  }

  /** The worker a call has claimed and not yet unparked, and the one whose bit it still has to
      look at after a local submission. */
  function ComingTo(c: Call): Option<nat> {
    match c
    case Signal(_, _, c) => Some(c)
    case SpecSignal(w, _) => Some(w)
    case _ => None
  }

  function OwingTo(c: Call): Option<nat> {
    match c
    case Look(w, _) => Some(w)
    case Displace(w, _, _) => Some(w)
    case Spec(w, _, _) => Some(w)
    case SpecClear(w, _, _) => Some(w)
    case _ => None
  }

  function Runs(f: Frame): Option<nat> { if f.In? then Some(f.w) else None }

  /** Whether a thread holds a search slot, or is giving back one it was refused. */
  predicate Hunts(f: Frame) {
    f.In? && match f.pc
      case Steal(_, _, prep) => !prep
      case StealBook(_, _, prep) => !prep
      case StealKeep(_, prep) => !prep
      case StealPut(_, prep) => !prep
      case StealEnd(_, prep) => !prep
      case _ => false
  }

  predicate BacksOut(f: Frame) { f.In? && f.pc.SearchBack? }

  ghost predicate WorkerTokens(w: nat, W: Worker, a: nat, ag: Agent) {
    && (a in W.coming <==> ComingTo(ag.call) == Some(w))
    && (a in W.owing <==> OwingTo(ag.call) == Some(w))
    && (W.runner == Some(a) <==> Runs(ag.frame) == Some(w))
  }

  ghost predicate GlobalTokens(g: Global, a: nat, ag: Agent) {
    && (a in g.duty <==> Owes(ag.call))
    && (a in g.holders <==> Hunts(ag.frame))
    && (a in g.backing <==> BacksOut(ag.frame))
  }

  ghost predicate CallInv(running: bool, c: Call) {
    match c
    case Shut(_) => !running
    case Claim(spare, left, _, owes) => owes ==> spare.None? && left > 0
    case Clear(spare, left, _, owes, _) => left > 0 && (owes ==> spare.None?)
    case _ => true
  }

  /** The unpark loop of `shut_down` has told every worker below its index. */
  ghost predicate ShutInv(workers: seq<Worker>, c: Call) {
    c.Shut? ==> forall j :: 0 <= j < c.i && j < |workers| ==> workers[j].told
  }

  ghost predicate AgentInv(g: Global, workers: seq<Worker>, a: nat, ag: Agent) {
    var holds :=   // named, so that a use of it stays one fact
      && CallTyped(|workers|, ag.call)
      && ShutInv(workers, ag.call)
      && CallInv(g.running, ag.call)
      && FrameInv(workers, ag.frame)
      && GlobalTokens(g, a, ag)
      && (forall w :: 0 <= w < |workers| ==> WorkerTokens(w, workers[w], a, ag));
    holds
  }

  /** The marks name existing threads. */
  ghost predicate Known(g: Global, workers: seq<Worker>, n: nat) {
    && (forall c :: c in g.duty || c in g.holders || c in g.backing ==> c < n)
    && (forall w :: 0 <= w < |workers| ==> WorkerKnown(workers[w], n))
  }

  ghost predicate WorkerKnown(W: Worker, n: nat) {
    && (forall c :: c in W.coming || c in W.owing ==> c < n)
    && (W.runner.Some? ==> W.runner.value < n)
  }

  ghost predicate Inv(s: State) {
    && !s.fault
    && PoolInv(s.g, s.workers)
    && (forall a :: 0 <= a < |s.agents| ==> AgentInv(s.g, s.workers, a, s.agents[a]))
    && Known(s.g, s.workers, |s.agents|)
  }

  lemma InvTyped(s: State)
    requires Inv(s)
    ensures AllTyped(s)
  {
    forall a | 0 <= a < |s.agents| ensures Typed(|s.workers|, s.agents[a]) {
      assert AgentInv(s.g, s.workers, a, s.agents[a]);
    }
  }

  /** A set of threads changes for `a` only. */
  ghost predicate Kept(S: set<nat>, S': set<nat>, a: nat) {
    forall c :: c != a ==> (c in S <==> c in S')
  }

  /** What a step of thread `a` may do to a worker, as far as every other thread can tell. */
  ghost predicate WorkerEvolves(W: Worker, W': Worker, a: nat) {
    && Kept(W.coming, W'.coming, a)
    && Kept(W.owing, W'.owing, a)
    && (forall c :: c != a ==> (W.runner == Some(c) <==> W'.runner == Some(c)))
    && (W.runner.Some? && W.runner != Some(a) ==>
          && W'.stage == W.stage
          && (W.deque == [] ==> W'.deque == [])
          && (W'.bit ==> W.bit)
          && (W.permit ==> W'.permit))
    && (W.told ==> W'.told)
  }

  ghost predicate GlobalEvolves(g: Global, g': Global, a: nat) {
    && g'.t == g.t
    && (g'.running ==> g.running)
    && Kept(g.duty, g'.duty, a)
    && Kept(g.holders, g'.holders, a)
    && Kept(g.backing, g'.backing, a)
  }

  /** Other threads' knowledge survives a step. */
  lemma StableFrame(workers: seq<Worker>, workers': seq<Worker>, w: nat, a: nat, c: nat, f: Frame)
    requires w < |workers| == |workers'| && workers' == workers[w := workers'[w]] && a != c
    requires WorkerEvolves(workers[w], workers'[w], a) && FrameInv(workers, f)
    requires f.In? && f.w < |workers| ==> workers[f.w].runner == Some(c)
    ensures FrameInv(workers', f)
  {
  }

  lemma StableTokens(workers: seq<Worker>, workers': seq<Worker>, w: nat, a: nat, c: nat, ag: Agent)
    requires w < |workers| == |workers'| && workers' == workers[w := workers'[w]] && a != c
    requires WorkerEvolves(workers[w], workers'[w], a)
    requires forall v :: 0 <= v < |workers| ==> WorkerTokens(v, workers[v], c, ag)
    ensures forall v :: 0 <= v < |workers'| ==> WorkerTokens(v, workers'[v], c, ag)
  {
    assert WorkerTokens(w, workers[w], c, ag);
  }

  lemma Stable(g: Global, g': Global, workers: seq<Worker>, workers': seq<Worker>, w: nat, a: nat, c: nat, ag: Agent)
    requires w < |workers| == |workers'| && workers' == workers[w := workers'[w]] && a != c
    requires WorkerEvolves(workers[w], workers'[w], a) && GlobalEvolves(g, g', a)
    requires AgentInv(g, workers, c, ag)
    ensures AgentInv(g', workers', c, ag)
  {
    if ag.frame.In? { assert WorkerTokens(ag.frame.w, workers[ag.frame.w], c, ag); }
    StableFrame(workers, workers', w, a, c, ag.frame);
    StableTokens(workers, workers', w, a, c, ag);
  }

  /** A step of thread `a` never faults, keeps the invariant of the pool and its own, and
      disturbs nobody else. */
  ghost predicate Good(g: Global, workers: seq<Worker>, a: nat, e: Effect) {
    var holds :=
      match e
      case Fault => false
      case Note(ag, g', _, _) =>
        PoolInv(g', workers) && AgentInv(g', workers, a, ag) && GlobalEvolves(g, g', a)
      case On(ag, g', w, W', _, _) =>
        && w < |workers|
        && PoolInv(g', workers[w := W']) && AgentInv(g', workers[w := W'], a, ag)
        && GlobalEvolves(g, g', a) && WorkerEvolves(workers[w], W', a);
    holds
  }

  lemma KnownKept(g: Global, g': Global, workers: seq<Worker>, w: nat, W': Worker, a: nat, n: nat)
    requires Known(g, workers, n) && GlobalEvolves(g, g', a) && w < |workers| && WorkerEvolves(workers[w], W', a) && a < n
    ensures Known(g', workers[w := W'], n)
  {
    assert WorkerKnown(workers[w], n);
    forall c | c in g'.duty || c in g'.holders || c in g'.backing ensures c < n {
      if c != a { assert c in g.duty || c in g.holders || c in g.backing; }
    }
    forall c | c in W'.coming || c in W'.owing ensures c < n {
      if c != a { assert c in workers[w].coming || c in workers[w].owing; }
    }
    if W'.runner.Some? && W'.runner.value != a { assert workers[w].runner == W'.runner; }
  }

  lemma SameEvolves(W: Worker, a: nat)
    ensures WorkerEvolves(W, W, a)
  {
  }

  lemma ApplyKeeps(s: State, a: nat, e: Effect)
    requires Inv(s) && a < |s.agents| && Good(s.g, s.workers, a, e)
    ensures Inv(Apply(s, a, e))
  {
    var w := if e.On? then e.w else 0;
    var W' := if e.On? then e.W else s.workers[0];
    SameEvolves(s.workers[0], a);
    var workers' := s.workers[w := W'];
    assert workers' == Apply(s, a, e).workers;
    KnownKept(s.g, e.g, s.workers, w, W', a, |s.agents|);
    var agents := s.agents[a := e.ag];
    forall c | 0 <= c < |agents| ensures AgentInv(e.g, workers', c, agents[c]) {
      if c != a { Stable(s.g, e.g, s.workers, workers', w, a, c, s.agents[c]); }
    }
  }

  /** The marks of a thread at `ag'` differ from those at `ag` at most on worker `w`. */
  ghost predicate OnlyAt(ag: Agent, ag': Agent, w: nat) {
    && (ComingTo(ag'.call) == ComingTo(ag.call) || (Within(ComingTo(ag.call), w) && Within(ComingTo(ag'.call), w)))
    && (OwingTo(ag'.call) == OwingTo(ag.call) || (Within(OwingTo(ag.call), w) && Within(OwingTo(ag'.call), w)))
    && (Runs(ag'.frame) == Runs(ag.frame) || (Within(Runs(ag.frame), w) && Within(Runs(ag'.frame), w)))
  }

  predicate Within(o: Option<nat>, w: nat) { o.Some? ==> o.value == w }

  lemma OtherTokens(workers: seq<Worker>, workers': seq<Worker>, w: nat, a: nat, ag: Agent, ag': Agent)
    requires w < |workers| == |workers'| && workers' == workers[w := workers'[w]]
    requires OnlyAt(ag, ag', w) && WorkerTokens(w, workers'[w], a, ag')
    requires forall v :: 0 <= v < |workers| ==> WorkerTokens(v, workers[v], a, ag)
    ensures forall v :: 0 <= v < |workers'| ==> WorkerTokens(v, workers'[v], a, ag')
  {
    forall v | 0 <= v < |workers'| ensures WorkerTokens(v, workers'[v], a, ag') {
      assert WorkerTokens(v, workers[v], a, ag);
    }
  }

  /** A step that changes one worker. */
  lemma GoodOn(g: Global, g': Global, workers: seq<Worker>, a: nat, ag: Agent, ag': Agent, w: nat, W': Worker, put: seq<Job>, ran: seq<Job>)
    requires AgentInv(g, workers, a, ag) && w < |workers| && PoolInv(g', workers[w := W'])
    requires CallTyped(|workers|, ag'.call) && CallInv(g'.running, ag'.call) && FrameInv(workers[w := W'], ag'.frame) && ShutInv(workers[w := W'], ag'.call)
    requires GlobalEvolves(g, g', a) && GlobalTokens(g', a, ag')
    requires WorkerEvolves(workers[w], W', a) && WorkerTokens(w, W', a, ag') && OnlyAt(ag, ag', w)
    ensures Good(g, workers, a, On(ag', g', w, W', put, ran))
  {
    OtherTokens(workers, workers[w := W'], w, a, ag, ag');
  }

  /** A step that changes no worker. */
  lemma GoodNote(g: Global, g': Global, workers: seq<Worker>, a: nat, ag: Agent, ag': Agent, put: seq<Job>, ran: seq<Job>)
    requires AgentInv(g, workers, a, ag) && PoolInv(g', workers)
    requires CallTyped(|workers|, ag'.call) && CallInv(g'.running, ag'.call) && FrameInv(workers, ag'.frame) && ShutInv(workers, ag'.call)
    requires GlobalEvolves(g, g', a) && GlobalTokens(g', a, ag')
    requires ComingTo(ag'.call) == ComingTo(ag.call) && OwingTo(ag'.call) == OwingTo(ag.call) && Runs(ag'.frame) == Runs(ag.frame)
    ensures Good(g, workers, a, Note(ag', g', put, ran))
  {
    forall v | 0 <= v < |workers| ensures WorkerTokens(v, workers[v], a, ag') {
      assert WorkerTokens(v, workers[v], a, ag);
    }
  }

  /** A step that changes nothing shared. */
  lemma GoodSkip(g: Global, workers: seq<Worker>, a: nat, ag: Agent, ag': Agent, put: seq<Job>, ran: seq<Job>)
    requires AgentInv(g, workers, a, ag) && PoolInv(g, workers)
    requires CallTyped(|workers|, ag'.call) && CallInv(g.running, ag'.call) && FrameInv(workers, ag'.frame) && !ag'.call.Shut?
    requires Owes(ag'.call) == Owes(ag.call) && Hunts(ag'.frame) == Hunts(ag.frame) && BacksOut(ag'.frame) == BacksOut(ag.frame)
    requires ComingTo(ag'.call) == ComingTo(ag.call) && OwingTo(ag'.call) == OwingTo(ag.call) && Runs(ag'.frame) == Runs(ag.frame)
    ensures Good(g, workers, a, Note(ag', g, put, ran))
  {
    GoodNote(g, g, workers, a, ag, ag', put, ran);
  }

  /** The pool after one worker changed: nobody who watched stops watching. */
  lemma PoolKept(g: Global, workers: seq<Worker>, w: nat, W': Worker)
    requires PoolInv(g, workers) && w < |workers| && WorkerInv(g.running, W') && (Watches(workers[w]) ==> Watches(W'))
    ensures PoolInv(g, workers[w := W'])
  {
    LookedKept(g, workers, w, W');
  }

  lemma LookedKept(g: Global, workers: seq<Worker>, w: nat, W': Worker)
    requires LookedAfter(g, workers) && w < |workers| && (Watches(workers[w]) ==> Watches(W'))
    ensures LookedAfter(g, workers[w := W'])
  {
    if exists v :: 0 <= v < |workers| && Watches(workers[v]) {
      var v :| 0 <= v < |workers| && Watches(workers[v]);
      assert Watches(workers[w := W'][v]);
    }
  }

  /** The pool after one worker changed, which watches now: a duty may end there. */
  lemma PoolWatched(g: Global, g': Global, workers: seq<Worker>, w: nat, W': Worker)
    requires PoolInv(g, workers) && w < |workers| && WorkerInv(g.running, W') && Watches(W')
    requires g' == g.(duty := g'.duty)
    ensures PoolInv(g', workers[w := W'])
  {
    assert Watches(workers[w := W'][w]);
  }

  lemma WorkerOf(g: Global, workers: seq<Worker>, w: nat)
    requires PoolInv(g, workers) && w < |workers|
    ensures WorkerInv(g.running, workers[w])
  {
  }

  /** Pushing to the injector makes the pusher responsible. */
  lemma PoolPushed(g: Global, workers: seq<Worker>, a: nat, job: Job)
    requires PoolInv(g, workers)
    ensures PoolInv(g.(injector := g.injector + [job], duty := g.duty + {a}), workers)
  {
    assert a in g.duty + {a};
  }

  /** Finding no announced sleeper at all ends the duty: every worker watches. */
  lemma PoolNobody(g: Global, g': Global, workers: seq<Worker>)
    requires PoolInv(g, workers) && g' == g.(duty := g'.duty) && Lowest(workers, None, 0).None?
    ensures PoolInv(g', workers)
  {
    WorkerOf(g, workers, 0);
    assert Watches(workers[0]);
  }

  lemma GoodPush(g: Global, workers: seq<Worker>, a: nat, ag: Agent, job: Job, hint: Option<nat>)
    requires PoolInv(g, workers) && AgentInv(g, workers, a, ag) && ag.call == Push(job, hint)
    ensures Good(g, workers, a, StepCall(g, workers, a, ag.frame, ag.call, Go))
  {
    PoolPushed(g, workers, a, job);
    GoodNote(g, g.(injector := g.injector + [job], duty := g.duty + {a}), workers, a, ag, Agent(ag.frame, Claim(None, 1, hint, true)), [], []);
  }

  lemma GoodClaim(g: Global, workers: seq<Worker>, a: nat, ag: Agent)
    requires PoolInv(g, workers) && AgentInv(g, workers, a, ag) && ag.call.Claim?
    ensures Good(g, workers, a, StepClaim(g, workers, a, ag.frame, ag.call.spare, ag.call.left, ag.call.hint, ag.call.owes))
  {
    var Claim(spare, left, hint, owes) := ag.call;
    if left == 0 {
      GoodSkip(g, workers, a, ag, Agent(ag.frame, Ready), [], []);
    } else {
      match Lowest(workers, spare, 0)
      case Some(c) => {
        GoodSkip(g, workers, a, ag, Agent(ag.frame, Clear(spare, left, hint, owes, c)), [], []);
      }
      case None => {
        var g' := g.(duty := g.duty - {a});
        if owes { PoolNobody(g, g', workers); } else { assert g' == g; }
        GoodNote(g, g', workers, a, ag, Agent(ag.frame, if hint.Some? then Hint(hint.value) else Ready), [], []);
      }
    }
  }

  lemma GoodClear(g: Global, workers: seq<Worker>, a: nat, ag: Agent)
    requires PoolInv(g, workers) && AgentInv(g, workers, a, ag) && ag.call.Clear?
    ensures Good(g, workers, a, StepClear(g, workers[ag.call.c], a, ag.frame, ag.call.spare, ag.call.left, ag.call.hint, ag.call.owes, ag.call.c))
  {
    var Clear(spare, left, hint, owes, c) := ag.call;
    var W := workers[c];
    WorkerOf(g, workers, c);
    assert WorkerTokens(c, W, a, ag);
    if W.bit {
      var W', g' := W.(bit := false, coming := W.coming + {a}), g.(duty := g.duty - {a});
      assert a in W'.coming;
      PoolWatched(g, g', workers, c, W');
      GoodOn(g, g', workers, a, ag, Agent(ag.frame, Signal(spare, left, c)), c, W', [], []);
    } else {
      GoodSkip(g, workers, a, ag, Agent(ag.frame, Claim(spare, left, hint, owes)), [], []);
    }
  }

  /** Leaving a permit. */
  lemma GoodSignal(g: Global, workers: seq<Worker>, a: nat, ag: Agent, c: nat, call: Call)
    requires PoolInv(g, workers) && AgentInv(g, workers, a, ag) && c < |workers|
    requires ComingTo(ag.call) == Some(c) || (ag.call.Hint? && c == ag.call.c)
    requires CallTyped(|workers|, call) && CallInv(g.running, call) && !call.Shut? && !Owes(call) && ComingTo(call) == None && OwingTo(call) == None
    ensures Good(g, workers, a, Touch(Agent(ag.frame, call), g, c, workers[c].(permit := true, coming := workers[c].coming - {a})))
  {
    var W := workers[c];
    var W' := W.(permit := true, coming := W.coming - {a});
    WorkerOf(g, workers, c);
    assert WorkerTokens(c, W, a, ag);
    PoolKept(g, workers, c, W');
    GoodOn(g, g, workers, a, ag, Agent(ag.frame, call), c, W', [], []);
  }

  lemma GoodPut(g: Global, workers: seq<Worker>, a: nat, ag: Agent)
    requires PoolInv(g, workers) && AgentInv(g, workers, a, ag) && ag.call.Put?
    ensures Good(g, workers, a, StepPut(g, workers[ag.call.w], a, ag.frame, ag.call.w, ag.call.job))
  {
    var w, W := ag.call.w, workers[ag.call.w];
    var W' := W.(slot := Some(ag.call.job), owing := W.owing + {a});
    WorkerOf(g, workers, w);
    assert WorkerTokens(w, W, a, ag);
    assert a in W'.owing;
    PoolKept(g, workers, w, W');
    GoodOn(g, g, workers, a, ag, StepPut(g, W, a, ag.frame, w, ag.call.job).ag, w, W', [], []);
  }

  lemma GoodDisplace(g: Global, workers: seq<Worker>, a: nat, ag: Agent)
    requires PoolInv(g, workers) && AgentInv(g, workers, a, ag) && ag.call.Displace?
    ensures Good(g, workers, a, StepDisplace(g, workers[ag.call.w], a, ag.frame, ag.call.w, ag.call.job, ag.call.toInjector))
  {
    var Displace(w, job, toInjector) := ag.call;
    var W := workers[w];
    WorkerOf(g, workers, w);
    assert WorkerTokens(w, W, a, ag);
    if toInjector {
      PoolPushed(g, workers, a, job);
      GoodNote(g, g.(injector := g.injector + [job], duty := g.duty + {a}), workers, a, ag, Agent(ag.frame, Spec(w, false, true)), [], []);
    } else {
      var W' := W.(inbox := W.inbox + [job]);
      PoolKept(g, workers, w, W');
      GoodOn(g, g, workers, a, ag, Agent(ag.frame, Spec(w, g.t.stealableInbox, false)), w, W', [], []);
    }
  }

  lemma GoodSpec(g: Global, workers: seq<Worker>, a: nat, ag: Agent)
    requires PoolInv(g, workers) && AgentInv(g, workers, a, ag) && ag.call.Spec?
    ensures Good(g, workers, a, StepSpec(g, workers[ag.call.w], a, ag.frame, ag.call.w, ag.call.published, ag.call.owes))
  {
    var Spec(w, published, owes) := ag.call;
    if workers[w].bit {
      GoodSkip(g, workers, a, ag, Agent(ag.frame, SpecClear(w, published, owes)), [], []);
    } else {
      GoodSpecLost(g, workers, a, ag);
    }
  }

  lemma GoodSpecTaken(g: Global, workers: seq<Worker>, a: nat, ag: Agent)
    requires PoolInv(g, workers) && AgentInv(g, workers, a, ag) && ag.call.SpecClear? && workers[ag.call.w].bit
    ensures var w, W := ag.call.w, workers[ag.call.w];
      Good(g, workers, a, Touch(Agent(ag.frame, SpecSignal(w, ag.call.published)), g.(duty := g.duty - {a}), w,
                                W.(bit := false, owing := W.owing - {a}, coming := W.coming + {a})))
  {
    var w, W := ag.call.w, workers[ag.call.w];
    WorkerOf(g, workers, w);
    assert WorkerTokens(w, W, a, ag);
    var g', W' := g.(duty := g.duty - {a}), W.(bit := false, owing := W.owing - {a}, coming := W.coming + {a});
    assert a in W'.coming;
    PoolWatched(g, g', workers, w, W');
    GoodOn(g, g', workers, a, ag, Agent(ag.frame, SpecSignal(w, ag.call.published)), w, W', [], []);
  }

  lemma GoodSpecLost(g: Global, workers: seq<Worker>, a: nat, ag: Agent)
    requires PoolInv(g, workers) && AgentInv(g, workers, a, ag) && (ag.call.SpecClear? || ag.call.Spec?) && !workers[ag.call.w].bit
    ensures var w, W := ag.call.w, workers[ag.call.w];
      Good(g, workers, a, Touch(Agent(ag.frame, AfterSpec(w, ag.call.published)), g.(duty := g.duty - {a}), w,
                                W.(bit := false, owing := W.owing - {a})))
  {
    var w, W := ag.call.w, workers[ag.call.w];
    WorkerOf(g, workers, w);
    assert WorkerTokens(w, W, a, ag);
    var g', W' := g.(duty := g.duty - {a}), W.(bit := false, owing := W.owing - {a});
    PoolWatched(g, g', workers, w, W');
    GoodOn(g, g', workers, a, ag, Agent(ag.frame, AfterSpec(w, ag.call.published)), w, W', [], []);
  }

  lemma GoodSpecClear(g: Global, workers: seq<Worker>, a: nat, ag: Agent)
    requires PoolInv(g, workers) && AgentInv(g, workers, a, ag) && ag.call.SpecClear?
    ensures Good(g, workers, a, StepSpecClear(g, workers[ag.call.w], a, ag.frame, ag.call.w, ag.call.published))
  {
    if workers[ag.call.w].bit {
      GoodSpecTaken(g, workers, a, ag);
    } else {
      GoodSpecLost(g, workers, a, ag);
    }
  }

  lemma GoodShut(g: Global, workers: seq<Worker>, a: nat, ag: Agent)
    requires PoolInv(g, workers) && AgentInv(g, workers, a, ag) && ag.call.Shut?
    ensures Good(g, workers, a, StepCall(g, workers, a, ag.frame, ag.call, Go))
  {
    var i := ag.call.i;
    if i < |workers| {
      var W' := workers[i].(permit := true, told := true);
      WorkerOf(g, workers, i);
      assert WorkerTokens(i, workers[i], a, ag);
      PoolKept(g, workers, i, W');
      GoodOn(g, g, workers, a, ag, Agent(ag.frame, Shut(i + 1)), i, W', [], []);
    } else {
      GoodSkip(g, workers, a, ag, Agent(ag.frame, Ready), [], []);
    }
  }

  lemma GoodHalt(g: Global, workers: seq<Worker>, a: nat, ag: Agent)
    requires PoolInv(g, workers) && AgentInv(g, workers, a, ag) && ag.call.Halt?
    ensures Good(g, workers, a, StepCall(g, workers, a, ag.frame, ag.call, Go))
  {
    GoodNote(g, g.(running := false), workers, a, ag, Agent(ag.frame, Shut(0)), [], []);
  }

  lemma GoodCall(g: Global, workers: seq<Worker>, a: nat, ag: Agent, i: Input)
    requires PoolInv(g, workers) && AgentInv(g, workers, a, ag) && !ag.call.Ready?
    ensures Good(g, workers, a, StepCall(g, workers, a, ag.frame, ag.call, i))
  {
    match ag.call
    case Push(job, hint) => GoodPush(g, workers, a, ag, job, hint);
    case Claim(_, _, _, _) => GoodClaim(g, workers, a, ag);
    case Clear(_, _, _, _, _) => GoodClear(g, workers, a, ag);
    case Signal(spare, left, c) => GoodSignal(g, workers, a, ag, c, Claim(spare, if left > 0 then left - 1 else 0, None, false));
    case Hint(c) => {
      assert WorkerTokens(c, workers[c], a, ag);
      assert workers[c].coming - {a} == workers[c].coming;
      GoodSignal(g, workers, a, ag, c, Ready);
    }
    case Put(_, _) => GoodPut(g, workers, a, ag);
    case Look(w, job) => GoodSkip(g, workers, a, ag, Agent(ag.frame, Displace(w, job, i.Flaky? || workers[w].inbox != [])), [], []);
    case Displace(_, _, _) => GoodDisplace(g, workers, a, ag);
    case Spec(_, _, _) => GoodSpec(g, workers, a, ag);
    case SpecClear(_, _, _) => GoodSpecClear(g, workers, a, ag);
    case SpecSignal(w, published) => GoodSignal(g, workers, a, ag, w, AfterSpec(w, published));
    case Halt => GoodHalt(g, workers, a, ag);
    case Shut(_) => GoodShut(g, workers, a, ag);
  }

  /** A call that carries no mark yet. */
  ghost predicate Plain(g: Global, n: nat, c: Call) {
    CallTyped(n, c) && CallInv(g.running, c) && !c.Shut? && !Owes(c) && ComingTo(c) == None && OwingTo(c) == None
  }

  /** A worker thread goes on in its loop without touching anything shared. */
  lemma GoodLocal(g: Global, workers: seq<Worker>, a: nat, ag: Agent, ag': Agent, put: seq<Job>, ran: seq<Job>)
    requires PoolInv(g, workers) && AgentInv(g, workers, a, ag) && ag.call.Ready? && Plain(g, |workers|, ag'.call)
    requires Runs(ag'.frame) == Runs(ag.frame) && FrameInv(workers, ag'.frame)
    requires Hunts(ag'.frame) == Hunts(ag.frame) && BacksOut(ag'.frame) == BacksOut(ag.frame)
    ensures Good(g, workers, a, Note(ag', g, put, ran))
  {
    GoodSkip(g, workers, a, ag, ag', put, ran);
  }

  /** It changes the containers, the bit, the permit or the stage of its own worker. */
  ghost predicate OwnChange(W: Worker, W': Worker) {
    W' == W.(deque := W'.deque, inbox := W'.inbox, slot := W'.slot, bit := W'.bit, permit := W'.permit, stage := W'.stage)
  }

  lemma PoolOwn(g: Global, workers: seq<Worker>, w: nat, W': Worker)
    requires PoolInv(g, workers) && w < |workers| && WorkerInv(g.running, W')
    requires (Watches(workers[w]) ==> Watches(W')) || g.injector == []
    ensures PoolInv(g, workers[w := W'])
  {
    if g.injector != [] { LookedKept(g, workers, w, W'); }
  }

  lemma GoodOwn(g: Global, workers: seq<Worker>, a: nat, ag: Agent, ag': Agent, W': Worker)
    requires PoolInv(g, workers) && AgentInv(g, workers, a, ag) && ag.call.Ready? && Plain(g, |workers|, ag'.call)
    requires ag.frame.In? && ag'.frame.In? && ag'.frame.w == ag.frame.w
    requires Hunts(ag'.frame) == Hunts(ag.frame) && BacksOut(ag'.frame) == BacksOut(ag.frame)
    requires OwnChange(workers[ag.frame.w], W') && WorkerInv(g.running, W')
    requires (Watches(workers[ag.frame.w]) ==> Watches(W')) || g.injector == []
    requires LoopInv(workers[ag.frame.w := W'], ag.frame.w, ag'.frame.pc, ag'.frame.mine)
    ensures Good(g, workers, a, Touch(ag', g, ag.frame.w, W'))
  {
    var w := ag.frame.w;
    assert WorkerTokens(w, workers[w], a, ag);
    PoolOwn(g, workers, w, W');
    GoodOn(g, g, workers, a, ag, ag', w, W', [], []);
  }

  /** A worker that runs: the thread at `ag` has its deque. */
  lemma RunnerOf(g: Global, workers: seq<Worker>, a: nat, ag: Agent)
    requires PoolInv(g, workers) && AgentInv(g, workers, a, ag) && ag.frame.In?
    ensures WorkerInv(g.running, workers[ag.frame.w]) && workers[ag.frame.w].runner == Some(a) && !workers[ag.frame.w].home
  {
    assert WorkerTokens(ag.frame.w, workers[ag.frame.w], a, ag);
  }

  /** A container change that adds nothing a sleeper would have to know of. */
  lemma GoodContainers(g: Global, workers: seq<Worker>, a: nat, ag: Agent, ag': Agent, W': Worker)
    requires PoolInv(g, workers) && AgentInv(g, workers, a, ag) && ag.call.Ready? && Plain(g, |workers|, ag'.call)
    requires ag.frame.In? && ag'.frame.In? && ag'.frame.w == ag.frame.w
    requires Hunts(ag'.frame) == Hunts(ag.frame) && BacksOut(ag'.frame) == BacksOut(ag.frame)
    requires var W := workers[ag.frame.w];
      && W' == W.(deque := W'.deque, inbox := W'.inbox, slot := W'.slot)
      && (W.stage == 0 || (W'.inbox == W.inbox && W'.slot == W.slot))
      && StageAt(ag'.frame.pc, W.stage)
    requires NoMine(ag'.frame.pc) ==> ag'.frame.mine == []
    requires NoDeque(ag'.frame.pc) ==> W'.deque == []
    requires !ag'.frame.pc.StealBook?
    ensures Good(g, workers, a, Touch(ag', g, ag.frame.w, W'))
  {
    RunnerOf(g, workers, a, ag);
    GoodOwn(g, workers, a, ag, ag', W');
  }

  lemma GoodTop(g: Global, workers: seq<Worker>, a: nat, ag: Agent, i: Input)
    requires PoolInv(g, workers) && AgentInv(g, workers, a, ag) && ag.call.Ready? && ag.frame.In?
    requires ag.frame.pc.Top? || ag.frame.pc.CapLook? || ag.frame.pc.CapTake?
    ensures Good(g, workers, a, StepLoop(g, workers, a, ag.frame.w, ag.frame.pc, ag.frame.mine, ag.frame.k, i))
  {
    var e := StepLoop(g, workers, a, ag.frame.w, ag.frame.pc, ag.frame.mine, ag.frame.k, i);
    if e.On? { GoodContainers(g, workers, a, ag, e.ag, e.W); } else { GoodLocal(g, workers, a, ag, e.ag, [], []); }
  }

  lemma GoodCap(g: Global, workers: seq<Worker>, a: nat, ag: Agent, i: Input)
    requires PoolInv(g, workers) && AgentInv(g, workers, a, ag) && ag.call.Ready? && ag.frame.In?
    requires ag.frame.pc.CapPush? || ag.frame.pc.CapLen?
    ensures Good(g, workers, a, StepLoop(g, workers, a, ag.frame.w, ag.frame.pc, ag.frame.mine, ag.frame.k, i))
  {
    var e := StepLoop(g, workers, a, ag.frame.w, ag.frame.pc, ag.frame.mine, ag.frame.k, i);
    if e.On? { GoodContainers(g, workers, a, ag, e.ag, e.W); } else { GoodLocal(g, workers, a, ag, e.ag, [], []); }
  }

  lemma PoolTaken(g: Global, workers: seq<Worker>)
    requires PoolInv(g, workers) && g.injector != []
    ensures PoolInv(g.(injector := g.injector[1..]), workers)
  {
  }

  lemma GoodTake(g: Global, workers: seq<Worker>, a: nat, ag: Agent)
    requires PoolInv(g, workers) && AgentInv(g, workers, a, ag) && ag.call.Ready? && ag.frame.In? && ag.frame.pc.Take?
    ensures Good(g, workers, a, StepTake(g, ag.frame.w, ag.frame.pc.n, ag.frame.pc.refill, ag.frame.mine, ag.frame.k))
  {
    var e := StepTake(g, ag.frame.w, ag.frame.pc.n, ag.frame.pc.refill, ag.frame.mine, ag.frame.k);
    if g.injector != [] { PoolTaken(g, workers); }
    GoodNote(g, e.g, workers, a, ag, e.ag, [], []);
  }

  lemma GoodTakeLen(g: Global, workers: seq<Worker>, a: nat, ag: Agent)
    requires PoolInv(g, workers) && AgentInv(g, workers, a, ag) && ag.call.Ready? && ag.frame.In? && ag.frame.pc.TakeLen?
    ensures Good(g, workers, a, StepTakeLen(g, |workers|, ag.frame.w, ag.frame.pc.n, ag.frame.pc.refill, ag.frame.mine, ag.frame.k))
  {
    var e := StepTakeLen(g, |workers|, ag.frame.w, ag.frame.pc.n, ag.frame.pc.refill, ag.frame.mine, ag.frame.k);
    GoodLocal(g, workers, a, ag, e.ag, [], []);
  }

  predicate IsOwnWork(pc: Pc) {
    pc.Own? || pc.Promote? || pc.Share? || pc.Shared?
  }

  lemma GoodShare(g: Global, workers: seq<Worker>, a: nat, ag: Agent, i: Input)
    requires PoolInv(g, workers) && AgentInv(g, workers, a, ag) && ag.call.Ready? && ag.frame.In? && ag.frame.pc.Share?
    ensures Good(g, workers, a, StepShare(g, workers[ag.frame.w], ag.frame.w, ag.frame.pc.left, ag.frame.pc.shared, ag.frame.pc.next, ag.frame.mine, ag.frame.k, i))
  {
    var e := StepShare(g, workers[ag.frame.w], ag.frame.w, ag.frame.pc.left, ag.frame.pc.shared, ag.frame.pc.next, ag.frame.mine, ag.frame.k, i);
    if e.On? { GoodContainers(g, workers, a, ag, e.ag, e.W); } else { GoodLocal(g, workers, a, ag, e.ag, [], []); }
  }

  lemma GoodOwnLocal(g: Global, workers: seq<Worker>, a: nat, ag: Agent, i: Input)
    requires PoolInv(g, workers) && AgentInv(g, workers, a, ag) && ag.call.Ready? && ag.frame.In?
    requires ag.frame.pc.Own? || ag.frame.pc.Promote? || ag.frame.pc.Shared?
    ensures Good(g, workers, a, StepLoop(g, workers, a, ag.frame.w, ag.frame.pc, ag.frame.mine, ag.frame.k, i))
  {
    var e := StepLoop(g, workers, a, ag.frame.w, ag.frame.pc, ag.frame.mine, ag.frame.k, i);
    GoodLocal(g, workers, a, ag, e.ag, [], []);
  }

  lemma GoodOwnWork(g: Global, workers: seq<Worker>, a: nat, ag: Agent, i: Input)
    requires PoolInv(g, workers) && AgentInv(g, workers, a, ag) && ag.call.Ready? && ag.frame.In? && IsOwnWork(ag.frame.pc)
    ensures Good(g, workers, a, StepLoop(g, workers, a, ag.frame.w, ag.frame.pc, ag.frame.mine, ag.frame.k, i))
  {
    if ag.frame.pc.Share? { GoodShare(g, workers, a, ag, i); } else { GoodOwnLocal(g, workers, a, ag, i); }
  }

  predicate IsPopWork(pc: Pc) {
    pc.InboxOne? || pc.InboxMove? || pc.DequePop? || pc.ReadySlot?
  }

  lemma GoodPopWork(g: Global, workers: seq<Worker>, a: nat, ag: Agent, i: Input)
    requires PoolInv(g, workers) && AgentInv(g, workers, a, ag) && ag.call.Ready? && ag.frame.In? && IsPopWork(ag.frame.pc)
    ensures Good(g, workers, a, StepLoop(g, workers, a, ag.frame.w, ag.frame.pc, ag.frame.mine, ag.frame.k, i))
  {
    var e := StepLoop(g, workers, a, ag.frame.w, ag.frame.pc, ag.frame.mine, ag.frame.k, i);
    if e.On? { GoodContainers(g, workers, a, ag, e.ag, e.W); } else { GoodLocal(g, workers, a, ag, e.ag, [], []); }
  }

  lemma GoodRunning(g: Global, workers: seq<Worker>, a: nat, ag: Agent, i: Input)
    requires PoolInv(g, workers) && AgentInv(g, workers, a, ag) && ag.call.Ready? && ag.frame.In? && ag.frame.pc.Running?
    ensures Good(g, workers, a, StepRunning(g, |workers|, ag.frame.w, ag.frame.pc.job, ag.frame.mine, ag.frame.k, i))
  {
    var e := StepRunning(g, |workers|, ag.frame.w, ag.frame.pc.job, ag.frame.mine, ag.frame.k, i);
    GoodLocal(g, workers, a, ag, e.ag, e.put, e.ran);
  }

  lemma GoodOutside(g: Global, workers: seq<Worker>, a: nat, ag: Agent, i: Input)
    requires PoolInv(g, workers) && AgentInv(g, workers, a, ag) && ag.call.Ready? && ag.frame.Outside?
    ensures Good(g, workers, a, StepOutside(g, workers, a, i))
  {
    var e := StepOutside(g, workers, a, i);
    if e.On? {
      WorkerOf(g, workers, e.w);
      assert WorkerTokens(e.w, workers[e.w], a, ag);
      PoolKept(g, workers, e.w, e.W);
      GoodOn(g, g, workers, a, ag, e.ag, e.w, e.W, [], []);
    } else {
      GoodLocal(g, workers, a, ag, e.ag, e.put, e.ran);
    }
  }

  lemma SearchCounts(g: Global, n: nat, a: nat, w: nat, mine: seq<Job>, k: Counters, i: Input)
    requires SearchInv(g, n) && a !in g.holders && a !in g.backing
    ensures var e := StepSearch(g, n, a, w, mine, k, i); e.Note? && SearchInv(e.g, n)
  {
  }

  /** At most half of the workers, rounded up, get a search slot: one is only granted while the
      counter, which is at least the number of slots, is below half. */
  lemma GoodGranted(g: Global, workers: seq<Worker>, a: nat, ag: Agent, start: nat)
    requires PoolInv(g, workers) && AgentInv(g, workers, a, ag) && ag.call.Ready? && ag.frame.In? && ag.frame.pc.Search?
    requires SearchInv(g.(searching := g.searching + 1, holders := g.holders + {a}), |workers|)
    ensures Good(g, workers, a, Skip(Loop(ag.frame.w, Steal(start, 0, false), ag.frame.mine, ag.frame.k), g.(searching := g.searching + 1, holders := g.holders + {a})))
  {
    var g' := g.(searching := g.searching + 1, holders := g.holders + {a});
    assert LookedAfter(g', workers);
    GoodNote(g, g', workers, a, ag, Loop(ag.frame.w, Steal(start, 0, false), ag.frame.mine, ag.frame.k), [], []);
  }

  lemma GoodRefused(g: Global, workers: seq<Worker>, a: nat, ag: Agent)
    requires PoolInv(g, workers) && AgentInv(g, workers, a, ag) && ag.call.Ready? && ag.frame.In? && ag.frame.pc.Search?
    requires SearchInv(g.(searching := g.searching + 1, backing := g.backing + {a}), |workers|)
    ensures Good(g, workers, a, Skip(Loop(ag.frame.w, SearchBack, ag.frame.mine, ag.frame.k), g.(searching := g.searching + 1, backing := g.backing + {a})))
  {
    var g' := g.(searching := g.searching + 1, backing := g.backing + {a});
    assert LookedAfter(g', workers);
    GoodNote(g, g', workers, a, ag, Loop(ag.frame.w, SearchBack, ag.frame.mine, ag.frame.k), [], []);
  }

  lemma GoodSearch(g: Global, workers: seq<Worker>, a: nat, ag: Agent, i: Input)
    requires PoolInv(g, workers) && AgentInv(g, workers, a, ag) && ag.call.Ready? && ag.frame.In? && ag.frame.pc.Search?
    ensures Good(g, workers, a, StepSearch(g, |workers|, a, ag.frame.w, ag.frame.mine, ag.frame.k, i))
  {
    assert a !in g.holders && a !in g.backing;
    SearchCounts(g, |workers|, a, ag.frame.w, ag.frame.mine, ag.frame.k, i);
    if |workers| < 2 {
      GoodLocal(g, workers, a, ag, Loop(ag.frame.w, Take(0, true), ag.frame.mine, ag.frame.k), [], []);
    } else if g.searching * 2 >= |workers| {
      GoodRefused(g, workers, a, ag);
    } else {
      GoodGranted(g, workers, a, ag, StartOf(i));
    }
  }

  lemma GoodSearchBack(g: Global, workers: seq<Worker>, a: nat, ag: Agent, i: Input)
    requires PoolInv(g, workers) && AgentInv(g, workers, a, ag) && ag.call.Ready? && ag.frame.In? && ag.frame.pc.SearchBack?
    ensures Good(g, workers, a, StepLoop(g, workers, a, ag.frame.w, ag.frame.pc, ag.frame.mine, ag.frame.k, i))
  {
    var g' := g.(searching := g.searching - 1, backing := g.backing - {a});
    assert a in g.backing;
    assert SearchInv(g', |workers|);
    assert LookedAfter(g', workers);
    GoodNote(g, g', workers, a, ag, Loop(ag.frame.w, Take(0, true), ag.frame.mine, ag.frame.k), [], []);
  }

  lemma GoodStealEnd(g: Global, workers: seq<Worker>, a: nat, ag: Agent)
    requires PoolInv(g, workers) && AgentInv(g, workers, a, ag) && ag.call.Ready? && ag.frame.In? && ag.frame.pc.StealEnd?
    ensures Good(g, workers, a, StepStealEnd(g, a, ag.frame.w, ag.frame.pc.got, ag.frame.pc.prep, ag.frame.mine, ag.frame.k))
  {
    var e := StepStealEnd(g, a, ag.frame.w, ag.frame.pc.got, ag.frame.pc.prep, ag.frame.mine, ag.frame.k);
    if ag.frame.pc.prep {
      GoodLocal(g, workers, a, ag, e.ag, [], []);
    } else {
      assert a in g.holders;
      assert SearchInv(e.g, |workers|);
      assert LookedAfter(e.g, workers);
      GoodNote(g, e.g, workers, a, ag, e.ag, [], []);
    }
  }

  /** Taking something from another worker. */
  lemma GoodRob(g: Global, workers: seq<Worker>, a: nat, ag: Agent, ag': Agent, v: nat, V': Worker)
    requires PoolInv(g, workers) && AgentInv(g, workers, a, ag) && ag.call.Ready? && ag'.call.Ready?
    requires ag.frame.In? && ag'.frame.In? && ag'.frame.w == ag.frame.w && v < |workers| && v != ag.frame.w
    requires Hunts(ag'.frame) == Hunts(ag.frame) && BacksOut(ag'.frame) == BacksOut(ag.frame)
    requires var V := workers[v];
      && V' == V.(deque := V'.deque, inbox := V'.inbox)
      && (V.deque == [] ==> V'.deque == []) && (V.inbox == [] ==> V'.inbox == [])
    requires LoopInv(workers, ag'.frame.w, ag'.frame.pc, ag'.frame.mine)
    ensures Good(g, workers, a, Touch(ag', g, v, V'))
  {
    WorkerOf(g, workers, v);
    assert WorkerTokens(v, workers[v], a, ag);
    PoolKept(g, workers, v, V');
    GoodOn(g, g, workers, a, ag, ag', v, V', [], []);
  }

  lemma GoodSteal(g: Global, workers: seq<Worker>, a: nat, ag: Agent)
    requires PoolInv(g, workers) && AgentInv(g, workers, a, ag) && ag.call.Ready? && ag.frame.In? && ag.frame.pc.Steal?
    ensures Good(g, workers, a, StepSteal(g, workers, ag.frame.w, ag.frame.pc.start, ag.frame.pc.off, ag.frame.pc.prep, ag.frame.mine, ag.frame.k))
  {
    var e := StepSteal(g, workers, ag.frame.w, ag.frame.pc.start, ag.frame.pc.off, ag.frame.pc.prep, ag.frame.mine, ag.frame.k);
    if e.On? { GoodRob(g, workers, a, ag, e.ag, e.w, e.W); } else { GoodLocal(g, workers, a, ag, e.ag, [], []); }
  }

  lemma GoodStealBook(g: Global, workers: seq<Worker>, a: nat, ag: Agent, i: Input)
    requires PoolInv(g, workers) && AgentInv(g, workers, a, ag) && ag.call.Ready? && ag.frame.In? && ag.frame.pc.StealBook?
    ensures Good(g, workers, a, StepStealBook(g, workers, ag.frame.w, ag.frame.pc.start, ag.frame.pc.off, ag.frame.pc.prep, ag.frame.mine, ag.frame.k, i))
  {
    var e := StepStealBook(g, workers, ag.frame.w, ag.frame.pc.start, ag.frame.pc.off, ag.frame.pc.prep, ag.frame.mine, ag.frame.k, i);
    if e.On? { GoodRob(g, workers, a, ag, e.ag, e.w, e.W); } else { GoodLocal(g, workers, a, ag, e.ag, [], []); }
  }

  lemma GoodStealIn(g: Global, workers: seq<Worker>, a: nat, ag: Agent, i: Input)
    requires PoolInv(g, workers) && AgentInv(g, workers, a, ag) && ag.call.Ready? && ag.frame.In?
    requires ag.frame.pc.StealKeep? || ag.frame.pc.StealPut?
    ensures Good(g, workers, a, StepLoop(g, workers, a, ag.frame.w, ag.frame.pc, ag.frame.mine, ag.frame.k, i))
  {
    var e := StepLoop(g, workers, a, ag.frame.w, ag.frame.pc, ag.frame.mine, ag.frame.k, i);
    if e.On? { GoodContainers(g, workers, a, ag, e.ag, e.W); } else { GoodLocal(g, workers, a, ag, e.ag, [], []); }
  }

  predicate IsPrepare(pc: Pc) {
    pc.Announce? || pc.PrepInjector? || pc.PrepInbox? || pc.PrepSlot? || pc.LastCheck?
  }

  lemma PrepareWorker(g: Global, W: Worker, w: nat, pc: Pc, mine: seq<Job>, k: Counters, i: Input)
    requires WorkerInv(g.running, W) && !W.home && IsPrepare(pc) && StageAt(pc, W.stage)
    ensures var e := StepPrepare(g, W, w, pc, mine, k, i);
      e.On? ==> OwnChange(W, e.W) && WorkerInv(g.running, e.W) && ((Watches(W) ==> Watches(e.W)) || g.injector == [])
  {
  }

  lemma PrepareLoop(g: Global, workers: seq<Worker>, w: nat, pc: Pc, mine: seq<Job>, k: Counters, i: Input)
    requires LoopInv(workers, w, pc, mine) && IsPrepare(pc)
    ensures var e := StepPrepare(g, workers[w], w, pc, mine, k, i);
      && !e.Fault? && e.g == g && e.put == [] && e.ran == [] && e.ag.call.Ready? && e.ag.frame.In? && e.ag.frame.w == w
      && !Hunts(e.ag.frame) && !BacksOut(e.ag.frame)
      && (e.On? ==> e.w == w && LoopInv(workers[w := e.W], w, e.ag.frame.pc, e.ag.frame.mine))
      && (e.Note? ==> LoopInv(workers, w, e.ag.frame.pc, e.ag.frame.mine))
  {
  }

  /** Going to sleep: what is looked at after the announcement stays looked after. */
  lemma GoodPrepare(g: Global, workers: seq<Worker>, a: nat, ag: Agent, i: Input)
    requires PoolInv(g, workers) && AgentInv(g, workers, a, ag) && ag.call.Ready? && ag.frame.In? && IsPrepare(ag.frame.pc)
    ensures Good(g, workers, a, StepPrepare(g, workers[ag.frame.w], ag.frame.w, ag.frame.pc, ag.frame.mine, ag.frame.k, i))
  {
    var e := StepPrepare(g, workers[ag.frame.w], ag.frame.w, ag.frame.pc, ag.frame.mine, ag.frame.k, i);
    RunnerOf(g, workers, a, ag);
    PrepareWorker(g, workers[ag.frame.w], ag.frame.w, ag.frame.pc, ag.frame.mine, ag.frame.k, i);
    PrepareLoop(g, workers, ag.frame.w, ag.frame.pc, ag.frame.mine, ag.frame.k, i);
    if e.On? { GoodOwn(g, workers, a, ag, e.ag, e.W); } else { GoodLocal(g, workers, a, ag, e.ag, [], []); }
  }

  predicate IsResume(pc: Pc) {
    pc.Parked? || pc.Woke? || pc.ExitClear? || pc.Retract?
  }

  lemma GoodResume(g: Global, workers: seq<Worker>, a: nat, ag: Agent, i: Input)
    requires PoolInv(g, workers) && AgentInv(g, workers, a, ag) && ag.call.Ready? && ag.frame.In? && IsResume(ag.frame.pc)
    ensures Good(g, workers, a, StepPrepare(g, workers[ag.frame.w], ag.frame.w, ag.frame.pc, ag.frame.mine, ag.frame.k, i))
  {
    var e := StepPrepare(g, workers[ag.frame.w], ag.frame.w, ag.frame.pc, ag.frame.mine, ag.frame.k, i);
    RunnerOf(g, workers, a, ag);
    if e.On? { GoodOwn(g, workers, a, ag, e.ag, e.W); } else { GoodLocal(g, workers, a, ag, e.ag, [], []); }
  }

  lemma GoodCheck(g: Global, workers: seq<Worker>, a: nat, ag: Agent)
    requires PoolInv(g, workers) && AgentInv(g, workers, a, ag) && ag.call.Ready? && ag.frame.In? && ag.frame.pc.CheckRunning?
    ensures Good(g, workers, a, StepCheck(g, ag.frame.w, ag.frame.mine, ag.frame.k))
  {
    GoodLocal(g, workers, a, ag, StepCheck(g, ag.frame.w, ag.frame.mine, ag.frame.k).ag, [], []);
  }

  /** Leaving the loop finds the private queue empty and the slot for the deque free. */
  lemma GoodExit(g: Global, workers: seq<Worker>, a: nat, ag: Agent)
    requires PoolInv(g, workers) && AgentInv(g, workers, a, ag) && ag.call.Ready? && ag.frame.In? && ag.frame.pc.Exit?
    ensures Good(g, workers, a, StepExit(g, workers[ag.frame.w], ag.frame.w, ag.frame.mine, ag.frame.k))
  {
    var w := ag.frame.w;
    var W' := workers[w].(home := true, runner := None);
    RunnerOf(g, workers, a, ag);
    assert WorkerTokens(w, workers[w], a, ag);
    PoolKept(g, workers, w, W');
    GoodOn(g, g, workers, a, ag, Agent(Outside, Ready), w, W', [], []);
  }

  lemma GoodFind(g: Global, workers: seq<Worker>, a: nat, ag: Agent, i: Input)
    requires PoolInv(g, workers) && AgentInv(g, workers, a, ag) && ag.call.Ready? && ag.frame.In?
    requires ag.frame.pc.Search? || ag.frame.pc.SearchBack? || ag.frame.pc.Steal? || ag.frame.pc.StealBook?
      || ag.frame.pc.StealKeep? || ag.frame.pc.StealPut? || ag.frame.pc.StealEnd?
    ensures Good(g, workers, a, StepLoop(g, workers, a, ag.frame.w, ag.frame.pc, ag.frame.mine, ag.frame.k, i))
  {
    match ag.frame.pc
    case Search => GoodSearch(g, workers, a, ag, i);
    case SearchBack => GoodSearchBack(g, workers, a, ag, i);
    case Steal(_, _, _) => GoodSteal(g, workers, a, ag);
    case StealBook(_, _, _) => GoodStealBook(g, workers, a, ag, i);
    case StealEnd(_, _) => GoodStealEnd(g, workers, a, ag);
    case _ => GoodStealIn(g, workers, a, ag, i);
  }

  lemma GoodWork(g: Global, workers: seq<Worker>, a: nat, ag: Agent, i: Input)
    requires PoolInv(g, workers) && AgentInv(g, workers, a, ag) && ag.call.Ready? && ag.frame.In?
    requires var pc := ag.frame.pc;
      pc.Top? || pc.CapLook? || pc.CapTake? || pc.CapPush? || pc.CapLen? || pc.Take? || pc.TakeLen? || IsOwnWork(pc) || IsPopWork(pc) || pc.Running?
    ensures Good(g, workers, a, StepLoop(g, workers, a, ag.frame.w, ag.frame.pc, ag.frame.mine, ag.frame.k, i))
  {
    var pc := ag.frame.pc;
    if pc.Top? || pc.CapLook? || pc.CapTake? {
      GoodTop(g, workers, a, ag, i);
    } else if pc.CapPush? || pc.CapLen? {
      GoodCap(g, workers, a, ag, i);
    } else if pc.Take? {
      GoodTake(g, workers, a, ag);
    } else if pc.TakeLen? {
      GoodTakeLen(g, workers, a, ag);
    } else if pc.Running? {
      GoodRunning(g, workers, a, ag, i);
    } else if IsOwnWork(pc) {
      GoodOwnWork(g, workers, a, ag, i);
    } else {
      GoodPopWork(g, workers, a, ag, i);
    }
  }

  lemma LoopIsPrepare(g: Global, workers: seq<Worker>, a: nat, w: nat, pc: Pc, mine: seq<Job>, k: Counters, i: Input)
    requires w < |workers| && (IsPrepare(pc) || IsResume(pc))
    ensures StepLoop(g, workers, a, w, pc, mine, k, i) == StepPrepare(g, workers[w], w, pc, mine, k, i)
  {
  }

  lemma GoodSleep(g: Global, workers: seq<Worker>, a: nat, ag: Agent, i: Input)
    requires PoolInv(g, workers) && AgentInv(g, workers, a, ag) && ag.call.Ready? && ag.frame.In?
    requires IsPrepare(ag.frame.pc) || IsResume(ag.frame.pc)
    ensures Good(g, workers, a, StepLoop(g, workers, a, ag.frame.w, ag.frame.pc, ag.frame.mine, ag.frame.k, i))
  {
    LoopIsPrepare(g, workers, a, ag.frame.w, ag.frame.pc, ag.frame.mine, ag.frame.k, i);
    if IsPrepare(ag.frame.pc) {
      GoodPrepare(g, workers, a, ag, i);
    } else {
      GoodResume(g, workers, a, ag, i);
    }
  }

  lemma GoodLeave(g: Global, workers: seq<Worker>, a: nat, ag: Agent, i: Input)
    requires PoolInv(g, workers) && AgentInv(g, workers, a, ag) && ag.call.Ready? && ag.frame.In?
    requires ag.frame.pc.CheckRunning? || ag.frame.pc.Exit?
    ensures Good(g, workers, a, StepLoop(g, workers, a, ag.frame.w, ag.frame.pc, ag.frame.mine, ag.frame.k, i))
  {
    if ag.frame.pc.CheckRunning? {
      GoodCheck(g, workers, a, ag);
    } else {
      GoodExit(g, workers, a, ag);
    }
  }

  /** Every step of every thread is good. */
  lemma GoodNext(g: Global, workers: seq<Worker>, a: nat, ag: Agent, i: Input)
    requires PoolInv(g, workers) && AgentInv(g, workers, a, ag) && Typed(|workers|, ag)
    ensures Good(g, workers, a, Next(g, workers, a, ag, i))
  {
    if !ag.call.Ready? {
      GoodCall(g, workers, a, ag, i);
    } else if ag.frame.Outside? {
      GoodOutside(g, workers, a, ag, i);
    } else {
      var pc := ag.frame.pc;
      if pc.CheckRunning? || pc.Exit? {
        GoodLeave(g, workers, a, ag, i);
      } else if IsPrepare(pc) || IsResume(pc) {
        GoodSleep(g, workers, a, ag, i);
      } else if pc.Search? || pc.SearchBack? || pc.Steal? || pc.StealBook? || pc.StealKeep? || pc.StealPut? || pc.StealEnd? {
        GoodFind(g, workers, a, ag, i);
      } else {
        GoodWork(g, workers, a, ag, i);
      }
    }
  }

  lemma StepKeeps(s: State, a: nat, i: Input)
    requires Inv(s) && AllTyped(s) && a < |s.agents|
    ensures Inv(Step(s, a, i)) && AllTyped(Step(s, a, i))
  {
    GoodNext(s.g, s.workers, a, s.agents[a], i);
    ApplyKeeps(s, a, Next(s.g, s.workers, a, s.agents[a], i));
    InvTyped(Step(s, a, i));
  }

  lemma InitInv(t: Tuning, workers: nat, agents: nat)
    requires workers > 0
    ensures Inv(Init(t, workers, agents))
  {
  }

  lemma {:induction false} RunKeeps(s: State, acts: seq<Act>)
    requires Inv(s)
    ensures Inv(Execute(s, acts))
    decreases |acts|
  {
    InvTyped(s);
    if acts != [] {
      if acts[0].agent < |s.agents| {
        StepKeeps(s, acts[0].agent, acts[0].input);
        RunKeeps(Step(s, acts[0].agent, acts[0].input), acts[1..]);
      } else {
        RunKeeps(s, acts[1..]);
      }
    }
  }
}
