/** The worker pool (src/fanout/mod.rs): threads that run workers, submit jobs, wake sleepers
    and shut the pool down, interleaved one access to shared state per step.

    The containers are atomic here; what they promise is proved in the modules of the two
    ring queues and of the injector. A permit is the one-token signal of the park word. */
module PoolMachine {
  import opened Words

  /** Jobs are opaque identities. */
  type Job = int

  const PULL_BATCH: nat := 32

  datatype Tuning = Tuning(
    localWakes: bool,
    stealableInbox: bool,
    shareDisplaced: bool,
    lifoRunLimit: nat,
    promoteEvery: nat,
    injectorBatch: nat,
    roundsBeforePark: nat)

  /** One worker as the pool sees it. `home` says that its deque lies in its slot, that is, that
      no thread runs it. The last five fields are bookkeeping that the code does not store: the
      thread that runs it, how far that thread has come on its way to sleep, the threads that
      have claimed it and not yet unparked it, the threads that still have to look at its bit
      after a local submission, and whether the unpark loop of `shut_down` has passed it. */
  datatype Worker = Worker(
    deque: seq<Job>,
    inbox: seq<Job>,
    slot: Option<Job>,
    bit: bool,
    permit: bool,
    home: bool,
    runner: Option<nat>,
    stage: nat,
    coming: set<nat>,
    owing: set<nat>,
    told: bool)

  /** `duty`, `holders` and `backing` are bookkeeping: the threads that have put a job into the
      injector and not yet made sure that somebody looks, and the threads that hold a search
      slot or are giving back one they were refused. */
  datatype Global = Global(
    t: Tuning,
    injector: seq<Job>,
    running: bool,
    searching: int,
    duty: set<nat>,
    holders: set<nat>,
    backing: set<nat>)

  /** A call in progress that may be made from anywhere. `owes` marks one that follows a push to
      the injector. */
  datatype Call =
    | Ready
    | Push(job: Job, hint: Option<nat>)
    | Claim(spare: Option<nat>, left: nat, hint: Option<nat>, owes: bool)
    | Clear(spare: Option<nat>, left: nat, hint: Option<nat>, owes: bool, c: nat)
    | Signal(spare: Option<nat>, left: nat, c: nat)
    | Hint(c: nat)
    | Put(w: nat, job: Job)
    | Look(w: nat, job: Job)
    | Displace(w: nat, job: Job, toInjector: bool)
    | Spec(w: nat, published: bool, owes: bool)
    | SpecClear(w: nat, published: bool, owes: bool)
    | SpecSignal(w: nat, published: bool)
    | Halt
    | Shut(i: nat)

  /** Where a worker thread is in `run`. The two call sites of `take_from_injector` and of
      `steal_once` are told apart by `refill` and `prep`. */
  datatype Pc =
    | Top
    | CapLook
    | CapTake(other: bool)
    | CapPush(other: bool, job: Job)
    | CapLen(other: bool)
    | Take(n: nat, refill: bool)
    | TakeLen(n: nat, refill: bool)
    | Own
    | Promote(job: Job)
    | Share(left: nat, shared: nat, next: Option<Job>)
    | Shared(next: Option<Job>)
    | Running(job: Job)
    | InboxOne
    | InboxMove(moved: nat)
    | DequePop
    | Search
    | SearchBack
    | Steal(start: nat, off: nat, prep: bool)
    | StealBook(start: nat, off: nat, prep: bool)
    | StealKeep(job: Job, prep: bool)
    | StealPut(items: seq<Job>, prep: bool)
    | StealEnd(got: nat, prep: bool)
    | ReadySlot
    | CheckRunning
    | Announce
    | PrepInjector
    | PrepInbox
    | PrepSlot
    | Retract
    | LastCheck
    | ExitClear
    | Parked
    | Woke
    | Exit

  datatype Counters = Counters(lifoRun: nat, untilPromote: nat, spins: nat, exhausted: bool)

  /** A thread outside `run`, or one that runs worker `w` with its private queue `mine`. */
  datatype Frame = Outside | In(w: nat, pc: Pc, mine: seq<Job>, k: Counters)

  datatype Agent = Agent(frame: Frame, call: Call)

  /** What the environment decides: the call to start, the end of a running job, the random start
      of a sweep, how many items a steal gets, and where a container reports full, not empty, or
      a wait ends although there was no reason to. */
  datatype Input =
    | Go
    | Submit(job: Job, hint: Option<nat>)
    | SubmitLocal(w: nat, job: Job)
    | Run(w: nat)
    | ShutDown
    | Finish
    | Start(n: nat)
    | Got(n: nat)
    | Flaky

  /** What one step does: an outcome the code must never have, a change of the thread and of the
      fields outside the workers, or also of worker `w`. `put` are jobs handed to the pool, and
      `ran` jobs that ran. */
  datatype Effect =
    | Fault
    | Note(ag: Agent, g: Global, put: seq<Job>, ran: seq<Job>)
    | On(ag: Agent, g: Global, w: nat, W: Worker, put: seq<Job>, ran: seq<Job>)

  function Skip(ag: Agent, g: Global): Effect { Note(ag, g, [], []) }

  function Touch(ag: Agent, g: Global, w: nat, W: Worker): Effect { On(ag, g, w, W, [], []) }

  /** The lowest set bit of the bitmap from `k` on, other than `spare`. */
  function Lowest(workers: seq<Worker>, spare: Option<nat>, k: nat): (r: Option<nat>)
    requires k <= |workers|
    ensures r.Some? ==> k <= r.value < |workers| && workers[r.value].bit && spare != r
    ensures r.None? ==> forall c: nat :: k <= c < |workers| && spare != Some(c) ==> !workers[c].bit
    decreases |workers| - k
  {
    if k == |workers| then None
    else if workers[k].bit && spare != Some(k) then Some(k)
    else Lowest(workers, spare, k + 1)
  }

  function NudgeCall(spare: Option<nat>, wanted: nat): Call { Claim(spare, wanted, None, false) }

  /** After a local submission: announce the stealable inbox too, if that was published. */
  function AfterSpec(w: nat, published: bool): Call {
    if published then NudgeCall(Some(w), 1) else Ready
  }

  /** Calls only name workers that exist. */
  predicate CallTyped(n: nat, c: Call) {
    match c
    case Push(_, hint) => hint.Some? ==> hint.value < n
    case Claim(_, _, hint, _) => hint.Some? ==> hint.value < n
    case Clear(_, _, hint, _, c) => c < n && (hint.Some? ==> hint.value < n)
    case Signal(_, _, c) => c < n
    case Hint(c) => c < n
    case Put(w, _) => w < n
    case Look(w, _) => w < n
    case Displace(w, _, _) => w < n
    case Spec(w, _, _) => w < n
    case SpecClear(w, _, _) => w < n
    case SpecSignal(w, _) => w < n
    case _ => true
  }

  /** `submit_local`: the newest job goes to the slot and displaces the older one. */
  function StepPut(g: Global, W: Worker, a: nat, f: Frame, w: nat, job: Job): Effect {
    var W' := W.(slot := Some(job), owing := W.owing + {a});
    match W.slot
    case None => Touch(Agent(f, Spec(w, false, false)), g, w, W')
    case Some(older) =>
      if !g.t.stealableInbox && g.t.shareDisplaced then Touch(Agent(f, Look(w, older)), g, w, W')
      else Touch(Agent(f, Displace(w, older, false)), g, w, W')
  }

  function StepDisplace(g: Global, W: Worker, a: nat, f: Frame, w: nat, job: Job, toInjector: bool): Effect {
    if toInjector then
      Skip(Agent(f, Spec(w, false, true)), g.(injector := g.injector + [job], duty := g.duty + {a}))
    else Touch(Agent(f, Spec(w, g.t.stealableInbox, false)), g, w, W.(inbox := W.inbox + [job]))
  }

  function StepSpec(g: Global, W: Worker, a: nat, f: Frame, w: nat, published: bool, owes: bool): Effect {
    if W.bit then Skip(Agent(f, SpecClear(w, published, owes)), g)
    else Touch(Agent(f, AfterSpec(w, published)), g.(duty := g.duty - {a}), w, W.(owing := W.owing - {a}))
  }

  function StepSpecClear(g: Global, W: Worker, a: nat, f: Frame, w: nat, published: bool): Effect {
    var g', W' := g.(duty := g.duty - {a}), W.(bit := false, owing := W.owing - {a});
    if W.bit then Touch(Agent(f, SpecSignal(w, published)), g', w, W'.(coming := W.coming + {a}))
    else Touch(Agent(f, AfterSpec(w, published)), g', w, W')
  }

  /** `claim_sleeper`: name the lowest announced sleeper. */
  function StepClaim(g: Global, workers: seq<Worker>, a: nat, f: Frame, spare: Option<nat>, left: nat, hint: Option<nat>, owes: bool): Effect {
    if left == 0 then Skip(Agent(f, Ready), g)
    else
      match Lowest(workers, spare, 0)
      case None =>
        Skip(Agent(f, if hint.Some? then Hint(hint.value) else Ready), g.(duty := g.duty - {a}))
      case Some(c) => Skip(Agent(f, Clear(spare, left, hint, owes, c)), g)
  }

  /** And take it: only the thread that clears the bit unparks. */
  function StepClear(g: Global, W: Worker, a: nat, f: Frame, spare: Option<nat>, left: nat, hint: Option<nat>, owes: bool, c: nat): Effect {
    if W.bit then
      Touch(Agent(f, Signal(spare, left, c)), g.(duty := g.duty - {a}), c, W.(bit := false, coming := W.coming + {a}))
    else Skip(Agent(f, Claim(spare, left, hint, owes)), g)
  }

  function StepCall(g: Global, workers: seq<Worker>, a: nat, f: Frame, c: Call, i: Input): Effect
    requires CallTyped(|workers|, c)
  {
    match c
    case Ready => Skip(Agent(f, Ready), g)
    case Push(job, hint) =>
      Skip(Agent(f, Claim(None, 1, hint, true)), g.(injector := g.injector + [job], duty := g.duty + {a}))
    case Claim(spare, left, hint, owes) => StepClaim(g, workers, a, f, spare, left, hint, owes)
    case Clear(spare, left, hint, owes, c) => StepClear(g, workers[c], a, f, spare, left, hint, owes, c)
    case Signal(spare, left, c) =>
      Touch(Agent(f, Claim(spare, if left > 0 then left - 1 else 0, None, false)), g, c,
            workers[c].(permit := true, coming := workers[c].coming - {a}))
    case Hint(c) => Touch(Agent(f, Ready), g, c, workers[c].(permit := true))
    case Put(w, job) => StepPut(g, workers[w], a, f, w, job)
    case Look(w, job) => Skip(Agent(f, Displace(w, job, i.Flaky? || workers[w].inbox != [])), g)
    case Displace(w, job, toInjector) => StepDisplace(g, workers[w], a, f, w, job, toInjector)
    case Spec(w, published, owes) => StepSpec(g, workers[w], a, f, w, published, owes)
    case SpecClear(w, published, _) => StepSpecClear(g, workers[w], a, f, w, published)
    case SpecSignal(w, published) =>
      Touch(Agent(f, AfterSpec(w, published)), g, w,
            workers[w].(permit := true, coming := workers[w].coming - {a}))
    case Halt => Skip(Agent(f, Shut(0)), g.(running := false))
    case Shut(i) =>
      if i < |workers| then Touch(Agent(f, Shut(i + 1)), g, i, workers[i].(permit := true, told := true))
      else Skip(Agent(f, Ready), g)
  }

  /** Start a call: a submission is allowed anywhere, and so is shutting down. */
  function Begin(g: Global, n: nat, f: Frame, i: Input): Effect {
    match i
    case Submit(job, hint) =>
      if hint.Some? && hint.value >= n then Skip(Agent(f, Ready), g) else Note(Agent(f, Push(job, hint)), g, [job], [])
    case SubmitLocal(w, job) =>
      if w >= n then Skip(Agent(f, Ready), g)
      else if g.t.localWakes then Note(Agent(f, Put(w, job)), g, [job], [])
      else Note(Agent(f, Push(job, None)), g, [job], [])
    case ShutDown => Skip(Agent(f, Halt), g)
    case _ => Skip(Agent(f, Ready), g)
  }

  function NewCounters(t: Tuning): Counters { Counters(0, t.promoteEvery, 0, false) }

  /** `run`: take the deque out of its slot, or refuse. */
  function StepOutside(g: Global, workers: seq<Worker>, a: nat, i: Input): Effect {
    match i
    case Run(w) =>
      if w < |workers| && workers[w].home then
        Touch(Agent(In(w, Top, [], NewCounters(g.t)), Ready), g, w, workers[w].(home := false, runner := Some(a)))
      else Skip(Agent(Outside, Ready), g)
    case _ => Begin(g, |workers|, Outside, i)
  }

  /** The loop of `run`, with no call in progress. */
  function Loop(w: nat, pc: Pc, mine: seq<Job>, k: Counters): Agent { Agent(In(w, pc, mine, k), Ready) }

  /** Found work: reset the idle count. */
  function Found(k: Counters): Counters { k.(spins := 0) }

  /** Where the loop goes after the fairness boundary's first part. */
  function AfterCap(t: Tuning): Pc { if t.shareDisplaced then Take(0, false) else Own }

  function StepTop(g: Global, W: Worker, w: nat, mine: seq<Job>, k: Counters): Effect {
    if k.lifoRun < g.t.lifoRunLimit then
      match W.slot
      case Some(job) => Touch(Loop(w, Running(job), mine, Found(k).(lifoRun := k.lifoRun + 1)), g, w, W.(slot := None))
      case None => Skip(Loop(w, Own, mine, k.(lifoRun := 0, exhausted := false)), g)
    else
      Skip(Loop(w, if g.t.stealableInbox then CapLook else AfterCap(g.t), mine, k.(lifoRun := 0, exhausted := true)), g)
  }

  function StepCapTake(g: Global, W: Worker, w: nat, other: bool, mine: seq<Job>, k: Counters): Effect {
    match W.slot
    case Some(job) => Touch(Loop(w, CapPush(other, job), mine, k), g, w, W.(slot := None))
    case None => Skip(Loop(w, AfterCap(g.t), mine, k), g)
  }

  function StepCapLen(g: Global, W: Worker, w: nat, other: bool, mine: seq<Job>, k: Counters): Effect {
    var f := In(w, AfterCap(g.t), mine, k);
    if other || |W.inbox| > 1 then Skip(Agent(f, NudgeCall(Some(w), 1)), g) else Skip(Agent(f, Ready), g)
  }

  function StepTake(g: Global, w: nat, n: nat, refill: bool, mine: seq<Job>, k: Counters): Effect {
    if n < g.t.injectorBatch && g.injector != [] then
      Skip(Loop(w, Take(n + 1, refill), mine + [g.injector[0]], k), g.(injector := g.injector[1..]))
    else Skip(Loop(w, TakeLen(n, refill), mine, k), g)
  }

  function StepTakeLen(g: Global, n: nat, w: nat, taken: nat, refill: bool, mine: seq<Job>, k: Counters): Effect {
    var f :=
      if !refill then In(w, Own, mine, k)
      else if taken > 0 then In(w, if |mine| >= 2 then Share(|mine| / 2, 0, None) else Shared(None), mine, Found(k))
      else In(w, ReadySlot, mine, k);
    var remaining := Min(|g.injector|, n);
    if remaining > 0 then Skip(Agent(f, NudgeCall(None, remaining)), g) else Skip(Agent(f, Ready), g)
  }

  function StepOwn(g: Global, w: nat, mine: seq<Job>, k: Counters): Effect {
    if mine != [] then
      var job, rest := mine[|mine| - 1], mine[..|mine| - 1];
      if k.untilPromote <= 1 then Skip(Loop(w, Promote(job), rest, Found(k).(untilPromote := g.t.promoteEvery)), g)
      else Skip(Loop(w, Running(job), rest, Found(k).(untilPromote := k.untilPromote - 1)), g)
    else Skip(Loop(w, if g.t.stealableInbox then InboxOne else InboxMove(0), mine, k), g)
  }

  function StepPromote(g: Global, workers: seq<Worker>, w: nat, job: Job, mine: seq<Job>, k: Counters): Effect {
    if Lowest(workers, None, 0).None? || |mine| < 2 then Skip(Loop(w, Running(job), mine, k), g)
    else Skip(Loop(w, Share(|mine| / 2, 0, Some(job)), mine, k), g)
  }

  /** Move the oldest private job to the deque, unless that is full. */
  function StepShare(g: Global, W: Worker, w: nat, left: nat, shared: nat, job: Option<Job>, mine: seq<Job>, k: Counters, i: Input): Effect {
    if left > 0 && mine != [] && !i.Flaky? then
      Touch(Loop(w, Share(left - 1, shared + 1, job), mine[1..], k), g, w, W.(deque := W.deque + [mine[0]]))
    else
      var f := In(w, Shared(job), mine, k);
      if shared > 0 then Skip(Agent(f, NudgeCall(Some(w), shared)), g) else Skip(Agent(f, Ready), g)
  }

  function StepShared(g: Global, w: nat, job: Option<Job>, mine: seq<Job>, k: Counters): Effect {
    match job
    case Some(x) => Skip(Loop(w, Running(x), mine, k), g)
    case None => Skip(Loop(w, Top, mine, k.(untilPromote := g.t.promoteEvery)), g)
  }

  /** The job may submit others; in the end it is done. */
  function StepRunning(g: Global, n: nat, w: nat, job: Job, mine: seq<Job>, k: Counters, i: Input): Effect {
    if i.Finish? then Note(Loop(w, Top, mine, k), g, [], [job])
    else Begin(g, n, In(w, Running(job), mine, k), i)
  }

  function StepInboxOne(g: Global, W: Worker, w: nat, mine: seq<Job>, k: Counters): Effect {
    if W.inbox != [] then Touch(Loop(w, Running(W.inbox[0]), mine, Found(k)), g, w, W.(inbox := W.inbox[1..]))
    else Skip(Loop(w, DequePop, mine, k), g)
  }

  function StepInboxMove(g: Global, W: Worker, w: nat, moved: nat, mine: seq<Job>, k: Counters): Effect {
    if W.inbox != [] then
      var mine', W' := mine + [W.inbox[0]], W.(inbox := W.inbox[1..]);
      if moved + 1 >= g.t.promoteEvery then Touch(Loop(w, Top, mine', Found(k)), g, w, W')
      else Touch(Loop(w, InboxMove(moved + 1), mine', k), g, w, W')
    else if moved > 0 then Skip(Loop(w, Top, mine, Found(k)), g)
    else Skip(Loop(w, DequePop, mine, k), g)
  }

  function StepDequePop(g: Global, W: Worker, w: nat, mine: seq<Job>, k: Counters): Effect {
    if W.deque != [] then
      Touch(Loop(w, Running(W.deque[|W.deque| - 1]), mine, Found(k)), g, w, W.(deque := W.deque[..|W.deque| - 1]))
    else Skip(Loop(w, Search, mine, k), g)
  }

  function StartOf(i: Input): nat { if i.Start? then i.n else 0 }

  /** At most half of the workers may hunt. */
  function StepSearch(g: Global, n: nat, a: nat, w: nat, mine: seq<Job>, k: Counters, i: Input): Effect {
    if n < 2 then Skip(Loop(w, Take(0, true), mine, k), g)
    else if g.searching * 2 >= n then
      Skip(Loop(w, SearchBack, mine, k), g.(searching := g.searching + 1, backing := g.backing + {a}))
    else
      Skip(Loop(w, Steal(StartOf(i), 0, false), mine, k), g.(searching := g.searching + 1, holders := g.holders + {a}))
  }

  /** The next victim of a sweep; with a stealable inbox, its oldest entry comes first. */
  function StepSteal(g: Global, workers: seq<Worker>, w: nat, start: nat, off: nat, prep: bool, mine: seq<Job>, k: Counters): Effect {
    if |workers| < 2 || off >= |workers| then Skip(Loop(w, StealEnd(0, prep), mine, k), g)
    else
      var victim := (start + off) % |workers|;
      if victim == w then Skip(Loop(w, Steal(start, off + 1, prep), mine, k), g)
      else StealInbox(g, workers[victim], victim, w, start, off, prep, mine, k)
  }

  function StealInbox(g: Global, V: Worker, v: nat, w: nat, start: nat, off: nat, prep: bool, mine: seq<Job>, k: Counters): Effect {
    if g.t.stealableInbox && V.inbox != [] then
      Touch(Loop(w, StealKeep(V.inbox[0], prep), mine, k), g, v, V.(inbox := V.inbox[1..]))
    else Skip(Loop(w, StealBook(start, off, prep), mine, k), g)
  }

  /** How many items a steal takes: at most half of what the victim has, and of a batch. */
  function Loot(V: Worker, i: Input): nat {
    if i.Got? then Min(i.n, (Min(|V.deque|, PULL_BATCH) + 1) / 2) else 0
  }

  function StepStealBook(g: Global, workers: seq<Worker>, w: nat, start: nat, off: nat, prep: bool, mine: seq<Job>, k: Counters, i: Input): Effect
    requires |workers| > 0
  {
    var victim := (start + off) % |workers|;
    var V := workers[victim];
    var n := Loot(V, i);
    if n == 0 then Skip(Loop(w, Steal(start, off + 1, prep), mine, k), g)
    else Touch(Loop(w, StealPut(V.deque[..n], prep), mine, k), g, victim, V.(deque := V.deque[n..]))
  }

  /** A job from another inbox goes to the own deque, or to the injector if that is full. */
  function StepStealKeep(g: Global, W: Worker, w: nat, job: Job, prep: bool, mine: seq<Job>, k: Counters, i: Input): Effect {
    if i.Flaky? then Skip(Agent(In(w, StealEnd(1, prep), mine, k), Push(job, Some(w))), g)
    else Touch(Loop(w, StealEnd(1, prep), mine, k), g, w, W.(deque := W.deque + [job]))
  }

  function StepStealPut(g: Global, W: Worker, w: nat, items: seq<Job>, prep: bool, mine: seq<Job>, k: Counters): Effect {
    var f, W' := In(w, StealEnd(|items|, prep), mine, k), W.(deque := W.deque + items);
    Touch(Agent(f, if |items| > 1 then NudgeCall(Some(w), 1) else Ready), g, w, W')
  }

  function StepStealEnd(g: Global, a: nat, w: nat, got: nat, prep: bool, mine: seq<Job>, k: Counters): Effect {
    if prep then Skip(Loop(w, if got > 0 then Retract else LastCheck, mine, k), g)
    else
      var g' := g.(searching := g.searching - 1, holders := g.holders - {a});
      if got > 0 then Skip(Loop(w, Top, mine, Found(k)), g') else Skip(Loop(w, Take(0, true), mine, k), g')
  }

  function StepReadySlot(g: Global, W: Worker, w: nat, mine: seq<Job>, k: Counters): Effect {
    if k.exhausted && W.slot.Some? then
      Touch(Loop(w, Running(W.slot.value), mine, Found(k).(lifoRun := 1)), g, w, W.(slot := None))
    else Skip(Loop(w, CheckRunning, mine, k), g)
  }

  function StepCheck(g: Global, w: nat, mine: seq<Job>, k: Counters): Effect {
    if !g.running then Skip(Loop(w, Exit, mine, k), g)
    else if k.spins < g.t.roundsBeforePark then Skip(Loop(w, Top, mine, k.(spins := k.spins + 1)), g)
    else Skip(Loop(w, Announce, mine, k), g)
  }

  /** `prepare_to_park`: announce, then look everywhere once more. */
  function StepPrepare(g: Global, W: Worker, w: nat, pc: Pc, mine: seq<Job>, k: Counters, i: Input): Effect {
    match pc
    case Announce => Touch(Loop(w, PrepInjector, mine, k), g, w, W.(bit := true, stage := 1))
    case PrepInjector =>
      if i.Flaky? || g.injector != [] then Skip(Loop(w, Retract, mine, k), g)
      else Touch(Loop(w, PrepInbox, mine, k), g, w, W.(stage := 2))
    case PrepInbox =>
      if i.Flaky? || W.inbox != [] then Skip(Loop(w, Retract, mine, k), g)
      else Touch(Loop(w, PrepSlot, mine, k), g, w, W.(stage := 3))
    case PrepSlot =>
      if W.slot.Some? then Skip(Loop(w, Retract, mine, k), g)
      else Touch(Loop(w, Steal(StartOf(i), 0, true), mine, k), g, w, W.(stage := 4))
    case LastCheck =>
      if g.running then Touch(Loop(w, Parked, mine, k), g, w, W.(stage := 5))
      else Skip(Loop(w, ExitClear, mine, k), g)
    case Parked =>
      if W.permit || i.Flaky? then Touch(Loop(w, Woke, mine, k), g, w, W.(permit := false, stage := 0))
      else Skip(Loop(w, Parked, mine, k), g)
    case Woke => Touch(Loop(w, Top, mine, Found(k)), g, w, W.(bit := false))
    case ExitClear => Touch(Loop(w, Exit, mine, k), g, w, W.(bit := false, stage := 0))
    case _ => Touch(Loop(w, Top, mine, k), g, w, W.(bit := false, stage := 0))
  }

  /** Leaving: hand private jobs back, then put the deque into its slot, which must be empty. */
  function StepExit(g: Global, W: Worker, w: nat, mine: seq<Job>, k: Counters): Effect {
    if mine != [] then Skip(Loop(w, Exit, mine[1..], k), g.(injector := g.injector + [mine[0]]))
    else if W.home then Fault
    else Touch(Agent(Outside, Ready), g, w, W.(home := true, runner := None))
  }

  function StepLoop(g: Global, workers: seq<Worker>, a: nat, w: nat, pc: Pc, mine: seq<Job>, k: Counters, i: Input): Effect
    requires w < |workers|
  {
    var W := workers[w];
    match pc
    case Top => StepTop(g, W, w, mine, k)
    case CapLook => Skip(Loop(w, CapTake(mine != [] || W.deque != []), mine, k), g)
    case CapTake(other) => StepCapTake(g, W, w, other, mine, k)
    case CapPush(other, job) => Touch(Loop(w, CapLen(other), mine, k), g, w, W.(inbox := W.inbox + [job]))
    case CapLen(other) => StepCapLen(g, W, w, other, mine, k)
    case Take(n, refill) => StepTake(g, w, n, refill, mine, k)
    case TakeLen(n, refill) => StepTakeLen(g, |workers|, w, n, refill, mine, k)
    case Own => StepOwn(g, w, mine, k)
    case Promote(job) => StepPromote(g, workers, w, job, mine, k)
    case Share(left, shared, job) => StepShare(g, W, w, left, shared, job, mine, k, i)
    case Shared(job) => StepShared(g, w, job, mine, k)
    case Running(job) => StepRunning(g, |workers|, w, job, mine, k, i)
    case InboxOne => StepInboxOne(g, W, w, mine, k)
    case InboxMove(moved) => StepInboxMove(g, W, w, moved, mine, k)
    case DequePop => StepDequePop(g, W, w, mine, k)
    case Search => StepSearch(g, |workers|, a, w, mine, k, i)
    case SearchBack =>
      Skip(Loop(w, Take(0, true), mine, k), g.(searching := g.searching - 1, backing := g.backing - {a}))
    case Steal(start, off, prep) => StepSteal(g, workers, w, start, off, prep, mine, k)
    case StealBook(start, off, prep) => StepStealBook(g, workers, w, start, off, prep, mine, k, i)
    case StealKeep(job, prep) => StepStealKeep(g, W, w, job, prep, mine, k, i)
    case StealPut(items, prep) => StepStealPut(g, W, w, items, prep, mine, k)
    case StealEnd(got, prep) => StepStealEnd(g, a, w, got, prep, mine, k)
    case ReadySlot => StepReadySlot(g, W, w, mine, k)
    case CheckRunning => StepCheck(g, w, mine, k)
    case Exit => StepExit(g, W, w, mine, k)
    case _ => StepPrepare(g, W, w, pc, mine, k, i)
  }

  predicate Typed(n: nat, ag: Agent) {
    CallTyped(n, ag.call) && (ag.frame.In? ==> ag.frame.w < n)
  }

  /** The next step of thread `a`: of the call it is in, or of its loop. */
  function Next(g: Global, workers: seq<Worker>, a: nat, ag: Agent, i: Input): Effect
    requires Typed(|workers|, ag)
  {
    if !ag.call.Ready? then StepCall(g, workers, a, ag.frame, ag.call, i)
    else
      match ag.frame
      case Outside => StepOutside(g, workers, a, i)
      case In(w, pc, mine, k) => StepLoop(g, workers, a, w, pc, mine, k, i)
  }

  datatype State = State(
    g: Global,
    workers: seq<Worker>,
    agents: seq<Agent>,
    submitted: multiset<Job>,
    ran: multiset<Job>,
    fault: bool)

  predicate AllTyped(s: State) {
    forall a :: 0 <= a < |s.agents| ==> Typed(|s.workers|, s.agents[a])
  }

  function Apply(s: State, a: nat, e: Effect): State
    requires a < |s.agents|
  {
    match e
    case Fault => s.(fault := true)
    case Note(ag, g, put, ran) =>
      s.(g := g, agents := s.agents[a := ag], submitted := s.submitted + multiset(put), ran := s.ran + multiset(ran))
    case On(ag, g, w, W, put, ran) =>
      if w < |s.workers| then
        s.(g := g, workers := s.workers[w := W], agents := s.agents[a := ag],
           submitted := s.submitted + multiset(put), ran := s.ran + multiset(ran))
      else s
  }

  function Step(s: State, a: nat, i: Input): State
    requires AllTyped(s) && a < |s.agents|
  {
    Apply(s, a, Next(s.g, s.workers, a, s.agents[a], i))
  }

  const NewWorker: Worker := Worker([], [], None, false, false, true, None, 0, {}, {}, false)

  function Init(t: Tuning, workers: nat, agents: nat): State {
    State(Global(t, [], true, 0, {}, {}, {}), seq(workers, _ => NewWorker), seq(agents, _ => Agent(Outside, Ready)),
          multiset{}, multiset{}, false)
  }

  datatype Act = Act(agent: nat, input: Input)

  /** The state after a schedule; moves of threads that do not exist are skipped. */
  function Execute(s: State, acts: seq<Act>): State
    decreases |acts|
  {
    if acts == [] || !AllTyped(s) then s
    else if acts[0].agent < |s.agents| then Execute(Step(s, acts[0].agent, acts[0].input), acts[1..])
    else Execute(s, acts[1..])
  }
}
