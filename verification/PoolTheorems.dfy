/** What the pool promises: no job is lost, duplicated or forgotten while it runs, claims and
    search slots are limited, and shutdown leaves nobody asleep. */
module PoolTheorems {
  import opened Words
  import opened PoolMachine
  import opened PoolSafety
  import Ring

  function One(j: Job, x: Job): nat { if j == x then 1 else 0 }

  function Opt(o: Option<Job>, x: Job): nat { if o == Some(x) then 1 else 0 }

  /** How many times a job occurs in a sequence. */
  function Count(s: seq<Job>, x: Job): nat {
    if s == [] then 0 else One(s[0], x) + Count(s[1..], x)
  }

  lemma {:induction false} CountAdd(s: seq<Job>, t: seq<Job>, x: Job)
    ensures Count(s + t, x) == Count(s, x) + Count(t, x)
  {
    if s == [] {
      assert s + t == t;
    } else {
      CountAdd(s[1..], t, x);
      assert (s + t)[1..] == s[1..] + t;
    }
  }

  lemma CountOne(j: Job, x: Job)
    ensures Count([j], x) == One(j, x)
  {
    assert Count([j], x) == One(j, x) + Count([], x);
  }

  /** Appending one, removing the first, removing the last. */
  lemma CountSnoc(s: seq<Job>, j: Job, x: Job)
    ensures Count(s + [j], x) == Count(s, x) + One(j, x)
  {
    CountAdd(s, [j], x);
    CountOne(j, x);
  }

  lemma CountFront(s: seq<Job>, x: Job)
    requires s != []
    ensures Count(s, x) == One(s[0], x) + Count(s[1..], x)
  {
  }

  lemma CountBack(s: seq<Job>, x: Job)
    requires s != []
    ensures Count(s, x) == Count(s[..|s| - 1], x) + One(s[|s| - 1], x)
  {
    assert s == s[..|s| - 1] + [s[|s| - 1]];
    CountSnoc(s[..|s| - 1], s[|s| - 1], x);
  }

  lemma CountSplit(s: seq<Job>, n: nat, x: Job)
    requires n <= |s|
    ensures Count(s, x) == Count(s[..n], x) + Count(s[n..], x)
  {
    assert s == s[..n] + s[n..];
    CountAdd(s[..n], s[n..], x);
  }

  lemma {:induction false} CountIs(s: seq<Job>, x: Job)
    ensures multiset(s)[x] == Count(s, x)
  {
    if s != [] {
      CountIs(s[1..], x);
      assert s == [s[0]] + s[1..];
    }
  }

  function WorkerStock(W: Worker, x: Job): nat { Count(W.deque, x) + Count(W.inbox, x) + Opt(W.slot, x) }

  /** The jobs a thread holds in its loop. */
  function PcStock(pc: Pc, x: Job): nat {
    match pc
    case CapPush(_, job) => One(job, x)
    case Promote(job) => One(job, x)
    case Share(_, _, next) => Opt(next, x)
    case Shared(next) => Opt(next, x)
    case Running(job) => One(job, x)
    case StealKeep(job, _) => One(job, x)
    case StealPut(items, _) => Count(items, x)
    case _ => 0
  }

  function CallStock(c: Call, x: Job): nat {
    match c
    case Push(job, _) => One(job, x)
    case Put(_, job) => One(job, x)
    case Look(_, job) => One(job, x)
    case Displace(_, job, _) => One(job, x)
    case _ => 0
  }

  function FrameStock(f: Frame, x: Job): nat {
    if f.In? then Count(f.mine, x) + PcStock(f.pc, x) else 0
  }

  function AgentStock(ag: Agent, x: Job): nat { FrameStock(ag.frame, x) + CallStock(ag.call, x) }

  /** A step moves job `x` between the outside, a container and a thread's hands, and loses none. */
  ghost predicate Balanced(g: Global, workers: seq<Worker>, ag: Agent, e: Effect, x: Job) {
    match e
    case Fault => true
    case Note(ag', g', put, ran) =>
      AgentStock(ag', x) + Count(g'.injector, x) + Count(ran, x) == AgentStock(ag, x) + Count(g.injector, x) + Count(put, x)
    case On(ag', g', w, W', put, ran) =>
      && w < |workers|
      && AgentStock(ag', x) + Count(g'.injector, x) + WorkerStock(W', x) + Count(ran, x)
         == AgentStock(ag, x) + Count(g.injector, x) + WorkerStock(workers[w], x) + Count(put, x)
  }

  lemma CallBalances(g: Global, workers: seq<Worker>, a: nat, ag: Agent, i: Input, x: Job)
    requires CallTyped(|workers|, ag.call) && (ag.call.Push? || ag.call.Look? || ag.call.Signal? || ag.call.Hint? || ag.call.Halt? || ag.call.Shut?)
    ensures Balanced(g, workers, ag, StepCall(g, workers, a, ag.frame, ag.call, i), x)
  {
    if ag.call.Push? { CountSnoc(g.injector, ag.call.job, x); }
  }

  lemma PutBalances(g: Global, workers: seq<Worker>, a: nat, f: Frame, w: nat, job: Job, x: Job)
    requires w < |workers|
    ensures Balanced(g, workers, Agent(f, Put(w, job)), StepPut(g, workers[w], a, f, w, job), x)
  {
  }

  lemma DisplaceBalances(g: Global, workers: seq<Worker>, a: nat, f: Frame, w: nat, job: Job, toInjector: bool, x: Job)
    requires w < |workers|
    ensures Balanced(g, workers, Agent(f, Displace(w, job, toInjector)), StepDisplace(g, workers[w], a, f, w, job, toInjector), x)
  {
    CountSnoc(g.injector, job, x);
    CountSnoc(workers[w].inbox, job, x);
  }

  lemma SpecBalances(g: Global, workers: seq<Worker>, a: nat, ag: Agent, i: Input, x: Job)
    requires CallTyped(|workers|, ag.call) && (ag.call.Spec? || ag.call.SpecClear? || ag.call.SpecSignal?)
    ensures Balanced(g, workers, ag, StepCall(g, workers, a, ag.frame, ag.call, i), x)
  {
  }

  lemma AnyCallBalances(g: Global, workers: seq<Worker>, a: nat, ag: Agent, i: Input, x: Job)
    requires CallTyped(|workers|, ag.call) && !ag.call.Ready?
    ensures Balanced(g, workers, ag, StepCall(g, workers, a, ag.frame, ag.call, i), x)
  {
    match ag.call
    case Put(w, job) => PutBalances(g, workers, a, ag.frame, w, job, x);
    case Displace(w, job, toInjector) => DisplaceBalances(g, workers, a, ag.frame, w, job, toInjector, x);
    case Claim(_, _, _, _) => ClaimBalances(g, workers, a, ag, i, x);
    case Clear(_, _, _, _, _) => ClaimBalances(g, workers, a, ag, i, x);
    case Spec(_, _, _) => SpecBalances(g, workers, a, ag, i, x);
    case SpecClear(_, _, _) => SpecBalances(g, workers, a, ag, i, x);
    case SpecSignal(_, _) => SpecBalances(g, workers, a, ag, i, x);
    case _ => CallBalances(g, workers, a, ag, i, x);
  }

  lemma ClaimBalances(g: Global, workers: seq<Worker>, a: nat, ag: Agent, i: Input, x: Job)
    requires CallTyped(|workers|, ag.call) && (ag.call.Claim? || ag.call.Clear?)
    ensures Balanced(g, workers, ag, StepCall(g, workers, a, ag.frame, ag.call, i), x)
  {
  }

  lemma BeginBalances(g: Global, workers: seq<Worker>, f: Frame, i: Input, x: Job)
    ensures Balanced(g, workers, Agent(f, Ready), Begin(g, |workers|, f, i), x)
  {
    if i.Submit? || i.SubmitLocal? { CountOne(i.job, x); }
  }

  lemma OutsideBalances(g: Global, workers: seq<Worker>, a: nat, i: Input, x: Job)
    ensures Balanced(g, workers, Agent(Outside, Ready), StepOutside(g, workers, a, i), x)
  {
    BeginBalances(g, workers, Outside, i, x);
  }

  lemma TakeBalances(g: Global, workers: seq<Worker>, w: nat, n: nat, refill: bool, mine: seq<Job>, k: Counters, x: Job)
    ensures Balanced(g, workers, Loop(w, Take(n, refill), mine, k), StepTake(g, w, n, refill, mine, k), x)
  {
    if g.injector != [] {
      CountFront(g.injector, x);
      CountSnoc(mine, g.injector[0], x);
    }
  }

  lemma TakeLenBalances(g: Global, workers: seq<Worker>, w: nat, n: nat, refill: bool, mine: seq<Job>, k: Counters, x: Job)
    ensures Balanced(g, workers, Loop(w, TakeLen(n, refill), mine, k), StepTakeLen(g, |workers|, w, n, refill, mine, k), x)
  {
  }

  lemma OwnBalances(g: Global, workers: seq<Worker>, w: nat, mine: seq<Job>, k: Counters, x: Job)
    ensures Balanced(g, workers, Loop(w, Own, mine, k), StepOwn(g, w, mine, k), x)
  {
    if mine != [] { CountBack(mine, x); }
  }

  lemma PromoteBalances(g: Global, workers: seq<Worker>, w: nat, job: Job, next: Option<Job>, mine: seq<Job>, k: Counters, x: Job)
    ensures Balanced(g, workers, Loop(w, Promote(job), mine, k), StepPromote(g, workers, w, job, mine, k), x)
    ensures Balanced(g, workers, Loop(w, Shared(next), mine, k), StepShared(g, w, next, mine, k), x)
  {
  }

  lemma ShareBalances(g: Global, workers: seq<Worker>, w: nat, left: nat, shared: nat, next: Option<Job>, mine: seq<Job>, k: Counters, i: Input, x: Job)
    requires w < |workers|
    ensures Balanced(g, workers, Loop(w, Share(left, shared, next), mine, k), StepShare(g, workers[w], w, left, shared, next, mine, k, i), x)
  {
    if mine != [] {
      CountFront(mine, x);
      CountSnoc(workers[w].deque, mine[0], x);
    }
  }

  lemma InboxBalances(g: Global, workers: seq<Worker>, w: nat, moved: nat, mine: seq<Job>, k: Counters, x: Job)
    requires w < |workers|
    ensures Balanced(g, workers, Loop(w, InboxMove(moved), mine, k), StepInboxMove(g, workers[w], w, moved, mine, k), x)
  {
    var W, e := workers[w], StepInboxMove(g, workers[w], w, moved, mine, k);
    if W.inbox != [] {
      InboxPops(W, x);
      CountSnoc(mine, W.inbox[0], x);
      assert AgentStock(e.ag, x) == Count(mine, x) + One(W.inbox[0], x);
    }
  }

  /** The oldest entry of an inbox, taken out. */
  lemma InboxPops(W: Worker, x: Job)
    requires W.inbox != []
    ensures WorkerStock(W, x) == WorkerStock(W.(inbox := W.inbox[1..]), x) + One(W.inbox[0], x)
  {
    CountFront(W.inbox, x);
  }

  /** The oldest items of a deque, taken out. */
  lemma DequeLoses(W: Worker, n: nat, x: Job)
    requires n <= |W.deque|
    ensures WorkerStock(W, x) == WorkerStock(W.(deque := W.deque[n..]), x) + Count(W.deque[..n], x)
  {
    CountSplit(W.deque, n, x);
  }

  /** Items added to a deque. */
  lemma DequeGains(W: Worker, items: seq<Job>, x: Job)
    ensures WorkerStock(W.(deque := W.deque + items), x) == WorkerStock(W, x) + Count(items, x)
  {
    CountAdd(W.deque, items, x);
  }

  lemma InboxOneBalances(g: Global, workers: seq<Worker>, w: nat, mine: seq<Job>, k: Counters, x: Job)
    requires w < |workers|
    ensures Balanced(g, workers, Loop(w, InboxOne, mine, k), StepInboxOne(g, workers[w], w, mine, k), x)
  {
    if workers[w].inbox != [] { InboxPops(workers[w], x); }
  }

  lemma ReadySlotBalances(g: Global, workers: seq<Worker>, w: nat, mine: seq<Job>, k: Counters, x: Job)
    requires w < |workers|
    ensures Balanced(g, workers, Loop(w, ReadySlot, mine, k), StepReadySlot(g, workers[w], w, mine, k), x)
  {
  }

  lemma PopBalances(g: Global, workers: seq<Worker>, w: nat, mine: seq<Job>, k: Counters, x: Job)
    requires w < |workers|
    ensures Balanced(g, workers, Loop(w, DequePop, mine, k), StepDequePop(g, workers[w], w, mine, k), x)
  {
    if workers[w].deque != [] { CountBack(workers[w].deque, x); }
  }

  lemma TopBalances(g: Global, workers: seq<Worker>, w: nat, mine: seq<Job>, k: Counters, x: Job)
    requires w < |workers|
    ensures Balanced(g, workers, Loop(w, Top, mine, k), StepTop(g, workers[w], w, mine, k), x)
  {
  }

  lemma CapTakeBalances(g: Global, workers: seq<Worker>, w: nat, other: bool, mine: seq<Job>, k: Counters, x: Job)
    requires w < |workers|
    ensures Balanced(g, workers, Loop(w, CapTake(other), mine, k), StepCapTake(g, workers[w], w, other, mine, k), x)
    ensures Balanced(g, workers, Loop(w, CapLen(other), mine, k), StepCapLen(g, workers[w], w, other, mine, k), x)
  {
  }

  lemma CapBalances(g: Global, workers: seq<Worker>, w: nat, pc: Pc, mine: seq<Job>, k: Counters, a: nat, i: Input, x: Job)
    requires w < |workers| && (pc.CapLook? || pc.CapPush?)
    ensures Balanced(g, workers, Loop(w, pc, mine, k), StepLoop(g, workers, a, w, pc, mine, k, i), x)
  {
    if pc.CapPush? { CountSnoc(workers[w].inbox, pc.job, x); }
  }

  lemma RunningBalances(g: Global, workers: seq<Worker>, w: nat, job: Job, mine: seq<Job>, k: Counters, i: Input, x: Job)
    ensures Balanced(g, workers, Loop(w, Running(job), mine, k), StepRunning(g, |workers|, w, job, mine, k, i), x)
  {
    CountOne(job, x);
    BeginBalances(g, workers, In(w, Running(job), mine, k), i, x);
  }

  lemma InboxLootBalances(g: Global, workers: seq<Worker>, w: nat, start: nat, off: nat, v: nat, prep: bool, mine: seq<Job>, k: Counters, x: Job)
    requires v < |workers|
    ensures Balanced(g, workers, Loop(w, Steal(start, off, prep), mine, k), StealInbox(g, workers[v], v, w, start, off, prep, mine, k), x)
  {
    if workers[v].inbox != [] { InboxPops(workers[v], x); }
  }

  lemma SkipBalances(g: Global, workers: seq<Worker>, w: nat, pc: Pc, pc': Pc, mine: seq<Job>, k: Counters, x: Job)
    requires PcStock(pc, x) == PcStock(pc', x)
    ensures Balanced(g, workers, Loop(w, pc, mine, k), Skip(Loop(w, pc', mine, k), g), x)
  {
  }

  lemma StealBalances(g: Global, workers: seq<Worker>, w: nat, start: nat, off: nat, prep: bool, mine: seq<Job>, k: Counters, x: Job)
    requires w < |workers|
    ensures Balanced(g, workers, Loop(w, Steal(start, off, prep), mine, k), StepSteal(g, workers, w, start, off, prep, mine, k), x)
  {
    var v := (start + off) % |workers|;
    if |workers| < 2 || off >= |workers| {
      SkipBalances(g, workers, w, Steal(start, off, prep), StealEnd(0, prep), mine, k, x);
    } else if v == w {
      SkipBalances(g, workers, w, Steal(start, off, prep), Steal(start, off + 1, prep), mine, k, x);
    } else {
      InboxLootBalances(g, workers, w, start, off, v, prep, mine, k, x);
    }
  }

  lemma LootBalances(g: Global, workers: seq<Worker>, w: nat, pc: Pc, v: nat, n: nat, prep: bool, mine: seq<Job>, k: Counters, x: Job)
    requires v < |workers| && n <= |workers[v].deque| && pc.StealBook?
    ensures var V := workers[v];
      Balanced(g, workers, Loop(w, pc, mine, k), Touch(Loop(w, StealPut(V.deque[..n], prep), mine, k), g, v, V.(deque := V.deque[n..])), x)
  {
    DequeLoses(workers[v], n, x);
  }

  lemma BookBalances(g: Global, workers: seq<Worker>, w: nat, start: nat, off: nat, prep: bool, mine: seq<Job>, k: Counters, i: Input, x: Job)
    requires w < |workers|
    ensures Balanced(g, workers, Loop(w, StealBook(start, off, prep), mine, k), StepStealBook(g, workers, w, start, off, prep, mine, k, i), x)
  {
    var v := (start + off) % |workers|;
    LootBalances(g, workers, w, StealBook(start, off, prep), v, Loot(workers[v], i), prep, mine, k, x);
  }

  lemma KeepBalances(g: Global, workers: seq<Worker>, w: nat, job: Job, prep: bool, mine: seq<Job>, k: Counters, i: Input, x: Job)
    requires w < |workers|
    ensures Balanced(g, workers, Loop(w, StealKeep(job, prep), mine, k), StepStealKeep(g, workers[w], w, job, prep, mine, k, i), x)
  {
    CountSnoc(workers[w].deque, job, x);
  }

  lemma StealPutBalances(g: Global, workers: seq<Worker>, w: nat, items: seq<Job>, prep: bool, mine: seq<Job>, k: Counters, x: Job)
    requires w < |workers|
    ensures Balanced(g, workers, Loop(w, StealPut(items, prep), mine, k), StepStealPut(g, workers[w], w, items, prep, mine, k), x)
  {
    DequeGains(workers[w], items, x);
  }

  lemma SearchBalances(g: Global, workers: seq<Worker>, w: nat, pc: Pc, mine: seq<Job>, k: Counters, a: nat, i: Input, x: Job)
    requires w < |workers| && (pc.Search? || pc.SearchBack? || pc.StealEnd?)
    ensures Balanced(g, workers, Loop(w, pc, mine, k), StepLoop(g, workers, a, w, pc, mine, k, i), x)
  {
  }

  /** Going to sleep and waking up move no job. */
  lemma SleepMovesNothing(g: Global, W: Worker, w: nat, pc: Pc, mine: seq<Job>, k: Counters, i: Input, x: Job)
    requires IsPrepare(pc) || IsResume(pc)
    ensures var e := StepPrepare(g, W, w, pc, mine, k, i);
      && !e.Fault? && e.g == g && e.put == [] && e.ran == []
      && e.ag.call.Ready? && e.ag.frame.In? && e.ag.frame.mine == mine && PcStock(e.ag.frame.pc, x) == 0
      && (e.On? ==> e.w == w && e.W.deque == W.deque && e.W.inbox == W.inbox && e.W.slot == W.slot)
  {
  }

  lemma SleepBalances(g: Global, workers: seq<Worker>, w: nat, pc: Pc, mine: seq<Job>, k: Counters, i: Input, x: Job)
    requires w < |workers| && (IsPrepare(pc) || IsResume(pc))
    ensures Balanced(g, workers, Loop(w, pc, mine, k), StepPrepare(g, workers[w], w, pc, mine, k, i), x)
  {
    SleepMovesNothing(g, workers[w], w, pc, mine, k, i, x);
  }

  lemma CheckBalances(g: Global, workers: seq<Worker>, w: nat, mine: seq<Job>, k: Counters, x: Job)
    ensures Balanced(g, workers, Loop(w, CheckRunning, mine, k), StepCheck(g, w, mine, k), x)
  {
  }

  lemma ExitBalances(g: Global, workers: seq<Worker>, w: nat, mine: seq<Job>, k: Counters, x: Job)
    requires w < |workers|
    ensures Balanced(g, workers, Loop(w, Exit, mine, k), StepExit(g, workers[w], w, mine, k), x)
  {
    if mine != [] {
      CountFront(mine, x);
      CountSnoc(g.injector, mine[0], x);
    }
  }

  predicate IsFinding(pc: Pc) {
    pc.Steal? || pc.StealBook? || pc.StealKeep? || pc.StealPut? || pc.Search? || pc.SearchBack? || pc.StealEnd?
  }

  lemma FindBalances(g: Global, workers: seq<Worker>, w: nat, pc: Pc, mine: seq<Job>, k: Counters, a: nat, i: Input, x: Job)
    requires w < |workers| && IsFinding(pc)
    ensures Balanced(g, workers, Loop(w, pc, mine, k), StepLoop(g, workers, a, w, pc, mine, k, i), x)
  {
    match pc
    case Steal(start, off, prep) => StealBalances(g, workers, w, start, off, prep, mine, k, x);
    case StealBook(start, off, prep) => BookBalances(g, workers, w, start, off, prep, mine, k, i, x);
    case StealKeep(job, prep) => KeepBalances(g, workers, w, job, prep, mine, k, i, x);
    case StealPut(items, prep) => StealPutBalances(g, workers, w, items, prep, mine, k, x);
    case _ => SearchBalances(g, workers, w, pc, mine, k, a, i, x);
  }

  predicate IsOwning(pc: Pc) {
    pc.Own? || pc.Promote? || pc.Share? || pc.Shared? || pc.Running? || pc.InboxOne? || pc.InboxMove? || pc.DequePop? || pc.ReadySlot?
  }

  lemma OwningBalances(g: Global, workers: seq<Worker>, w: nat, pc: Pc, mine: seq<Job>, k: Counters, a: nat, i: Input, x: Job)
    requires w < |workers| && IsOwning(pc)
    ensures Balanced(g, workers, Loop(w, pc, mine, k), StepLoop(g, workers, a, w, pc, mine, k, i), x)
  {
    match pc
    case Own => OwnBalances(g, workers, w, mine, k, x);
    case Promote(job) => PromoteBalances(g, workers, w, job, None, mine, k, x);
    case Share(left, shared, next) => ShareBalances(g, workers, w, left, shared, next, mine, k, i, x);
    case Shared(next) => PromoteBalances(g, workers, w, 0, next, mine, k, x);
    case Running(job) => RunningBalances(g, workers, w, job, mine, k, i, x);
    case InboxOne => InboxOneBalances(g, workers, w, mine, k, x);
    case InboxMove(moved) => InboxBalances(g, workers, w, moved, mine, k, x);
    case DequePop => PopBalances(g, workers, w, mine, k, x);
    case ReadySlot => ReadySlotBalances(g, workers, w, mine, k, x);
  }

  lemma WorkBalances(g: Global, workers: seq<Worker>, w: nat, pc: Pc, mine: seq<Job>, k: Counters, a: nat, i: Input, x: Job)
    requires w < |workers| && !IsPrepare(pc) && !IsResume(pc) && !IsFinding(pc) && !IsOwning(pc)
    ensures Balanced(g, workers, Loop(w, pc, mine, k), StepLoop(g, workers, a, w, pc, mine, k, i), x)
  {
    match pc
    case Top => TopBalances(g, workers, w, mine, k, x);
    case CapTake(other) => CapTakeBalances(g, workers, w, other, mine, k, x);
    case CapLen(other) => CapTakeBalances(g, workers, w, other, mine, k, x);
    case CapLook => CapBalances(g, workers, w, pc, mine, k, a, i, x);
    case CapPush(_, _) => CapBalances(g, workers, w, pc, mine, k, a, i, x);
    case Take(n, refill) => TakeBalances(g, workers, w, n, refill, mine, k, x);
    case TakeLen(n, refill) => TakeLenBalances(g, workers, w, n, refill, mine, k, x);
    case CheckRunning => CheckBalances(g, workers, w, mine, k, x);
    case Exit => ExitBalances(g, workers, w, mine, k, x);
  }

  lemma LoopBalances(g: Global, workers: seq<Worker>, w: nat, pc: Pc, mine: seq<Job>, k: Counters, a: nat, i: Input, x: Job)
    requires w < |workers|
    ensures Balanced(g, workers, Loop(w, pc, mine, k), StepLoop(g, workers, a, w, pc, mine, k, i), x)
  {
    if IsPrepare(pc) || IsResume(pc) {
      LoopIsPrepare(g, workers, a, w, pc, mine, k, i);
      SleepBalances(g, workers, w, pc, mine, k, i, x);
    } else if IsFinding(pc) {
      FindBalances(g, workers, w, pc, mine, k, a, i, x);
    } else if IsOwning(pc) {
      OwningBalances(g, workers, w, pc, mine, k, a, i, x);
    } else {
      WorkBalances(g, workers, w, pc, mine, k, a, i, x);
    }
  }

  lemma StepBalances(g: Global, workers: seq<Worker>, a: nat, ag: Agent, i: Input, x: Job)
    requires Typed(|workers|, ag)
    ensures Balanced(g, workers, ag, Next(g, workers, a, ag, i), x)
  {
    if !ag.call.Ready? {
      AnyCallBalances(g, workers, a, ag, i, x);
    } else if ag.frame.Outside? {
      OutsideBalances(g, workers, a, i, x);
    } else {
      LoopBalances(g, workers, ag.frame.w, ag.frame.pc, ag.frame.mine, ag.frame.k, a, i, x);
    }
  }

  function InWorkers(workers: seq<Worker>, x: Job): (r: seq<nat>)
    ensures |r| == |workers|
  {
    seq(|workers|, w requires 0 <= w < |workers| => WorkerStock(workers[w], x))
  }

  function InAgents(agents: seq<Agent>, x: Job): (r: seq<nat>)
    ensures |r| == |agents|
  {
    seq(|agents|, a requires 0 <= a < |agents| => AgentStock(agents[a], x))
  }

  /** How many `x` are in the injector, the inboxes, slots and deques, and in threads' hands and
      private queues. */
  function Stock(s: State, x: Job): nat {
    Count(s.g.injector, x) + Ring.Sum(InWorkers(s.workers, x)) + Ring.Sum(InAgents(s.agents, x))
  }

  /** Each submitted job is in exactly one place until it has run, and runs once. */
  ghost predicate Conserved(s: State) {
    forall x: Job :: s.submitted[x] == s.ran[x] + Stock(s, x)
  }

  lemma ApplyStock(s: State, a: nat, e: Effect, x: Job)
    requires a < |s.agents| && !e.Fault? && Balanced(s.g, s.workers, s.agents[a], e, x)
    ensures Stock(Apply(s, a, e), x) + Count(e.ran, x) == Stock(s, x) + Count(e.put, x)
  {
    Ring.SumUpdate(InAgents(s.agents, x), a, AgentStock(e.ag, x));
    assert InAgents(s.agents[a := e.ag], x) == InAgents(s.agents, x)[a := AgentStock(e.ag, x)];
    if e.On? {
      Ring.SumUpdate(InWorkers(s.workers, x), e.w, WorkerStock(e.W, x));
      assert InWorkers(s.workers[e.w := e.W], x) == InWorkers(s.workers, x)[e.w := WorkerStock(e.W, x)];
    }
  }

  lemma StepConserves(s: State, a: nat, i: Input)
    requires Inv(s) && AllTyped(s) && a < |s.agents| && Conserved(s)
    ensures Conserved(Step(s, a, i))
  {
    var e := Next(s.g, s.workers, a, s.agents[a], i);
    var s' := Step(s, a, i);
    GoodNext(s.g, s.workers, a, s.agents[a], i);
    forall x: Job ensures s'.submitted[x] == s'.ran[x] + Stock(s', x) {
      assert s.submitted[x] == s.ran[x] + Stock(s, x);
      StepBalances(s.g, s.workers, a, s.agents[a], i, x);
      ApplyStock(s, a, e, x);
      CountIs(e.put, x);
      CountIs(e.ran, x);
    }
  }

  lemma {:induction false} RunConserves(s: State, acts: seq<Act>)
    requires Inv(s) && Conserved(s)
    ensures Inv(Execute(s, acts)) && Conserved(Execute(s, acts))
    decreases |acts|
  {
    InvTyped(s);
    if acts != [] {
      var a, i := acts[0].agent, acts[0].input;
      if a < |s.agents| {
        StepKeeps(s, a, i);
        StepConserves(s, a, i);
        RunConserves(Step(s, a, i), acts[1..]);
      } else {
        RunConserves(s, acts[1..]);
      }
    }
  }

  lemma InitConserved(t: Tuning, workers: nat, agents: nat)
    ensures Conserved(Init(t, workers, agents))
  {
    var s := Init(t, workers, agents);
    forall x: Job ensures Stock(s, x) == 0 {
      Ring.SumZero(InWorkers(s.workers, x));
      Ring.SumZero(InAgents(s.agents, x));
    }
  }

  /** Every worker is blocked in `park` with no permit, and no thread is inside a call. */
  ghost predicate AllAsleep(s: State) {
    && (forall a :: 0 <= a < |s.agents| ==> s.agents[a].call.Ready? && (s.agents[a].frame.In? ==> s.agents[a].frame.pc.Parked?))
    && (forall w :: 0 <= w < |s.workers| ==> !s.workers[w].home && !s.workers[w].permit)
  }

  lemma AsleepWorker(s: State, w: nat)
    requires Inv(s) && AllAsleep(s) && w < |s.workers|
    ensures var W := s.workers[w]; W.stage == 5 && !Awaking(W) && W.owing == {} && W.deque == [] && W.inbox == [] && W.slot.None?
  {
    var W := s.workers[w];
    assert WorkerInv(s.g.running, W) && WorkerKnown(W, |s.agents|);
    var a := W.runner.value;
    assert AgentInv(s.g, s.workers, a, s.agents[a]);
    assert WorkerTokens(w, W, a, s.agents[a]);
    assert s.agents[a].frame.pc.Parked?;
    NobodyMarked(s, w);
  }

  /** With nobody inside a call, no worker is marked. */
  lemma NobodyMarked(s: State, w: nat)
    requires Inv(s) && AllAsleep(s) && w < |s.workers|
    ensures s.workers[w].coming == {} && s.workers[w].owing == {}
  {
    var W := s.workers[w];
    assert WorkerKnown(W, |s.agents|);
    forall c: nat ensures c !in W.coming && c !in W.owing {
      if c < |s.agents| {
        assert AgentInv(s.g, s.workers, c, s.agents[c]);
        assert WorkerTokens(w, W, c, s.agents[c]);
      }
    }
  }

  lemma AsleepInjector(s: State)
    requires Inv(s) && AllAsleep(s) && s.g.running
    ensures s.g.injector == []
  {
    forall c: nat ensures c !in s.g.duty {
      if c < |s.agents| { assert AgentInv(s.g, s.workers, c, s.agents[c]); }
    }
    forall w | 0 <= w < |s.workers| ensures !Watches(s.workers[w]) {
      AsleepWorker(s, w);
    }
  }

  /** No job is left anywhere. */
  ghost predicate NoJobs(s: State) {
    && s.g.injector == []
    && (forall w :: 0 <= w < |s.workers| ==> s.workers[w].deque == [] && s.workers[w].inbox == [] && s.workers[w].slot.None?)
    && (forall a :: 0 <= a < |s.agents| && s.agents[a].frame.In? ==> s.agents[a].frame.mine == [])
  }

  /** No stall: while the pool runs, it never sleeps with a job left anywhere. */
  lemma AsleepIsIdle(s: State)
    requires Inv(s) && AllAsleep(s) && s.g.running
    ensures NoJobs(s)
  {
    AsleepInjector(s);
    forall w | 0 <= w < |s.workers|
      ensures s.workers[w].deque == [] && s.workers[w].inbox == [] && s.workers[w].slot.None?
    {
      AsleepWorker(s, w);
    }
    forall a | 0 <= a < |s.agents| && s.agents[a].frame.In? ensures s.agents[a].frame.mine == [] {
      assert AgentInv(s.g, s.workers, a, s.agents[a]);
    }
  }

  lemma NoJobsNoStock(s: State, x: Job)
    requires NoJobs(s) && AllAsleep(s)
    ensures Stock(s, x) == 0
  {
    forall w | 0 <= w < |s.workers| ensures InWorkers(s.workers, x)[w] == 0 {
      assert s.workers[w].deque == [] && s.workers[w].inbox == [];
    }
    forall a | 0 <= a < |s.agents| ensures InAgents(s.agents, x)[a] == 0 {
      assert s.agents[a].call.Ready?;
    }
    Ring.SumZero(InWorkers(s.workers, x));
    Ring.SumZero(InAgents(s.agents, x));
  }

  /** Whatever the interleaving of any number of threads, with any tuning: if the pool has not
      been shut down, all its workers sleep, and nobody is inside a call, then every job that
      was ever submitted has run, exactly once. */
  lemma AsleepMeansDone(t: Tuning, workers: nat, agents: nat, acts: seq<Act>)
    requires workers > 0
    requires var s := Execute(Init(t, workers, agents), acts); s.g.running && AllAsleep(s)
    ensures var s := Execute(Init(t, workers, agents), acts); s.submitted == s.ran
  {
    var s := Execute(Init(t, workers, agents), acts);
    InitInv(t, workers, agents);
    InitConserved(t, workers, agents);
    RunConserves(Init(t, workers, agents), acts);
    AsleepIsIdle(s);
    forall x: Job ensures s.submitted[x] == s.ran[x] {
      NoJobsNoStock(s, x);
    }
  }

  /** A worker that is parked, or has left its loop, has an empty private queue and nothing to pop
      from its deque. */
  lemma RestingIsEmpty(s: State, a: nat, w: nat)
    requires Inv(s) && a < |s.agents| && w < |s.workers|
    ensures s.agents[a].frame.In? && (s.agents[a].frame.pc.Parked? || s.agents[a].frame.pc.Exit?) ==>
      s.agents[a].frame.mine == [] && s.workers[s.agents[a].frame.w].deque == []
    ensures s.workers[w].home ==> s.workers[w].deque == []
  {
    assert AgentInv(s.g, s.workers, a, s.agents[a]);
    assert WorkerInv(s.g.running, s.workers[w]);
  }

  /** While a worker is parked, a job in its slot or inbox means that it has a permit, that an
      unpark for it is on its way, or that a local submission has yet to look at its bit. */
  lemma ParkedIsCovered(s: State, a: nat)
    requires Inv(s) && a < |s.agents| && s.agents[a].frame.In? && s.agents[a].frame.pc.Parked?
    requires s.agents[a].frame.w < |s.workers|
    requires var W := s.workers[s.agents[a].frame.w]; W.inbox != [] || W.slot.Some?
    ensures var w := s.agents[a].frame.w;
      || s.workers[w].permit
      || exists c :: 0 <= c < |s.agents| && (ComingTo(s.agents[c].call) == Some(w) || OwingTo(s.agents[c].call) == Some(w))
  {
    var w, W := s.agents[a].frame.w, s.workers[s.agents[a].frame.w];
    assert AgentInv(s.g, s.workers, a, s.agents[a]);
    assert WorkerInv(s.g.running, W) && WorkerKnown(W, |s.agents|);
    if !W.permit {
      assert W.coming + W.owing != {} by {
        if W.coming != {} { var c :| c in W.coming; assert c in W.coming + W.owing; }
        else { var c :| c in W.owing; assert c in W.coming + W.owing; }
      }
      var c :| c in W.coming + W.owing;
      assert AgentInv(s.g, s.workers, c, s.agents[c]);
      assert WorkerTokens(w, W, c, s.agents[c]);
    }
  }

  /** At most one thread runs a given worker. */
  lemma OneRunner(s: State, a: nat, c: nat)
    requires Inv(s) && a < |s.agents| && c < |s.agents| && s.agents[a].frame.In? && s.agents[c].frame.In?
    requires s.agents[a].frame.w == s.agents[c].frame.w
    ensures a == c
  {
    var w := s.agents[a].frame.w;
    assert AgentInv(s.g, s.workers, a, s.agents[a]) && AgentInv(s.g, s.workers, c, s.agents[c]);
    assert WorkerTokens(w, s.workers[w], a, s.agents[a]) && WorkerTokens(w, s.workers[w], c, s.agents[c]);
  }

  /** At most half of the workers, rounded up, hold a search slot, and the counter is the number
      of holders plus those backing out. */
  lemma SearchIsCapped(s: State)
    requires Inv(s)
    ensures var holders := set a: nat | a < |s.agents| && Hunts(s.agents[a].frame);
      var backing := set a: nat | a < |s.agents| && BacksOut(s.agents[a].frame);
      2 * |holders| <= |s.workers| + 1 && s.g.searching == |holders| + |backing|
  {
    var holders := set a: nat | a < |s.agents| && Hunts(s.agents[a].frame);
    var backing := set a: nat | a < |s.agents| && BacksOut(s.agents[a].frame);
    forall a: nat ensures (a in holders <==> a in s.g.holders) && (a in backing <==> a in s.g.backing) {
      if a < |s.agents| { assert AgentInv(s.g, s.workers, a, s.agents[a]); }
    }
    assert holders == s.g.holders && backing == s.g.backing;
  }

  /** A step that claims worker `w`, and one that announces its sleep. */
  predicate Claims(s: State, a: nat, w: nat)
    requires a < |s.agents| && w < |s.workers|
  {
    s.workers[w].bit &&
      ((s.agents[a].call.Clear? && s.agents[a].call.c == w) || (s.agents[a].call.SpecClear? && s.agents[a].call.w == w))
  }

  predicate Announces(s: State, a: nat, w: nat)
    requires a < |s.agents|
  {
    s.agents[a].call.Ready? && s.agents[a].frame.In? && s.agents[a].frame.w == w && s.agents[a].frame.pc.Announce?
  }

  predicate BitStays(workers: seq<Worker>, e: Effect) {
    e.On? ==> e.w < |workers| && (e.W.bit ==> workers[e.w].bit)
  }

  lemma SleepBit(g: Global, workers: seq<Worker>, w: nat, pc: Pc, mine: seq<Job>, k: Counters, i: Input)
    requires w < |workers| && (IsPrepare(pc) || IsResume(pc)) && !pc.Announce?
    ensures BitStays(workers, StepPrepare(g, workers[w], w, pc, mine, k, i))
  {
  }

  lemma StealBit(g: Global, workers: seq<Worker>, a: nat, w: nat, pc: Pc, mine: seq<Job>, k: Counters, i: Input)
    requires w < |workers| && IsFinding(pc)
    ensures BitStays(workers, StepLoop(g, workers, a, w, pc, mine, k, i))
  {
  }

  lemma WorkBit(g: Global, workers: seq<Worker>, a: nat, w: nat, pc: Pc, mine: seq<Job>, k: Counters, i: Input)
    requires w < |workers| && !IsPrepare(pc) && !IsResume(pc) && !IsFinding(pc)
    ensures BitStays(workers, StepLoop(g, workers, a, w, pc, mine, k, i))
  {
  }

  lemma LoopBit(g: Global, workers: seq<Worker>, a: nat, w: nat, pc: Pc, mine: seq<Job>, k: Counters, i: Input)
    requires w < |workers| && !pc.Announce?
    ensures BitStays(workers, StepLoop(g, workers, a, w, pc, mine, k, i))
  {
    if IsPrepare(pc) || IsResume(pc) {
      LoopIsPrepare(g, workers, a, w, pc, mine, k, i);
      SleepBit(g, workers, w, pc, mine, k, i);
    } else if IsFinding(pc) {
      StealBit(g, workers, a, w, pc, mine, k, i);
    } else {
      WorkBit(g, workers, a, w, pc, mine, k, i);
    }
  }

  lemma CallBit(g: Global, workers: seq<Worker>, a: nat, f: Frame, c: Call, i: Input)
    requires CallTyped(|workers|, c)
    ensures BitStays(workers, StepCall(g, workers, a, f, c, i))
  {
  }

  lemma OutsideBit(g: Global, workers: seq<Worker>, a: nat, i: Input)
    ensures BitStays(workers, StepOutside(g, workers, a, i))
  {
  }

  lemma ApplyBit(s: State, a: nat, e: Effect, w: nat)
    requires a < |s.agents| && w < |s.workers| && !s.workers[w].bit
    requires e.On? && e.w == w ==> !e.W.bit
    ensures |Apply(s, a, e).workers| == |s.workers| && !Apply(s, a, e).workers[w].bit
  {
  }

  lemma AnnounceIsOwn(g: Global, workers: seq<Worker>, a: nat, w: nat, mine: seq<Job>, k: Counters, i: Input)
    requires w < |workers|
    ensures var e := StepLoop(g, workers, a, w, Announce, mine, k, i); e.On? && e.w == w
  {
  }

  /** Only the announcement of its own thread sets a worker's bit. */
  lemma BitNeedsAnnounce(s: State, a: nat, i: Input, w: nat)
    requires AllTyped(s) && a < |s.agents| && w < |s.workers| && !s.workers[w].bit && !Announces(s, a, w)
    ensures |Step(s, a, i).workers| == |s.workers| && !Step(s, a, i).workers[w].bit
  {
    var ag := s.agents[a];
    var e := Next(s.g, s.workers, a, ag, i);
    if !ag.call.Ready? {
      CallBit(s.g, s.workers, a, ag.frame, ag.call, i);
    } else if ag.frame.Outside? {
      OutsideBit(s.g, s.workers, a, i);
    } else if ag.frame.pc.Announce? {
      AnnounceIsOwn(s.g, s.workers, a, ag.frame.w, ag.frame.mine, ag.frame.k, i);
    } else {
      LoopBit(s.g, s.workers, a, ag.frame.w, ag.frame.pc, ag.frame.mine, ag.frame.k, i);
    }
    ApplyBit(s, a, e, w);
  }

  /** Along a schedule, thread moves that claim worker `w`, and moves that announce it. */
  predicate NoAnnounce(s: State, acts: seq<Act>, w: nat)
    decreases |acts|
  {
    acts == [] || !AllTyped(s) ||
      (if acts[0].agent < |s.agents| then
         !Announces(s, acts[0].agent, w) && NoAnnounce(Step(s, acts[0].agent, acts[0].input), acts[1..], w)
       else NoAnnounce(s, acts[1..], w))
  }

  predicate NoClaim(s: State, acts: seq<Act>, w: nat)
    requires w < |s.workers|
    decreases |acts|
  {
    acts == [] || !AllTyped(s) ||
      (if acts[0].agent < |s.agents| then
         && !Claims(s, acts[0].agent, w)
         && w < |Step(s, acts[0].agent, acts[0].input).workers|
         && NoClaim(Step(s, acts[0].agent, acts[0].input), acts[1..], w)
       else NoClaim(s, acts[1..], w))
  }

  /** Once a worker has been claimed, nobody claims it again before it has announced sleep again:
      so the wakes of one burst go to different sleepers. */
  lemma {:induction false} ClaimNeedsAnnounce(s: State, acts: seq<Act>, w: nat)
    requires Inv(s) && w < |s.workers| && !s.workers[w].bit && NoAnnounce(s, acts, w)
    ensures NoClaim(s, acts, w)
    decreases |acts|
  {
    InvTyped(s);
    if acts != [] {
      var a, i := acts[0].agent, acts[0].input;
      if a < |s.agents| {
        StepKeeps(s, a, i);
        BitNeedsAnnounce(s, a, i, w);
        ClaimNeedsAnnounce(Step(s, a, i), acts[1..], w);
      } else {
        ClaimNeedsAnnounce(s, acts[1..], w);
      }
    }
  }

  /** A claim clears the bit. */
  lemma ClaimClears(s: State, a: nat, i: Input, w: nat)
    requires AllTyped(s) && a < |s.agents| && w < |s.workers| && Claims(s, a, w)
    ensures |Step(s, a, i).workers| == |s.workers| && !Step(s, a, i).workers[w].bit
  {
  }

  /** The unpark loop of `shut_down` has passed every worker. */
  ghost predicate AllTold(s: State) {
    forall w :: 0 <= w < |s.workers| ==> s.workers[w].told
  }

  /** When the loop of `shut_down` ends, it has told every worker. */
  lemma ShutDownTellsAll(s: State, a: nat)
    requires Inv(s) && a < |s.agents| && s.agents[a].call.Shut? && s.agents[a].call.i >= |s.workers|
    ensures AllTold(s)
  {
    assert AgentInv(s.g, s.workers, a, s.agents[a]);
  }

  lemma ToldStep(s: State, a: nat, i: Input)
    requires Inv(s) && AllTyped(s) && a < |s.agents| && AllTold(s)
    ensures AllTold(Step(s, a, i))
  {
    GoodNext(s.g, s.workers, a, s.agents[a], i);
    ToldApply(s, a, Next(s.g, s.workers, a, s.agents[a], i));
  }

  lemma ToldApply(s: State, a: nat, e: Effect)
    requires a < |s.agents| && AllTold(s) && (e.On? ==> e.w < |s.workers| && WorkerEvolves(s.workers[e.w], e.W, a))
    ensures AllTold(Apply(s, a, e))
  {
  }

  /** From then on, under every schedule, a thread blocked in `park` has a permit. */
  lemma {:induction false} ShutDownWakesAll(s: State, acts: seq<Act>)
    requires Inv(s) && AllTold(s)
    ensures var s' := Execute(s, acts);
      && !s'.g.running && !s'.fault
      && forall a :: 0 <= a < |s'.agents| && s'.agents[a].frame.In? && s'.agents[a].frame.pc.Parked? ==>
           s'.agents[a].frame.w < |s'.workers| && s'.workers[s'.agents[a].frame.w].permit
    decreases |acts|
  {
    InvTyped(s);
    if acts == [] {
      assert WorkerInv(s.g.running, s.workers[0]);
      forall a | 0 <= a < |s.agents| && s.agents[a].frame.In? && s.agents[a].frame.pc.Parked?
        ensures s.agents[a].frame.w < |s.workers| && s.workers[s.agents[a].frame.w].permit
      {
        assert AgentInv(s.g, s.workers, a, s.agents[a]);
        assert WorkerInv(s.g.running, s.workers[s.agents[a].frame.w]);
      }
    } else {
      var a, i := acts[0].agent, acts[0].input;
      if a < |s.agents| {
        StepKeeps(s, a, i);
        ToldStep(s, a, i);
        ShutDownWakesAll(Step(s, a, i), acts[1..]);
      } else {
        ShutDownWakesAll(s, acts[1..]);
      }
    }
  }
}
