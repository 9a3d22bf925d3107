/** How much the pool does at a time: how many sleepers a burst wakes, how many jobs a worker shares
    or takes, and how long it may serve one source before it looks at another. */
module PoolAmounts {
  import opened Words
  import opened PoolMachine
  import opened PoolSafety

  /** A wake-up burst in progress: whom it spares, and how many workers it still has to wake. */
  datatype Burst = Burst(spare: Option<nat>, left: nat)

  function BurstOf(c: Call): Option<Burst> {
    match c
    case Claim(spare, left, _, _) => Some(Burst(spare, left))
    case Clear(spare, left, _, _, _) => Some(Burst(spare, left))
    case Signal(spare, left, _) => Some(Burst(spare, left))
    case _ => None
  }

  /** Whoever it has named or claimed is one of those that are left. */
  predicate Sound(c: Call) {
    match c
    case Clear(spare, left, _, _, c) => left > 0 && spare != Some(c)
    case Signal(spare, left, c) => left > 0 && spare != Some(c)
    case _ => true
  }

  /** The worker that the call has claimed and not yet woken. */
  function InHand(c: Call): seq<nat> {
    if c.Signal? then [c.c] else []
  }

  /** No worker other than `spare` announces sleep. */
  ghost predicate NobodyElse(workers: seq<Worker>, spare: Option<nat>) {
    forall c: nat :: c < |workers| && spare != Some(c) ==> !workers[c].bit
  }

  /** The worker that a step of a burst wakes, and the one that it claims by taking its bit. */
  function Wakes(c: Call): seq<nat> {
    if c.Signal? then [c.c] else []
  }

  function Takes(workers: seq<Worker>, c: Call): seq<nat>
    requires CallTyped(|workers|, c)
  {
    if c.Clear? && workers[c.c].bit then [c.c] else []
  }

  /** One step of a burst. It ends when nobody is left to be woken, or at a look at the bitmap that
      finds nobody announced. */
  lemma BurstStep(g: Global, workers: seq<Worker>, a: nat, f: Frame, c: Call, i: Input)
    requires CallTyped(|workers|, c) && BurstOf(c).Some? && Sound(c)
    ensures var e, b := StepCall(g, workers, a, f, c, i), BurstOf(c).value;
      && !e.Fault? && e.ag.frame == f
      && (c.Signal? ==> e.On? && e.w == c.c && e.W.permit)
      && (Takes(workers, c) != [] ==> e.On? && e.w == c.c && !e.W.bit)
      && (if BurstOf(e.ag.call).Some? then
            && Sound(e.ag.call)
            && BurstOf(e.ag.call).value.spare == b.spare
            && BurstOf(e.ag.call).value.left + |Wakes(c)| == b.left
            && InHand(c) + Takes(workers, c) == Wakes(c) + InHand(e.ag.call)
          else
            && c.Claim? && (e.ag.call.Ready? || e.ag.call.Hint?)
            && (b.left == 0 || NobodyElse(workers, b.spare)))
  {
  }

  /** The burst of `a` is in progress at every state of the schedule but the last. */
  predicate BurstsOn(s: State, acts: seq<Act>, a: nat)
    decreases |acts|
  {
    acts == [] ||
      (&& AllTyped(s) && a < |s.agents| && BurstOf(s.agents[a].call).Some?
       && (if acts[0].agent < |s.agents| then BurstsOn(Step(s, acts[0].agent, acts[0].input), acts[1..], a)
           else BurstsOn(s, acts[1..], a)))
  }

  /** The workers that `a` wakes along a schedule, in order, and those that it claims. */
  function Woken(s: State, acts: seq<Act>, a: nat): seq<nat>
    decreases |acts|
  {
    if acts == [] || !AllTyped(s) then []
    else if acts[0].agent < |s.agents| then
      (if acts[0].agent == a then Wakes(s.agents[a].call) else []) + Woken(Step(s, acts[0].agent, acts[0].input), acts[1..], a)
    else Woken(s, acts[1..], a)
  }

  function Claimed(s: State, acts: seq<Act>, a: nat): seq<nat>
    decreases |acts|
  {
    if acts == [] || !AllTyped(s) then []
    else if acts[0].agent < |s.agents| then
      (if acts[0].agent == a then Takes(s.workers, s.agents[a].call) else []) + Claimed(Step(s, acts[0].agent, acts[0].input), acts[1..], a)
    else Claimed(s, acts[1..], a)
  }

  /** The state before the last act. */
  function Before(s: State, acts: seq<Act>): State
    requires acts != []
    decreases |acts|
  {
    if |acts| == 1 || !AllTyped(s) then s
    else if acts[0].agent < |s.agents| then Before(Step(s, acts[0].agent, acts[0].input), acts[1..])
    else Before(s, acts[1..])
  }

  lemma Joins(h: seq<nat>, t: seq<nat>, w: seq<nat>, h': seq<nat>, t': seq<nat>, w': seq<nat>, h'': seq<nat>)
    requires h + t == w + h' && h' + t' == w' + h''
    ensures h + (t + t') == (w + w') + h''
  {
    assert h + (t + t') == (h + t) + t' && (w + h') + t' == w + (h' + t') && w + (w' + h'') == (w + w') + h'';
  }

  lemma OwnBurst(s: State, a: nat, i: Input)
    requires Inv(s) && AllTyped(s) && a < |s.agents| && BurstOf(s.agents[a].call).Some? && Sound(s.agents[a].call)
    ensures var s', c, b := Step(s, a, i), s.agents[a].call, BurstOf(s.agents[a].call).value;
      && |s'.agents| == |s.agents| && |s'.workers| == |s.workers|
      && var c' := s'.agents[a].call;
         if BurstOf(c').Some? then
           && Sound(c') && BurstOf(c').value.spare == b.spare && BurstOf(c').value.left + |Wakes(c)| == b.left
           && InHand(c) + Takes(s.workers, c) == Wakes(c) + InHand(c')
         else
           Wakes(c) == [] && InHand(c) == [] && Takes(s.workers, c) == [] && (b.left == 0 || NobodyElse(s.workers, b.spare))
  {
    var ag := s.agents[a];
    GoodNext(s.g, s.workers, a, ag, i);
    BurstStep(s.g, s.workers, a, ag.frame, ag.call, i);
  }

  lemma OthersKeepCalls(s: State, b: nat, i: Input, a: nat)
    requires Inv(s) && AllTyped(s) && a < |s.agents| && b < |s.agents| && a != b
    ensures |Step(s, b, i).agents| == |s.agents| && Step(s, b, i).agents[a] == s.agents[a]
  {
  }

  /** What has become of a burst that had `wanted` workers to wake at call `c`. */
  ghost predicate Outcome(c: Call, spare: Option<nat>, wanted: nat, woken: seq<nat>, claimed: seq<nat>, c': Call, last: seq<Worker>) {
    if BurstOf(c').Some? then
      && Sound(c') && BurstOf(c').value.spare == spare && |woken| + BurstOf(c').value.left == wanted
      && InHand(c) + claimed == woken + InHand(c')
    else
      InHand(c) + claimed == woken && (|woken| == wanted || (|woken| < wanted && NobodyElse(last, spare)))
  }

  lemma OutcomeJoins(c: Call, c1: Call, spare: Option<nat>, wanted: nat, w: seq<nat>, t: seq<nat>, woken: seq<nat>, claimed: seq<nat>, c': Call, last: seq<Worker>)
    requires |w| <= wanted && InHand(c) + t == w + InHand(c1) && Outcome(c1, spare, wanted - |w|, woken, claimed, c', last)
    ensures Outcome(c, spare, wanted, w + woken, t + claimed, c', last)
  {
    var h := if BurstOf(c').Some? then InHand(c') else [];
    assert InHand(c1) + claimed == woken + h;
    Joins(InHand(c), t, w, InHand(c1), claimed, woken, h);
    assert (w + woken) + h == InHand(c) + (t + claimed);
  }

  /** What the first act of a schedule does to the burst of `a`: it leads to `s1`, and wakes `w` and
      claims `t`. */
  ghost predicate Turn(s: State, acts: seq<Act>, a: nat, s1: State, w: seq<nat>, t: seq<nat>) {
    && acts != [] && Inv(s1) && a < |s1.agents| && a < |s.agents|
    && Execute(s, acts) == Execute(s1, acts[1..])
    && BurstsOn(s1, acts[1..], a)
    && Woken(s, acts, a) == w + Woken(s1, acts[1..], a)
    && Claimed(s, acts, a) == t + Claimed(s1, acts[1..], a)
    && Before(s, acts) == (if acts[1..] == [] then s else Before(s1, acts[1..]))
  }

  lemma TurnIs(s: State, acts: seq<Act>, a: nat)
    requires Inv(s) && AllTyped(s) && a < |s.agents| && acts != [] && BurstsOn(s, acts, a) && acts[0].agent < |s.agents|
    requires |Step(s, acts[0].agent, acts[0].input).agents| == |s.agents|
    ensures var own := acts[0].agent == a;
      Turn(s, acts, a, Step(s, acts[0].agent, acts[0].input),
           if own then Wakes(s.agents[a].call) else [], if own then Takes(s.workers, s.agents[a].call) else [])
  {
    StepKeeps(s, acts[0].agent, acts[0].input);
  }

  lemma NoTurn(s: State, acts: seq<Act>, a: nat)
    requires Inv(s) && AllTyped(s) && a < |s.agents| && acts != [] && BurstsOn(s, acts, a) && acts[0].agent >= |s.agents|
    ensures Turn(s, acts, a, s, [], [])
  {
    assert [] + Woken(s, acts[1..], a) == Woken(s, acts, a) && [] + Claimed(s, acts[1..], a) == Claimed(s, acts, a);
  }

  /** The burst goes on to call `c1`, or is over. */
  ghost predicate Progress(c: Call, spare: Option<nat>, wanted: nat, w: seq<nat>, t: seq<nat>, c1: Call, workers: seq<Worker>) {
    if BurstOf(c1).Some? then
      && Sound(c1) && BurstOf(c1).value.spare == spare && |w| + BurstOf(c1).value.left == wanted && InHand(c) + t == w + InHand(c1)
    else
      w == [] && t == [] && InHand(c) == [] && (wanted == 0 || NobodyElse(workers, spare))
  }

  lemma BurstTurn(s: State, acts: seq<Act>, a: nat, spare: Option<nat>, wanted: nat) returns (s1: State, w: seq<nat>, t: seq<nat>)
    requires Inv(s) && a < |s.agents| && BurstOf(s.agents[a].call) == Some(Burst(spare, wanted)) && Sound(s.agents[a].call)
    requires acts != [] && BurstsOn(s, acts, a)
    ensures Turn(s, acts, a, s1, w, t) && Progress(s.agents[a].call, spare, wanted, w, t, s1.agents[a].call, s.workers)
  {
    InvTyped(s);
    var b, i, c := acts[0].agent, acts[0].input, s.agents[a].call;
    s1, w, t := s, [], [];
    assert InHand(c) + [] == [] + InHand(c);
    if b >= |s.agents| {
      NoTurn(s, acts, a);
    } else if b == a {
      OwnBurst(s, a, i);
      TurnIs(s, acts, a);
      s1, w, t := Step(s, a, i), Wakes(c), Takes(s.workers, c);
    } else {
      OthersKeepCalls(s, b, i, a);
      TurnIs(s, acts, a);
      s1 := Step(s, b, i);
    }
  }

  lemma OverIsLast(s: State, acts: seq<Act>, a: nat)
    requires BurstsOn(s, acts, a) && a < |s.agents| && BurstOf(s.agents[a].call).None?
    ensures acts == []
  {
  }

  lemma {:induction false} BurstComesOut(s: State, acts: seq<Act>, a: nat, spare: Option<nat>, wanted: nat, last: seq<Worker>)
    requires Inv(s) && a < |s.agents| && BurstOf(s.agents[a].call) == Some(Burst(spare, wanted)) && Sound(s.agents[a].call)
    requires BurstsOn(s, acts, a) && (acts != [] ==> last == Before(s, acts).workers)
    ensures var s' := Execute(s, acts);
      && Inv(s') && a < |s'.agents|
      && Outcome(s.agents[a].call, spare, wanted, Woken(s, acts, a), Claimed(s, acts, a), s'.agents[a].call, last)
    decreases |acts|
  {
    var c := s.agents[a].call;
    if acts == [] {
      assert InHand(c) + [] == [] + InHand(c);
    } else {
      var s1, w, t := BurstTurn(s, acts, a, spare, wanted);
      var c1 := s1.agents[a].call;
      if BurstOf(c1).Some? {
        BurstComesOut(s1, acts[1..], a, spare, wanted - |w|, last);
        OutcomeJoins(c, c1, spare, wanted, w, t, Woken(s1, acts[1..], a), Claimed(s1, acts[1..], a), Execute(s1, acts[1..]).agents[a].call, last);
      } else {
        OverIsLast(s1, acts[1..], a);
      }
    }
  }

  /** A burst ends only after it has woken as many workers as it was asked to, each claimed by
      itself before, or at a step at which no worker but the spared one announces sleep; under
      every schedule of all others. */
  lemma BurstWakesAll(s: State, acts: seq<Act>, a: nat, spare: Option<nat>, wanted: nat, hint: Option<nat>, owes: bool)
    requires Inv(s) && a < |s.agents| && s.agents[a].call == Claim(spare, wanted, hint, owes) && acts != []
    requires BurstsOn(s, acts, a)
    requires var s' := Execute(s, acts); a < |s'.agents| && BurstOf(s'.agents[a].call).None?
    ensures Claimed(s, acts, a) == Woken(s, acts, a)
    ensures || |Woken(s, acts, a)| == wanted
            || (|Woken(s, acts, a)| < wanted && forall c: nat :: c < |Before(s, acts).workers| && spare != Some(c) ==> !Before(s, acts).workers[c].bit)
  {
    var last := Before(s, acts).workers;
    BurstComesOut(s, acts, a, spare, wanted, last);
    EndsWith(s.agents[a].call, spare, wanted, Woken(s, acts, a), Claimed(s, acts, a), Execute(s, acts).agents[a].call, last);
  }

  lemma EndsWith(c: Call, spare: Option<nat>, wanted: nat, woken: seq<nat>, claimed: seq<nat>, c': Call, last: seq<Worker>)
    requires c.Claim? && BurstOf(c').None? && Outcome(c, spare, wanted, woken, claimed, c', last)
    ensures claimed == woken && (|woken| == wanted || (|woken| < wanted && NobodyElse(last, spare)))
  {
    assert [] + claimed == claimed;
  }
}
