/** The park word of one worker (src/fanout/atomic_host.rs): one parker, any number of
    unparkers, and a kernel that may return from a wait for its own reasons. */
module Permit {

  datatype Word = LOCKED | SIGNAL | ASLEEP

  /** Where the parker is inside `park`. `Wait` is about to make the system call, and `Blocked`
      is inside it. */
  datatype Parker = Outside | Entered | Undo | Check | Wait | Blocked | Recheck | Consume

  datatype Unparker = Resting | Swapping | Waking

  /** `unparks` and `returned` count the swaps of `unpark` and the completed calls of `park`. */
  datatype State = State(word: Word, parker: Parker, unparkers: seq<Unparker>, unparks: nat, returned: nat)

  /** A step of the parker, a spurious return from the wait, or a step of an unparker. */
  datatype Move = Park | Spurious | Unpark(u: nat)

  function StepPark(s: State): State {
    match s.parker
    case Outside => s.(parker := Entered)
    case Entered => s.(word := ASLEEP, parker := if s.word != LOCKED then Undo else Check)
    case Undo => s.(word := if s.word == ASLEEP then LOCKED else s.word, parker := Outside, returned := s.returned + 1)
    case Check => s.(parker := if s.word == ASLEEP then Wait else Consume)
    case Wait => s.(parker := if s.word == ASLEEP then Blocked else Recheck)
    case Blocked => s
    case Recheck => s.(parker := Check)
    case Consume => s.(word := if s.word == SIGNAL then LOCKED else s.word, parker := Outside, returned := s.returned + 1)
  }

  function StepUnpark(s: State, u: nat): State
    requires u < |s.unparkers|
  {
    match s.unparkers[u]
    case Resting => s.(unparkers := s.unparkers[u := Swapping])
    case Swapping =>
      s.(word := SIGNAL, unparks := s.unparks + 1,
         unparkers := s.unparkers[u := if s.word == ASLEEP then Waking else Resting])
    case Waking =>
      s.(parker := if s.parker == Blocked then Recheck else s.parker, unparkers := s.unparkers[u := Resting])
  }

  function Step(s: State, m: Move): State {
    match m
    case Park => StepPark(s)
    case Spurious => if s.parker == Blocked then s.(parker := Recheck) else s
    case Unpark(u) => if u < |s.unparkers| then StepUnpark(s, u) else s
  }

  function Init(unparkers: nat): State {
    State(LOCKED, Outside, seq(unparkers, _ => Resting), 0, 0)
  }

  /** A signal is outstanding: its swap has happened, and no return has consumed it. */
  predicate Owed(s: State) {
    s.word == SIGNAL || s.parker == Undo
  }

  ghost predicate WakeComing(s: State) {
    exists u :: 0 <= u < |s.unparkers| && s.unparkers[u] == Waking
  }

  ghost predicate Inv(s: State) {
    && (s.parker == Outside || s.parker == Entered ==> s.word != ASLEEP)
    && (s.parker == Undo || s.parker == Check || s.parker == Wait || s.parker == Recheck ==> s.word != LOCKED)
    && (s.parker == Consume ==> s.word == SIGNAL)
    && (s.parker == Blocked ==> s.word == ASLEEP || (s.word == SIGNAL && WakeComing(s)))
    && s.returned + (if s.word == SIGNAL then 1 else 0) + (if s.parker == Undo then 1 else 0) <= s.unparks
  }

  lemma UnparkKeeps(s: State, u: nat)
    requires Inv(s) && u < |s.unparkers|
    ensures Inv(StepUnpark(s, u))
  {
    var s' := StepUnpark(s, u);
    if s.parker == Blocked {
      if s.unparkers[u] == Swapping && s.word == ASLEEP {
        assert s'.unparkers[u] == Waking;
      } else if s.unparkers[u] != Waking && s.word == SIGNAL {
        var v :| 0 <= v < |s.unparkers| && s.unparkers[v] == Waking;
        assert s'.unparkers[v] == Waking;
      }
    }
  }

  lemma StepKeeps(s: State, m: Move)
    requires Inv(s)
    ensures Inv(Step(s, m))
  {
    if m.Unpark? && m.u < |s.unparkers| {
      UnparkKeeps(s, m.u);
    }
  }

  function Run(s: State, moves: seq<Move>): State
    decreases |moves|
  {
    if moves == [] then s else Run(Step(s, moves[0]), moves[1..])
  }

  /** Over every interleaving: `park` is never entered with the word at `ASLEEP`, a parker
      blocked in the kernel has the word at `ASLEEP` or a wake on its way, and there are never
      more returns than unparks. */
  lemma {:induction false} RunIsSafe(n: nat, moves: seq<Move>)
    ensures var s := Run(Init(n), moves);
      && (s.parker == Outside || s.parker == Entered ==> s.word != ASLEEP)
      && (s.parker == Blocked ==> s.word == ASLEEP || WakeComing(s))
      && s.returned <= s.unparks
  {
    RunKeeps(Init(n), moves);
  }

  lemma {:induction false} RunKeeps(s: State, moves: seq<Move>)
    requires Inv(s)
    ensures Inv(Run(s, moves))
    decreases |moves|
  {
    if moves != [] {
      StepKeeps(s, moves[0]);
      RunKeeps(Step(s, moves[0]), moves[1..]);
    }
  }

  /** How many steps the parker is from returning, once a signal is outstanding. */
  function Distance(p: Parker): nat {
    match p
    case Outside => 3
    case Entered => 2
    case Undo => 1
    case Consume => 1
    case Check => 2
    case Recheck => 3
    case Wait => 4
    case Blocked => 4
  }

  /** A step of the parker itself that can be taken: the call has begun, or begins, and is not
      stuck in the kernel. */
  predicate Moves(s: State, m: Move) {
    (m == Park && s.parker != Blocked) || (m == Spurious && s.parker == Blocked)
      || (m.Unpark? && m.u < |s.unparkers| && s.unparkers[m.u] == Waking && s.parker == Blocked)
  }

  /** An outstanding signal brings the parker one step closer to a return with each of its own
      steps, and no step of anybody takes it further away. */
  lemma StepApproaches(s: State, m: Move)
    requires Inv(s) && Owed(s)
    ensures var s' := Step(s, m);
      || s'.returned == s.returned + 1
      || (Owed(s') && s'.returned == s.returned
          && Distance(s'.parker) <= Distance(s.parker) - (if Moves(s, m) then 1 else 0))
  {
  }

  /** And the parker is never stuck: if it is blocked although a signal is outstanding, a wake
      is on its way that unblocks it. */
  lemma OwedIsNotStuck(s: State)
    requires Inv(s) && Owed(s)
    ensures s.parker == Blocked ==> exists u :: 0 <= u < |s.unparkers| && Moves(s, Unpark(u))
  {
    if s.parker == Blocked {
      var u :| 0 <= u < |s.unparkers| && s.unparkers[u] == Waking;
      assert Moves(s, Unpark(u));
    }
  }

  /** How many of the moves of a run let the parker get on. */
  function Progress(s: State, moves: seq<Move>): nat
    decreases |moves|
  {
    if moves == [] then 0 else (if Moves(s, moves[0]) then 1 else 0) + Progress(Step(s, moves[0]), moves[1..])
  }

  lemma ReturnsGrow(s: State, m: Move)
    ensures Step(s, m).returned >= s.returned
  {
  }

  lemma {:induction false} RunReturnsGrow(s: State, moves: seq<Move>)
    ensures Run(s, moves).returned >= s.returned
    decreases |moves|
  {
    if moves != [] { RunReturnsGrow(Step(s, moves[0]), moves[1..]); }
  }

  /** No wake is lost. After the swap of an unpark, whatever the interleaving, the park in
      progress or the next one returns within a bounded number of the parker's own moves; a
      park that has not begun does so without ever waiting. */
  lemma {:induction false} SignalIsDelivered(s: State, moves: seq<Move>)
    requires Inv(s) && Owed(s) && Progress(s, moves) >= Distance(s.parker)
    ensures Run(s, moves).returned > s.returned
    decreases |moves|
  {
    if moves != [] {
      var s' := Step(s, moves[0]);
      StepKeeps(s, moves[0]);
      StepApproaches(s, moves[0]);
      if s'.returned == s.returned + 1 {
        RunReturnsGrow(s', moves[1..]);
      } else {
        SignalIsDelivered(s', moves[1..]);
      }
    }
  }

  /** The swap of an unpark leaves a signal outstanding. */
  lemma UnparkOwes(s: State, u: nat)
    requires u < |s.unparkers| && s.unparkers[u] == Swapping
    ensures Owed(Step(s, Unpark(u))) && Step(s, Unpark(u)).unparks == s.unparks + 1
  {
  }

  /** So from the swap of an unpark on, whatever the interleaving, the park in progress or the next
      one returns within as many of the parker's own moves as it was away from returning. */
  lemma UnparkIsDelivered(s: State, u: nat, moves: seq<Move>)
    requires Inv(s) && u < |s.unparkers| && s.unparkers[u] == Swapping
    requires Progress(Step(s, Unpark(u)), moves) >= Distance(s.parker)
    ensures Run(s, [Unpark(u)] + moves).returned > s.returned
  {
    var s' := Step(s, Unpark(u));
    UnparkOwes(s, u);
    StepKeeps(s, Unpark(u));
    SignalIsDelivered(s', moves);
    assert ([Unpark(u)] + moves)[1..] == moves;
  }

  /** A park entered with a signal outstanding never waits: until it returns, it only undoes
      its own swap. */
  lemma {:induction false} PermitSkipsWait(s: State, moves: seq<Move>)
    requires Inv(s) && Owed(s) && (s.parker == Outside || s.parker == Entered || s.parker == Undo)
    requires Run(s, moves).returned == s.returned
    ensures var p := Run(s, moves).parker; p == Outside || p == Entered || p == Undo
    decreases |moves|
  {
    if moves != [] {
      var s' := Step(s, moves[0]);
      StepKeeps(s, moves[0]);
      RunReturnsGrow(s', moves[1..]);
      ReturnsGrow(s, moves[0]);
      PermitSkipsWait(s', moves[1..]);
    }
  }
}
