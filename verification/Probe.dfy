/**
 Debouncing probe samples into a path verdict (internal/agent/probe/state.go), and
 what the automaton means: which samples decide the state, and how often it may flap.
 */
module Probe {
  import opened HealthModel

  /** The automaton's variables as a value. A sample is whether the probe succeeded. */
  datatype MachineState = MachineState(
    failureThreshold: int, successThreshold: int, state: State,
    consecutiveSuccess: nat, consecutiveFailure: nat, samples: nat)
  {
    ghost predicate Valid() {
      failureThreshold >= 1 && successThreshold >= 1
    }

    function Observed(success: bool): MachineState {
      if success then
        this.(consecutiveSuccess := consecutiveSuccess + 1, consecutiveFailure := 0, samples := samples + 1,
              state := if state != Healthy && consecutiveSuccess + 1 >= successThreshold then Healthy else state)
      else
        this.(consecutiveFailure := consecutiveFailure + 1, consecutiveSuccess := 0, samples := samples + 1,
              state := if state != Unhealthy && consecutiveFailure + 1 >= failureThreshold then Unhealthy else state)
    }
  }

  function Clamp(threshold: int): int {
    if threshold < 1 then 1 else threshold
  }

  function NewMachine(failureThreshold: int, successThreshold: int): MachineState {
    MachineState(Clamp(failureThreshold), Clamp(successThreshold), Unknown, 0, 0, 0)
  }

  class Machine {
    const failureThreshold: int
    const successThreshold: int
    var state: State
    var consecutiveSuccess: nat
    var consecutiveFailure: nat
    var samples: nat

    function State(): MachineState
      reads this
    {
      MachineState(failureThreshold, successThreshold, state, consecutiveSuccess, consecutiveFailure, samples)
    }

    constructor (failureThreshold: int, successThreshold: int)
      ensures State() == NewMachine(failureThreshold, successThreshold)
      ensures this.failureThreshold == if failureThreshold < 1 then 1 else failureThreshold
      ensures this.successThreshold == if successThreshold < 1 then 1 else successThreshold
      ensures state == Unknown && consecutiveSuccess == 0 && consecutiveFailure == 0 && samples == 0
    {
      this.failureThreshold := if failureThreshold < 1 then 1 else failureThreshold;
      this.successThreshold := if successThreshold < 1 then 1 else successThreshold;
      state := Unknown;
      consecutiveSuccess, consecutiveFailure, samples := 0, 0, 0;
    }

    method Observe(success: bool) returns (from: HealthModel.State, to: HealthModel.State, changed: bool)
      modifies this
      ensures State() == old(State()).Observed(success)
      ensures from == old(state) && to == state && (changed <==> from != to)
    {
      from := state;
      samples := samples + 1;
      if success {
        consecutiveSuccess := consecutiveSuccess + 1;
        consecutiveFailure := 0;
        if state != Healthy && consecutiveSuccess >= successThreshold {
          state := Healthy;
        }
      } else {
        consecutiveFailure := consecutiveFailure + 1;
        consecutiveSuccess := 0;
        if state != Unhealthy && consecutiveFailure >= failureThreshold {
          state := Unhealthy;
        }
      }
      return from, state, from != state;
    }
  }

  // ---------------------------------------------------------------- what the automaton computes

  function Fold(m: MachineState, xs: seq<bool>): MachineState {
    if xs == [] then m else Fold(m, xs[..|xs| - 1]).Observed(xs[|xs| - 1])
  }

  /** The last n samples all equal v. */
  predicate Suffix(xs: seq<bool>, v: bool, n: nat) {
    n <= |xs| && forall i :: |xs| - n <= i < |xs| ==> xs[i] == v
  }

  /** n is the length of the longest suffix of v's. */
  predicate Streak(xs: seq<bool>, v: bool, n: nat) {
    Suffix(xs, v, n) && (n < |xs| ==> xs[|xs| - n - 1] != v)
  }

  /**
   The run of equal samples ending at position p is long enough to decide: s successes
   or f failures.
   */
  predicate Decides(f: int, s: int, xs: seq<bool>, p: int) {
    && 0 <= p < |xs|
    && var t := if xs[p] then s else f;
       0 <= t <= p + 1 && Suffix(xs[..p + 1], xs[p], t)
  }

  ghost predicate LatestDecision(f: int, s: int, xs: seq<bool>, p: int) {
    Decides(f, s, xs, p) && forall q :: p < q ==> !Decides(f, s, xs, q)
  }

  /** A threshold below one is taken as one. */
  lemma LowThresholdIsOne(f: int, s: int)
    ensures NewMachine(f, s) == NewMachine(if f < 1 then 1 else f, if s < 1 then 1 else s)
  {
  }

  /** The counters are the lengths of the maximal success and failure suffixes. */
  lemma {:induction false} CountersMeaning(f: int, s: int, xs: seq<bool>)
    requires f >= 1 && s >= 1
    ensures
      var m := Fold(NewMachine(f, s), xs);
      && m.failureThreshold == f && m.successThreshold == s && m.samples == |xs|
      && Streak(xs, true, m.consecutiveSuccess) && Streak(xs, false, m.consecutiveFailure)
  {
    if xs != [] {
      CountersMeaning(f, s, xs[..|xs| - 1]);
    }
  }

  /** The last position decides exactly when its streak has reached the threshold. */
  lemma StreakDecides(f: int, s: int, xs: seq<bool>)
    requires f >= 1 && s >= 1 && xs != []
    ensures
      var m := Fold(NewMachine(f, s), xs);
      Decides(f, s, xs, |xs| - 1) <==>
        if xs[|xs| - 1] then m.consecutiveSuccess >= s else m.consecutiveFailure >= f
  {
    CountersMeaning(f, s, xs);
    assert xs[..|xs| - 1 + 1] == xs;
  }

  /** Earlier positions decide the same with or without the last sample. */
  lemma DecidesPrefix(f: int, s: int, xs: seq<bool>, p: int)
    requires xs != [] && p < |xs| - 1
    ensures Decides(f, s, xs, p) <==> Decides(f, s, xs[..|xs| - 1], p)
  {
    if 0 <= p {
      assert xs[..p + 1] == xs[..|xs| - 1][..p + 1];
    }
  }

  lemma BeyondTheEnd(f: int, s: int, xs: seq<bool>)
    ensures forall q :: q < 0 || |xs| <= q ==> !Decides(f, s, xs, q)
  {
  }

  /** The last sample sets the state exactly when its position decides. */
  lemma LastSampleDecides(f: int, s: int, xs: seq<bool>)
    requires f >= 1 && s >= 1 && xs != []
    ensures
      var n := |xs| - 1;
      Fold(NewMachine(f, s), xs).state ==
        if Decides(f, s, xs, n) then (if xs[n] then Healthy else Unhealthy) else Fold(NewMachine(f, s), xs[..n]).state
  {
    hide Decides, Streak;
    StreakDecides(f, s, xs);
    CountersMeaning(f, s, xs[..|xs| - 1]);
  }

  lemma NothingDecides(f: int, s: int, xs: seq<bool>)
    requires xs == []
    ensures Fold(NewMachine(f, s), xs).state == Unknown && forall q :: !Decides(f, s, xs, q)
  {
  }

  /**
   Hysteresis, declaratively: of a machine made for f failures and s successes the
   state is the kind of the latest position at which the run of samples ending there
   had that many, and Unknown exactly when there is no such position.
   */
  lemma {:induction false} HysteresisMeaning(f: int, s: int, xs: seq<bool>) returns (p: int)
    requires f >= 1 && s >= 1
    ensures Fold(NewMachine(f, s), xs).state == Unknown <==> p < 0
    ensures p < 0 ==> forall q :: !Decides(f, s, xs, q)
    ensures p >= 0 ==>
      LatestDecision(f, s, xs, p) && Fold(NewMachine(f, s), xs).state == if xs[p] then Healthy else Unhealthy
  {
    p := -1;
    hide Decides, Fold, NewMachine;
    if xs != [] {
      var n := |xs| - 1;
      p := HysteresisMeaning(f, s, xs[..n]);
      forall q | q < n ensures Decides(f, s, xs, q) <==> Decides(f, s, xs[..n], q) {
        DecidesPrefix(f, s, xs, q);
      }
      LastSampleDecides(f, s, xs);
      if Decides(f, s, xs, n) {
        p := n;
      }
      BeyondTheEnd(f, s, xs);
      BeyondTheEnd(f, s, xs[..n]);
    } else {
      NothingDecides(f, s, xs);
    }
  }

  // ---------------------------------------------------------------- how often it may flap

  /** Moves into state s while folding xs into m. */
  function Moves(m: MachineState, xs: seq<bool>, s: State): nat {
    if xs == [] then 0
    else
      var before, after := Fold(m, xs[..|xs| - 1]).state, Fold(m, xs).state;
      Moves(m, xs[..|xs| - 1], s) + (if before != after && after == s then 1 else 0)
  }

  /** Samples already spent towards the next move. */
  function Pending(m: MachineState): nat {
    (if m.state != Healthy then m.consecutiveSuccess else 0) + (if m.state != Unhealthy then m.consecutiveFailure else 0)
  }

  /** The samples one observation's move has used up. */
  function MoveCost(m: MachineState, success: bool): int {
    var after := m.Observed(success).state;
    if after == m.state then 0 else if after == Healthy then m.successThreshold else m.failureThreshold
  }

  /** Samples cannot end in a success and in a failure. */
  lemma OneStreak(xs: seq<bool>, a: nat, b: nat)
    requires Suffix(xs, true, a) && Suffix(xs, false, b)
    ensures a == 0 || b == 0
  {
    assert a > 0 ==> xs[|xs| - 1];
  }

  lemma ObservationPays(m: MachineState, success: bool)
    requires m.successThreshold >= 1 && m.failureThreshold >= 1
    requires m.consecutiveSuccess == 0 || m.consecutiveFailure == 0
    ensures MoveCost(m, success) + Pending(m.Observed(success)) <= Pending(m) + 1
  {
  }

  /** The last sample pays for the move it makes. */
  lemma LastSamplePays(f: int, s: int, xs: seq<bool>)
    requires f >= 1 && s >= 1 && xs != []
    ensures
      var before, after := Fold(NewMachine(f, s), xs[..|xs| - 1]), Fold(NewMachine(f, s), xs);
      (if before.state == after.state then 0 else if after.state == Healthy then s else f) + Pending(after) <= Pending(before) + 1
  {
    var init, m := xs[..|xs| - 1], Fold(NewMachine(f, s), xs[..|xs| - 1]);
    CountersMeaning(f, s, init);
    OneStreak(init, m.consecutiveSuccess, m.consecutiveFailure);
    ObservationPays(m, xs[|xs| - 1]);
    hide Pending, Streak, NewMachine, MachineState.Observed;
  }

  lemma OneMove(t: int, n: int)
    ensures t * (n + 1) == t * n + t
  {
  }

  /**
   Flap bound: every move has consumed its own threshold's worth of samples, so over n
   samples f x (moves to Unhealthy) + s x (moves to Healthy) never exceeds n.
   */
  lemma {:induction false} FlapBound(f: int, s: int, xs: seq<bool>)
    requires f >= 1 && s >= 1
    ensures f * Moves(NewMachine(f, s), xs, Unhealthy) + s * Moves(NewMachine(f, s), xs, Healthy)
            + Pending(Fold(NewMachine(f, s), xs)) <= |xs|
  {
    var m := NewMachine(f, s);
    if xs != [] {
      hide Pending, Streak, NewMachine, MachineState.Observed;
      var init, x := xs[..|xs| - 1], xs[|xs| - 1];
      FlapBound(f, s, init);
      LastSamplePays(f, s, xs);
      OneMove(f, Moves(m, init, Unhealthy));
      OneMove(s, Moves(m, init, Healthy));
    }
  }
}
