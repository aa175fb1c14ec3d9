/** The probe manager over whole runs: any interleaving of retargeting, results and reads. */
module ProbeRuns {
  import opened HealthModel
  import opened Probe
  import opened ProbeManager

  datatype Event = SetTargets(specs: seq<Spec>) | Sample(key: Key, success: bool) | TakeChanged

  function Step(m: ManagerState, e: Event): ManagerState {
    match e
    case SetTargets(specs) => m.WithTargets(specs)
    case Sample(k, success) => m.WithSample(k, success)
    case TakeChanged => m.WithoutChanged()
  }

  function Run(m: ManagerState, es: seq<Event>): ManagerState {
    if es == [] then m else Step(Run(m, es[..|es| - 1]), es[|es| - 1])
  }

  predicate Names(specs: seq<Spec>, k: Key) {
    exists i :: 0 <= i < |specs| && specs[i].scopeKey == k
  }

  /** After es, is k a target? The last SetTargets says so. */
  predicate Tracked(es: seq<Event>, k: Key) {
    if es == [] then false
    else
      match es[|es| - 1]
      case SetTargets(specs) => Names(specs, k)
      case _ => Tracked(es[..|es| - 1], k)
  }

  /** The results folded in since k last became a target; results for an absent key are lost. */
  function SamplesSince(es: seq<Event>, k: Key): seq<bool> {
    if es == [] then []
    else
      var init := es[..|es| - 1];
      match es[|es| - 1]
      case SetTargets(specs) => if Names(specs, k) && Tracked(init, k) then SamplesSince(init, k) else []
      case Sample(j, success) => if j == k && Tracked(init, k) then SamplesSince(init, k) + [success] else SamplesSince(init, k)
      case TakeChanged => SamplesSince(init, k)
  }

  /** The targets are the specs named, each key with its last spec. */
  lemma {:induction false} TargetsNamed(specs: seq<Spec>, k: Key)
    ensures k in Targets(specs) <==> Names(specs, k)
    ensures k in Targets(specs) ==>
      exists i :: 0 <= i < |specs| && specs[i] == Targets(specs)[k] && specs[i].scopeKey == k
                  && forall j :: i < j < |specs| ==> specs[j].scopeKey != k
  {
    if specs != [] {
      var init := specs[..|specs| - 1];
      TargetsNamed(init, k);
      if Names(init, k) {
        var i :| 0 <= i < |init| && init[i].scopeKey == k;
        assert specs[i].scopeKey == k;
      }
      if Names(specs, k) && specs[|specs| - 1].scopeKey != k {
        var i :| 0 <= i < |specs| && specs[i].scopeKey == k;
        assert init[i].scopeKey == k;
        var l :| 0 <= l < |init| && init[l] == Targets(init)[k] && init[l].scopeKey == k
                 && forall j :: l < j < |init| ==> init[j].scopeKey != k;
        assert specs[l] == Targets(specs)[k];
        forall j | l < j < |specs| ensures specs[j].scopeKey != k {
          assert j < |init| ==> init[j].scopeKey != k;
        }
      }
      if specs[|specs| - 1].scopeKey == k {
        assert Names(specs, k);
        assert specs[|specs| - 1] == Targets(specs)[k];
      }
    }
  }

  predicate Fresh(m: ManagerState) {
    m.targets == map[] && m.machines == map[] && m.changed == {}
  }

  /**
   In every interleaving, targets and machines have the keys of the last SetTargets,
   changed names only those, and each machine is exactly the debouncing of the results
   folded in since its key was last added.
   */
  lemma {:induction false} MachinesMeaning(m: ManagerState, es: seq<Event>, k: Key)
    requires Fresh(m)
    ensures
      var m' := Run(m, es);
      && (k in m'.targets <==> Tracked(es, k)) && (k in m'.machines <==> Tracked(es, k))
      && (k in m'.changed ==> Tracked(es, k))
      && (Tracked(es, k) ==>
            m'.machines[k] == Fold(NewMachine(m.failureThreshold, m.successThreshold), SamplesSince(es, k)))
      && (!Tracked(es, k) ==> SamplesSince(es, k) == [])
      && m'.failureThreshold == m.failureThreshold && m'.successThreshold == m.successThreshold
  {
    if es != [] {
      var init, e := es[..|es| - 1], es[|es| - 1];
      MachinesMeaning(m, init, k);
      match e {
        case SetTargets(specs) => TargetsNamed(specs, k);
        case Sample(j, success) =>
          if j == k && Tracked(init, k) {
            assert SamplesSince(es, k)[..|SamplesSince(es, k)| - 1] == SamplesSince(init, k);
          }
        case TakeChanged =>
      }
      hide Targets, Names, NewMachine;
    }
  }

  /**
   A manager made for f failures and s successes reports of each target the verdict the
   results since it last became one amount to: the kind of the latest run of f failures
   or s successes, and nothing when there was no such run.
   */
  lemma VerdictMeaning(m: ManagerState, es: seq<Event>, k: Key) returns (p: int)
    requires Fresh(m)
    ensures
      var f, s := if m.failureThreshold < 1 then 1 else m.failureThreshold, if m.successThreshold < 1 then 1 else m.successThreshold;
      var xs := SamplesSince(es, k);
      && (Run(m, es).HasVerdict(k) <==> Tracked(es, k) && p >= 0)
      && (p < 0 ==> forall q :: !Decides(f, s, xs, q))
      && (p >= 0 ==> LatestDecision(f, s, xs, p)
                     && (Tracked(es, k) ==> Run(m, es).machines[k].state == if xs[p] then Healthy else Unhealthy))
  {
    var f, s := if m.failureThreshold < 1 then 1 else m.failureThreshold, if m.successThreshold < 1 then 1 else m.successThreshold;
    MachinesMeaning(m, es, k);
    LowThresholdIsOne(m.failureThreshold, m.successThreshold);
    hide NewMachine, Fold, Decides;
    p := HysteresisMeaning(f, s, SamplesSince(es, k));
  }

  predicate NoTake(es: seq<Event>) {
    forall i :: 0 <= i < |es| ==> !es[i].TakeChanged?
  }

  lemma StepKeepsVerdict(m: ManagerState, e: Event, k: Key)
    requires m.Valid() && !e.TakeChanged?
    ensures
      var m' := Step(m, e);
      && m'.Valid()
      && (m'.HasVerdict(k) && k !in m'.changed ==>
            m.HasVerdict(k) && k !in m.changed && m'.machines[k].state == m.machines[k].state)
  {
    hide MachineState.Observed, Targets;
  }

  /**
   What TakeChanged does not name need not be sent again: between two reads, a key
   with a verdict that is not in changed had that same verdict all along.
   */
  lemma {:induction false} UnchangedIsUnmoved(m: ManagerState, es: seq<Event>, k: Key)
    requires m.Valid() && m.changed == {} && NoTake(es)
    ensures
      var m' := Run(m, es);
      && m'.Valid()
      && (m'.HasVerdict(k) && k !in m'.changed ==> m.HasVerdict(k) && m'.machines[k].state == m.machines[k].state)
  {
    if es != [] {
      var init, e := es[..|es| - 1], es[|es| - 1];
      UnchangedIsUnmoved(m, init, k);
      StepKeepsVerdict(Run(m, init), e, k);
    }
  }
}
