/** One state machine per probe target (internal/agent/probe/manager.go). */
module ProbeManager {
  import opened Ordering
  import opened HealthModel
  import opened Probe

  /** The part of a probe.Spec the manager itself reads. */
  datatype Spec = Spec(scopeKey: Key, scope: ProbeScope, nad: string, target: string)

  /** Later specs for one key replace earlier ones. */
  function Targets(specs: seq<Spec>): map<Key, Spec> {
    if specs == [] then map[]
    else Targets(specs[..|specs| - 1])[specs[|specs| - 1].scopeKey := specs[|specs| - 1]]
  }

  datatype ManagerState = ManagerState(
    failureThreshold: int, successThreshold: int, nodeName: string,
    targets: map<Key, Spec>, machines: map<Key, MachineState>, changed: set<Key>)
  {
    ghost predicate Valid() {
      targets.Keys == machines.Keys && changed <= machines.Keys
    }

    function WithTargets(specs: seq<Spec>): ManagerState {
      var next := Targets(specs);
      this.(
        targets := next,
        machines := map k | k in next :: if k in machines then machines[k] else NewMachine(failureThreshold, successThreshold),
        changed := changed - (machines.Keys - next.Keys))
    }

    /** One probe result folded in; a key dropped while the probe ran is ignored. */
    function WithSample(k: Key, success: bool): ManagerState {
      if k !in machines then this
      else
        var after := machines[k].Observed(success);
        this.(machines := machines[k := after],
              changed := if after.state != machines[k].state then changed + {k} else changed)
    }

    function WithoutChanged(): ManagerState {
      this.(changed := {})
    }

    predicate HasVerdict(k: Key) {
      k in targets && k in machines && machines[k].state != Unknown
    }

    function Verdict(k: Key, now: int): PathHealth
      requires HasVerdict(k)
    {
      var s := targets[k];
      PathHealth(s.scope, k, nodeName, s.nad, s.target, machines[k].state == Healthy, now)
    }
  }

  predicate KeyLess(a: Key, b: Key) {
    StrLess(a.preimage, b.preimage)
  }

  lemma KeyOrder()
    ensures WeakOrder(KeyLess)
  {
    forall x, y | KeyLess(x, y) ensures !KeyLess(y, x) {
      StrLessAsymmetric(x.preimage, y.preimage);
    }
    forall x, y, z | !KeyLess(x, y) && !KeyLess(y, z) ensures !KeyLess(x, z) {
      StrLessNegTransitive(x.preimage, y.preimage, z.preimage);
    }
  }

  lemma SortedKeysIncrease(keys: seq<Key>, sorted: seq<Key>)
    requires forall i, j :: 0 <= i < j < |keys| ==> keys[i] != keys[j]
    requires multiset(keys) == multiset(sorted) && SortedBy(sorted, KeyLess)
    ensures forall k :: k in sorted <==> k in keys
    ensures forall i, j :: 0 <= i < j < |sorted| ==> KeyLess(sorted[i], sorted[j])
  {
    forall k ensures k in sorted <==> k in keys {
      assert k in multiset(keys) <==> k in keys;
      assert k in multiset(sorted) <==> k in sorted;
    }
    DistinctPermutation(keys, sorted);
    forall i, j | 0 <= i < j < |sorted| ensures KeyLess(sorted[i], sorted[j]) {
      StrLessTotal(sorted[i].preimage, sorted[j].preimage);
    }
  }

  /** What is left after the deletions, and a new machine for every other target. */
  lemma KeptAndNew(was: map<Key, MachineState>, next: map<Key, Spec>, new': MachineState)
    ensures (was - (was.Keys - next.Keys)) + (map k | k in next.Keys - was.Keys * next.Keys :: new')
         == map k | k in next :: if k in was then was[k] else new'
  {
  }

  lemma Retargeted(m: ManagerState, specs: seq<Spec>, m': ManagerState)
    requires
      var next, fresh' := Targets(specs), NewMachine(m.failureThreshold, m.successThreshold);
      && m' == m.(targets := next, machines := m'.machines, changed := m.changed - (m.machines.Keys - next.Keys))
      && m'.machines == (m.machines - (m.machines.Keys - next.Keys)) + map k | k in next.Keys - m.machines.Keys * next.Keys :: fresh'
    ensures m' == m.WithTargets(specs)
  {
    hide NewMachine, Targets;
    KeptAndNew(m.machines, Targets(specs), NewMachine(m.failureThreshold, m.successThreshold));
  }

  class Manager {
    const failureThreshold: int
    const successThreshold: int
    const nodeName: string
    var targets: map<Key, Spec>
    var machines: map<Key, Machine>
    var changed: set<Key>

    ghost predicate Valid()
      reads this
    {
      targets.Keys == machines.Keys && changed <= machines.Keys && Unshared()
    }

    function State(): ManagerState
      reads this, machines.Values
    {
      ManagerState(failureThreshold, successThreshold, nodeName, targets, MachineStates(), changed)
    }

    function MachineStates(): map<Key, MachineState>
      reads this`machines, machines.Values
    {
      map k | k in machines :: machines[k].State()
    }

    /** No two keys share a machine. */
    ghost predicate Unshared()
      reads this`machines
    {
      forall j, k :: j in machines && k in machines && j != k ==> machines[j] != machines[k]
    }

    constructor (failureThreshold: int, successThreshold: int, nodeName: string)
      ensures Valid() && State() == ManagerState(failureThreshold, successThreshold, nodeName, map[], map[], {})
      ensures this.failureThreshold == failureThreshold && this.successThreshold == successThreshold
    {
      this.failureThreshold, this.successThreshold, this.nodeName := failureThreshold, successThreshold, nodeName;
      targets, machines, changed := map[], map[], {};
    }

    lemma KeysAgree()
      ensures MachineStates().Keys == machines.Keys
    {
    }

    /** The loop that deletes what is no longer targeted. */
    method Retain(keys: set<Key>)
      requires Valid()
      modifies this`machines, this`changed
      ensures Unshared() && machines.Keys == old(machines.Keys) * keys
      ensures MachineStates() == old(MachineStates()) - (old(machines.Keys) - keys)
      ensures changed == old(changed) - (old(machines.Keys) - keys) && changed <= keys
    {
      hide Machine.State;
      var todo := machines.Keys;
      while todo != {}
        invariant todo <= machines.Keys
        invariant machines == old(machines) - (old(machines.Keys) - todo - keys)
        invariant changed == old(changed) - (old(machines.Keys) - todo - keys)
      {
        var k :| k in todo;
        todo := todo - {k};
        if k !in keys {
          machines, changed := machines - {k}, changed - {k};
        }
      }
    }

    method TargetMap(specs: seq<Spec>) returns (next: map<Key, Spec>)
      ensures next == Targets(specs)
    {
      next := map[];
      for i := 0 to |specs|
        invariant next == Targets(specs[..i])
      {
        assert specs[..i + 1][..i] == specs[..i];
        next := next[specs[i].scopeKey := specs[i]];
      }
      assert specs[..|specs|] == specs;
    }

    method CreateMachines(keys: set<Key>)
      requires keys !! machines.Keys && Unshared()
      modifies this`machines
      ensures Unshared() && machines.Keys == old(machines.Keys) + keys
      ensures MachineStates() == old(MachineStates()) + map k | k in keys :: NewMachine(failureThreshold, successThreshold)
    {
      var todo := keys;
      while todo != {}
        invariant todo <= keys && machines.Keys == old(machines.Keys) + (keys - todo)
        invariant forall k :: k in old(machines) ==> machines[k] == old(machines)[k]
        invariant forall k :: k in keys - todo ==>
          fresh(machines[k]) && machines[k].State() == NewMachine(failureThreshold, successThreshold)
        invariant forall j, k :: j in machines && k in machines && j != k ==> machines[j] != machines[k]
      {
        var k :| k in todo;
        var m := new Machine(failureThreshold, successThreshold);
        machines, todo := machines[k := m], todo - {k};
      }
    }

    /** Installs a new target map: stale machines go, missing ones are made. */
    method Retarget(next: map<Key, Spec>)
      requires Valid()
      modifies this
      ensures Valid() && targets == next
      ensures changed == old(changed) - (old(machines.Keys) - next.Keys) == old(changed) * next.Keys
      ensures MachineStates() == (old(MachineStates()) - (old(machines.Keys) - next.Keys))
                + map k | k in next.Keys - old(machines.Keys) * next.Keys :: NewMachine(failureThreshold, successThreshold)
    {
      hide NewMachine, MachineStates, Unshared;
      Retain(next.Keys);
      CreateMachines(next.Keys - machines.Keys);
      targets := next;
    }

    method SetTargets(specs: seq<Spec>)
      requires Valid()
      modifies this
      ensures Valid() && State() == old(State()).WithTargets(specs)
      ensures changed == old(changed) * targets.Keys
    {
      hide NewMachine, Targets, MachineStates, Valid, ManagerState.WithTargets;
      ghost var was := State();
      KeysAgree();
      var next := TargetMap(specs);
      Retarget(next);
      Retargeted(was, specs, State());
    }

    /** The locked part of round for one probe: fold the result in and note a move. */
    method FoldResult(k: Key, success: bool) returns (moved: bool)
      requires Valid()
      modifies this`changed, machines.Values
      ensures Valid() && machines == old(machines)
      ensures State() == old(State()).WithSample(k, success)
      ensures changed == if moved then old(changed) + {k} else old(changed)
      ensures moved <==> k in machines && machines[k].state != old(if k in machines then machines[k].state else Unknown)
    {
      hide MachineState.Observed, MachineStates, Unshared;
      KeysAgree();
      if k !in machines {
        return false;
      }
      moved := ObserveOne(k, success);
      if moved {
        changed := changed + {k};
      }
    }

    /** The machine of one key takes the result; no other machine is that one. */
    method ObserveOne(k: Key, success: bool) returns (moved: bool)
      requires Unshared() && k in machines
      modifies machines.Values
      ensures k in old(MachineStates()) && MachineStates() == old(MachineStates())[k := old(MachineStates()[k]).Observed(success)]
      ensures moved <==> machines[k].state != old(machines[k].state)
      ensures moved <==> old(MachineStates()[k]).Observed(success).state != old(MachineStates()[k]).state
    {
      hide MachineState.Observed;
      ghost var was := MachineStates();
      var from, to, c := machines[k].Observe(success);
      moved := c;
      assert MachineStates() == was[k := was[k].Observed(success)];
    }

    method TakeChanged() returns (out: set<Key>)
      requires Valid()
      modifies this
      ensures Valid() && State() == old(State()).WithoutChanged() && out == old(changed) && changed == {}
      ensures machines == old(machines)
    {
      out := changed;
      changed := {};
    }

    /** The targets' keys, collected in any order and then sorted. */
    method SortedTargets() returns (sorted: seq<Key>)
      ensures forall k :: k in sorted <==> k in targets
      ensures forall i, j :: 0 <= i < j < |sorted| ==> KeyLess(sorted[i], sorted[j])
    {
      hide KeyLess;
      var keys: seq<Key> := [];
      var todo := targets.Keys;
      while todo != {}
        invariant todo <= targets.Keys
        invariant forall k :: k in keys <==> k in targets && k !in todo
        invariant forall i, j :: 0 <= i < j < |keys| ==> keys[i] != keys[j]
      {
        var k :| k in todo;
        keys, todo := keys + [k], todo - {k};
      }
      KeyOrder();
      sorted := Sort(keys, KeyLess);
      SortedKeysIncrease(keys, sorted);
    }

    /** Every target with a verdict, once, in key order; Unknown is never reported. */
    method States(now: int) returns (out: seq<PathHealth>)
      requires Valid()
      ensures forall p :: p in out <==> State().HasVerdict(p.scopeID) && p == State().Verdict(p.scopeID, now)
      ensures forall p :: p in out <==>
        && p.scopeID in targets && machines[p.scopeID].state != Unknown
        && p == PathHealth(targets[p.scopeID].scope, p.scopeID, nodeName, targets[p.scopeID].nad, targets[p.scopeID].target,
                           machines[p.scopeID].state == Healthy, now)
      ensures forall i, j :: 0 <= i < j < |out| ==> KeyLess(out[i].scopeID, out[j].scopeID)
    {
      hide KeyLess;
      var sorted := SortedTargets();
      out := [];
      for i := 0 to |sorted|
        invariant forall p :: p in out <==>
          p.scopeID in sorted[..i] && State().HasVerdict(p.scopeID) && p == State().Verdict(p.scopeID, now)
        invariant forall a, b :: 0 <= a < b < |out| ==> KeyLess(out[a].scopeID, out[b].scopeID)
      {
        var k := sorted[i];
        assert sorted[..i + 1] == sorted[..i] + [k];
        if machines[k].state != Unknown {
          forall a | 0 <= a < |out| ensures KeyLess(out[a].scopeID, k) {
            assert out[a] in out;
          }
          var s := targets[k];
          out := out + [PathHealth(s.scope, k, nodeName, s.nad, s.target, machines[k].state == Healthy, now)];
        }
      }
    }
  }
}
