/**
 applySlices against an API server (internal/controller/endpointslice.go). The server
 holds one namespace's slices by name, may fill in fields nobody manages, and may fail
 any call; nobody else writes while applySlices runs.
 */
module Reconcile {
  import opened Ordering
  import opened HealthModel
  import opened Readiness
  import opened Slices
  import opened Desired
  import opened Diff

  type Objects = map<string, Slice>

  datatype Verb = Create | Update | Delete | NoChange

  datatype SliceOp = SliceOp(name: string, verb: Verb, ready: nat, total: nat)

  datatype Reply = Done | AlreadyExists | NotFound | Failed

  predicate Labelled(m: map<string, string>, k: string, v: string) {
    k in m && m[k] == v
  }

  /** The label selector the controller lists its own slices by. */
  predicate Owned(s: Slice, svc: string) {
    Labelled(s.labels, SERVICE_NAME, svc) && Labelled(s.labels, MANAGED_BY_LABEL, MANAGED_BY)
  }

  predicate OwnsSlice(objs: Objects, svc: string, n: string) {
    n in objs && Owned(objs[n], svc)
  }

  ghost predicate Includes(m': map<string, string>, m: map<string, string>) {
    forall k :: k in m ==> k in m' && m'[k] == m[k]
  }

  /** Admission may default what the controller does not manage, and nothing else. */
  ghost predicate Faithful(admit: Slice -> Slice) {
    forall s ::
      && admit(s).name == s.name && admit(s).namespace == s.namespace && admit(s).owners == s.owners
      && SaysTheSame(admit(s), s) && Includes(admit(s).labels, s.labels) && Includes(admit(s).annotations, s.annotations)
  }

  /** The update sent for an existing slice. */
  function Merged(cur: Slice, w: Slice): Slice {
    cur.(addressType := w.addressType, ports := w.ports, endpoints := w.endpoints,
         labels := cur.labels + w.labels, annotations := cur.annotations + w.annotations, owners := w.owners)
  }

  /** What others wrote under keys nobody wants is still there. */
  ghost predicate KeepsForeign(m: map<string, string>, m': map<string, string>, wanted: map<string, string>) {
    forall k :: k in m && k !in wanted ==> k in m' && m'[k] == m[k]
  }

  lemma PairedAlike(have: Slice, m: Slice, w: Slice)
    requires m.endpoints == w.endpoints && m.ports == w.ports
    ensures forall p :: EndpointsPaired(have, m, p) <==> EndpointsPaired(have, w, p)
    ensures forall q :: PortsPaired(have, m, q) <==> PortsPaired(have, w, q)
  {
    hide SameEndpoint, SamePort;
  }

  /**
   What an update leaves: the slice keeps its name and namespace and what others wrote
   into its labels and annotations; everything else wanted is there.
   */
  lemma UpdateMeaning(cur: Slice, w: Slice, admit: Slice -> Slice)
    requires Faithful(admit)
    ensures
      var u := admit(Merged(cur, w));
      && u.name == cur.name && u.namespace == cur.namespace && u.owners == w.owners && u.addressType == w.addressType
      && Includes(u.labels, w.labels) && KeepsForeign(cur.labels, u.labels, w.labels)
      && Includes(u.annotations, w.annotations) && KeepsForeign(cur.annotations, u.annotations, w.annotations)
      && (exists p :: EndpointsPaired(u, w, p)) && (exists q :: PortsPaired(u, w, q))
  {
    hide SameEndpoint, SamePort;
    var m := Merged(cur, w);
    assert SaysTheSame(admit(m), m) && Includes(admit(m).labels, m.labels) && Includes(admit(m).annotations, m.annotations);
    PairedAlike(admit(m), m, w);
  }

  class ApiServer {
    const admit: Slice -> Slice
    const healthy: nat -> bool   // does the i-th call get through?
    var calls: nat
    var objects: Objects

    ghost predicate Valid()
      reads this
    {
      Faithful(admit) && forall n :: n in objects ==> objects[n].name == n
    }

    constructor (admit: Slice -> Slice, healthy: nat -> bool, objects: Objects)
      requires Faithful(admit) && forall n :: n in objects ==> objects[n].name == n
      ensures Valid() && this.objects == objects && this.admit == admit && this.healthy == healthy && calls == 0
    {
      this.admit, this.healthy, this.objects, calls := admit, healthy, objects, 0;
    }

    method Attempt() returns (ok: bool)
      modifies this`calls
      ensures ok == healthy(old(calls))
    {
      ok := healthy(calls);
      calls := calls + 1;
    }

    method List(svc: string) returns (ok: bool, items: seq<Slice>)
      requires Valid()
      modifies this`calls
      ensures Valid() && ok == healthy(old(calls))
      ensures ok ==> forall s :: s in items <==> OwnsSlice(objects, svc, s.name) && s == objects[s.name]
    {
      items := [];
      ok := Attempt();
      var todo := objects.Keys;
      while todo != {}
        invariant todo <= objects.Keys
        invariant forall s :: s in items <==> s.name !in todo && OwnsSlice(objects, svc, s.name) && s == objects[s.name]
      {
        var n :| n in todo;
        todo := todo - {n};
        if Owned(objects[n], svc) {
          items := items + [objects[n]];
        }
      }
    }

    method Create(s: Slice) returns (r: Reply)
      requires Valid()
      modifies this
      ensures Valid()
      ensures r == if !healthy(old(calls)) then Failed else if s.name in old(objects) then AlreadyExists else Done
      ensures objects == if r == Done then old(objects)[s.name := admit(s)] else old(objects)
    {
      var ok := Attempt();
      if !ok {
        return Failed;
      }
      if s.name in objects {
        return AlreadyExists;
      }
      objects := objects[s.name := admit(s)];
      return Done;
    }

    method Update(s: Slice) returns (r: Reply)
      requires Valid()
      modifies this
      ensures Valid()
      ensures r == if !healthy(old(calls)) then Failed else if s.name !in old(objects) then NotFound else Done
      ensures objects == if r == Done then old(objects)[s.name := admit(s)] else old(objects)
    {
      var ok := Attempt();
      if !ok {
        return Failed;
      }
      if s.name !in objects {
        return NotFound;
      }
      objects := objects[s.name := admit(s)];
      return Done;
    }

    method Delete(n: string) returns (r: Reply)
      requires Valid()
      modifies this
      ensures Valid()
      ensures r == if !healthy(old(calls)) then Failed else if n !in old(objects) then NotFound else Done
      ensures objects == if r == Done then old(objects) - {n} else old(objects)
    {
      var ok := Attempt();
      if !ok {
        return Failed;
      }
      if n !in objects {
        return NotFound;
      }
      objects := objects - {n};
      return Done;
    }
  }

  // ---------------------------------------------------------------- what a run leaves behind

  predicate SameAt(before: Objects, after: Objects, n: string) {
    (n in after <==> n in before) && (n in before ==> after[n] == before[n])
  }

  /** What a wanted or stale name comes to; every other name is left alone. */
  ghost predicate Settled(before: Objects, after: Objects, svc: string, want: Objects, admit: Slice -> Slice, n: string) {
    if n in want then
      if OwnsSlice(before, svc, n) then
        n in after
        && ((after[n] == before[n] && SaysTheSame(before[n], want[n])) || after[n] == admit(Merged(before[n], want[n])))
      else if n in before then SameAt(before, after, n)
      else n in after && after[n] == admit(want[n])
    else if OwnsSlice(before, svc, n) then n !in after
    else SameAt(before, after, n)
  }

  function CountReady(es: seq<SliceEndpoint>): nat {
    if es == [] then 0 else CountReady(es[..|es| - 1]) + if es[|es| - 1].ready.GetOr(false) then 1 else 0
  }

  /** A log entry counts the ready and all the endpoints of the slice wanted under its name, none for a deletion. */
  ghost predicate Counted(op: SliceOp, want: Objects) {
    var es := if op.name in want then want[op.name].endpoints else [];
    op.ready == CountReady(es) && op.total == |es|
  }

  /** An entry of the log tells the truth about its name. */
  ghost predicate Truthful(op: SliceOp, before: Objects, after: Objects, svc: string, want: Objects, admit: Slice -> Slice) {
    Counted(op, want) && match op.verb
    case Create =>   // also logged, as the source does, when someone else's slice already holds the name
      && op.name in want && !OwnsSlice(before, svc, op.name)
      && if op.name in before then SameAt(before, after, op.name)
         else op.name in after && after[op.name] == admit(want[op.name])
    case NoChange =>
      op.name in want && OwnsSlice(before, svc, op.name) && SaysTheSame(before[op.name], want[op.name]) && SameAt(before, after, op.name)
    case Update =>
      && op.name in want && OwnsSlice(before, svc, op.name)
      && !(Separable(want[op.name]) && SaysTheSame(before[op.name], want[op.name]))
      && op.name in after && after[op.name] == admit(Merged(before[op.name], want[op.name]))
    case Delete => op.name !in want && OwnsSlice(before, svc, op.name) && op.name !in after
  }

  method ReadyCount(es: seq<SliceEndpoint>) returns (ready: nat)
    ensures ready == CountReady(es)
    ensures ready == |set i | 0 <= i < |es| && es[i].ready == Some(true)|
  {
    ready := 0;
    ghost var at: set<int> := {};
    for i := 0 to |es|
      invariant ready == CountReady(es[..i])
      invariant at == set k | 0 <= k < i && es[k].ready == Some(true)
      invariant ready == |at|
    {
      assert es[..i + 1][..i] == es[..i];
      at := at + if es[i].ready == Some(true) then {i} else {};
      if es[i].ready.GetOr(false) {
        ready := ready + 1;
      }
    }
    assert es[..|es|] == es;
  }

  /** The names there is something to do about. */
  ghost function Due(before: Objects, svc: string, want: Objects): set<string> {
    want.Keys + set n | n in before && Owned(before[n], svc)
  }

  /** The order of the log: wanted names first, then stale ones, each group by name. */
  predicate Before(want: Objects, a: string, b: string) {
    if a in want then b !in want || StrLess(a, b) else b !in want && StrLess(a, b)
  }

  /** The names done are settled and logged, once each and truthfully; nothing else has moved. */
  ghost predicate Progress(before: Objects, now: Objects, svc: string, want: Objects, admit: Slice -> Slice,
                           done: set<string>, ops: seq<SliceOp>) {
    && (forall n :: n in done ==> Settled(before, now, svc, want, admit, n))
    && (forall n :: n !in done ==> SameAt(before, now, n))
    && (forall op :: op in ops ==> op.name in done && Truthful(op, before, now, svc, want, admit))
    && (forall n :: n in done ==> exists op :: op in ops && op.name == n)
    && (forall i, j :: 0 <= i < j < |ops| ==> ops[i].name != ops[j].name && Before(want, ops[i].name, ops[j].name))
  }

  /** One name handled: settled and truthfully logged, the others left alone. */
  ghost predicate Handled(mid: Objects, now: Objects, svc: string, want: Objects, admit: Slice -> Slice, op: SliceOp) {
    && Settled(mid, now, svc, want, admit, op.name)
    && Truthful(op, mid, now, svc, want, admit)
    && forall n :: n != op.name ==> SameAt(mid, now, n)
  }

  /** What was settled and logged truthfully stays so while its name is left alone. */
  lemma StaysSettled(before: Objects, mid: Objects, now: Objects, svc: string, want: Objects, admit: Slice -> Slice, n: string)
    requires SameAt(mid, now, n)
    ensures Settled(before, mid, svc, want, admit, n) ==> Settled(before, now, svc, want, admit, n)
    ensures SameAt(before, mid, n) ==> SameAt(before, now, n)
    ensures forall op: SliceOp :: op.name == n && Truthful(op, before, mid, svc, want, admit) ==>
      Truthful(op, before, now, svc, want, admit)
  {
    hide SaysTheSame, Separable, Merged, Owned, Counted;
  }

  lemma HandledSettles(before: Objects, mid: Objects, now: Objects, svc: string, want: Objects, admit: Slice -> Slice, op: SliceOp)
    requires SameAt(before, mid, op.name) && Handled(mid, now, svc, want, admit, op)
    ensures Settled(before, now, svc, want, admit, op.name) && Truthful(op, before, now, svc, want, admit)
  {
    hide SaysTheSame, Separable, Merged, Owned, Counted;
  }

  lemma HandledLeaves(mid: Objects, now: Objects, svc: string, want: Objects, admit: Slice -> Slice, op: SliceOp, n: string)
    requires Handled(mid, now, svc, want, admit, op) && n != op.name
    ensures SameAt(mid, now, n)
  {
  }

  lemma ProgressMore(before: Objects, mid: Objects, now: Objects, svc: string, want: Objects, admit: Slice -> Slice,
                     done: set<string>, ops: seq<SliceOp>, op: SliceOp)
    requires Progress(before, mid, svc, want, admit, done, ops)
    requires op.name !in done && Handled(mid, now, svc, want, admit, op)
    requires forall n :: n in done ==> Before(want, n, op.name)
    ensures Progress(before, now, svc, want, admit, done + {op.name}, ops + [op])
  {
    hide Settled, Truthful, Handled, SameAt, Before;
    var done', ops' := done + {op.name}, ops + [op];
    HandledSettles(before, mid, now, svc, want, admit, op);
    forall n | n != op.name
      ensures n in done ==> Settled(before, now, svc, want, admit, n)
      ensures n !in done ==> SameAt(before, now, n)
      ensures forall o :: o in ops && o.name == n ==> Truthful(o, before, now, svc, want, admit)
    {
      HandledLeaves(mid, now, svc, want, admit, op, n);
      StaysSettled(before, mid, now, svc, want, admit, n);
    }
    forall n | n in done' ensures exists o :: o in ops' && o.name == n {
      if n == op.name {
        assert op in ops';
      } else {
        var o :| o in ops && o.name == n;
        assert o in ops';
      }
    }
    forall i | 0 <= i < |ops| ensures ops[i].name != op.name && Before(want, ops[i].name, op.name) {
      assert ops[i] in ops;
    }
  }

  lemma ProgressLeaves(before: Objects, now: Objects, svc: string, want: Objects, admit: Slice -> Slice,
                       done: set<string>, ops: seq<SliceOp>, n: string)
    requires Progress(before, now, svc, want, admit, done, ops) && n !in done
    ensures SameAt(before, now, n)
  {
  }

  lemma MergedKeepsName(cur: Slice, w: Slice)
    ensures Merged(cur, w).name == cur.name
  {
  }

  lemma CreateHandled(mid: Objects, now: Objects, svc: string, want: Objects, admit: Slice -> Slice, op: SliceOp)
    requires op.name in want && Counted(op, want) && op.verb == Create && !OwnsSlice(mid, svc, op.name)
    requires now == if op.name in mid then mid else mid[op.name := admit(want[op.name])]
    ensures Handled(mid, now, svc, want, admit, op)
  {
    hide Owned, Counted;
  }

  lemma NoChangeHandled(objs: Objects, svc: string, want: Objects, admit: Slice -> Slice, op: SliceOp)
    requires op.name in want && Counted(op, want) && op.verb == NoChange && OwnsSlice(objs, svc, op.name)
    requires SaysTheSame(objs[op.name], want[op.name])
    ensures Handled(objs, objs, svc, want, admit, op)
  {
    hide Owned, Counted, SaysTheSame;
  }

  lemma UpdateHandled(mid: Objects, now: Objects, svc: string, want: Objects, admit: Slice -> Slice, op: SliceOp)
    requires op.name in want && Counted(op, want) && op.verb == Update && OwnsSlice(mid, svc, op.name)
    requires !(Separable(want[op.name]) && SaysTheSame(mid[op.name], want[op.name]))
    requires now == mid[op.name := admit(Merged(mid[op.name], want[op.name]))]
    ensures Handled(mid, now, svc, want, admit, op)
  {
    hide Owned, Counted, SaysTheSame, Separable, Merged;
  }

  /** One round of the loop over wanted names. */
  method ApplyWanted(api: ApiServer, svc: string, want: Objects, name: string, have: Objects) returns (op: SliceOp, ok: bool)
    requires api.Valid() && name in want && want[name].name == name
    requires name in have <==> OwnsSlice(api.objects, svc, name)
    requires name in have ==> have[name] == api.objects[name]
    modifies api
    ensures api.Valid()
    ensures ok ==> op.name == name && Handled(old(api.objects), api.objects, svc, want, api.admit, op)
    ensures !ok ==> api.objects == old(api.objects)
    ensures (forall i :: api.healthy(i)) ==> ok
  {
    hide SaysTheSame, Separable, Owned, Faithful, Merged, CountReady, Handled;
    ghost var mid := api.objects;
    var w := want[name];
    var ready := ReadyCount(w.endpoints);
    ok := true;
    if name !in have {
      var r := api.Create(w);
      ok := r != Failed;
      op := SliceOp(name, Create, ready, |w.endpoints|);
      if ok {
        CreateHandled(mid, api.objects, svc, want, api.admit, op);
      }
      return;
    }
    var cur := have[name];
    var same := SliceUpToDate(cur, w);
    if same {
      op := SliceOp(name, NoChange, ready, |w.endpoints|);
      NoChangeHandled(mid, svc, want, api.admit, op);
      return;
    }
    MergedKeepsName(cur, w);
    var r := api.Update(Merged(cur, w));
    ok := r == Done;
    op := SliceOp(name, Update, ready, |w.endpoints|);
    if ok {
      UpdateHandled(mid, api.objects, svc, want, api.admit, op);
    }
  }

  /** One round of the loop over stale names. */
  method ApplyStale(api: ApiServer, svc: string, want: Objects, name: string) returns (op: SliceOp, ok: bool)
    requires api.Valid() && name !in want && OwnsSlice(api.objects, svc, name)
    modifies api
    ensures api.Valid()
    ensures ok ==> op.name == name && Handled(old(api.objects), api.objects, svc, want, api.admit, op)
    ensures !ok ==> api.objects == old(api.objects)
    ensures (forall i :: api.healthy(i)) ==> ok
  {
    var r := api.Delete(name);
    ok := r != Failed;
    op := SliceOp(name, Delete, 0, 0);
  }

  method ByName(items: seq<Slice>) returns (have: Objects)
    requires forall s, t :: s in items && t in items && s.name == t.name ==> s == t
    ensures forall s :: s in items ==> s.name in have && have[s.name] == s
    ensures forall n :: n in have ==> have[n] in items && have[n].name == n
  {
    have := map[];
    for i := 0 to |items|
      invariant forall s :: s in items[..i] ==> s.name in have && have[s.name] == s
      invariant forall n :: n in have ==> have[n] in items[..i] && have[n].name == n
    {
      assert items[i] in items;
      have := have[items[i].name := items[i]];
    }
    assert items[..|items|] == items;
  }

  ghost predicate Rising(names: seq<string>) {
    forall i, j :: 0 <= i < j < |names| ==> StrLess(names[i], names[j]) && names[i] != names[j]
  }

  ghost function Members(names: seq<string>): set<string> {
    set n | n in names
  }

  lemma EarlierComesBefore(want: Objects, names: seq<string>, i: int)
    requires Rising(names) && 0 <= i < |names| && forall n :: n in names ==> n in want
    ensures names[i] in want && names[i] !in Members(names[..i])
    ensures forall n :: n in Members(names[..i]) ==> Before(want, n, names[i])
    ensures Members(names[..i + 1]) == Members(names[..i]) + {names[i]}
  {
    hide StrLess;
    assert names[..i + 1] == names[..i] + [names[i]];
  }

  method ApplyAllWanted(api: ApiServer, svc: string, want: Objects, names: seq<string>, have: Objects)
    returns (ops: seq<SliceOp>, err: bool, ghost done: set<string>)
    requires api.Valid() && Rising(names)
    requires forall n :: n in names ==> n in want && want[n].name == n
    requires forall n :: n in have <==> OwnsSlice(api.objects, svc, n)
    requires forall n :: n in have ==> n in api.objects && have[n] == api.objects[n]
    modifies api
    ensures api.Valid()
    ensures Progress(old(api.objects), api.objects, svc, want, api.admit, done, ops)
    ensures done <= Members(names) && (!err ==> done == Members(names))
    ensures (forall i :: api.healthy(i)) ==> !err
  {
    ops, done := [], {};
    ghost var before := api.objects;
    assert Progress(before, api.objects, svc, want, api.admit, done, ops);
    assert names[..0] == [];
    hide Progress, Handled, Owned, Faithful, Before, Members, Rising;
    for i := 0 to |names|
      invariant api.Valid()
      invariant done == Members(names[..i])
      invariant Progress(before, api.objects, svc, want, api.admit, done, ops)
    {
      ghost var mid := api.objects;
      ProgressLeaves(before, mid, svc, want, api.admit, done, ops, names[i]);
      EarlierComesBefore(want, names, i);
      var op, ok := ApplyWanted(api, svc, want, names[i], have);
      if !ok {
        return ops, true, done;
      }
      ProgressMore(before, mid, api.objects, svc, want, api.admit, done, ops, op);
      ops, done := ops + [op], done + {names[i]};
    }
    assert names[..|names|] == names;
    err := false;
  }

  method ApplyAllStale(api: ApiServer, svc: string, want: Objects, names: seq<string>,
                       ghost before: Objects, ops0: seq<SliceOp>, ghost done0: set<string>)
    returns (ops: seq<SliceOp>, err: bool, ghost done: set<string>)
    requires api.Valid() && Rising(names) && done0 !! Members(names)
    requires Progress(before, api.objects, svc, want, api.admit, done0, ops0)
    requires forall n :: n in names ==> n !in want && OwnsSlice(before, svc, n)
    requires done0 <= want.Keys
    modifies api
    ensures api.Valid()
    ensures Progress(before, api.objects, svc, want, api.admit, done, ops)
    ensures done <= done0 + Members(names) && (!err ==> done == done0 + Members(names))
    ensures (forall i :: api.healthy(i)) ==> !err
  {
    ops, done := ops0, done0;
    hide Progress, Handled, Owned, Faithful, StrLess;
    for i := 0 to |names|
      invariant api.Valid()
      invariant done == done0 + Members(names[..i])
      invariant Progress(before, api.objects, svc, want, api.admit, done, ops)
    {
      ghost var mid := api.objects;
      assert names[i] in Members(names);
      ProgressLeaves(before, mid, svc, want, api.admit, done, ops, names[i]);
      var op, ok := ApplyStale(api, svc, want, names[i]);
      if !ok {
        return ops, true, done;
      }
      ProgressMore(before, mid, api.objects, svc, want, api.admit, done, ops, op);
      ops, done := ops + [op], done + {names[i]};
    }
    assert names[..|names|] == names;
    err := false;
  }

  /** The labels name this Service and this controller. */
  predicate Ours(s: Slice, svc: string) {
    && "kubernetes.io/service-name" in s.labels && s.labels["kubernetes.io/service-name"] == svc
    && "endpointslice.kubernetes.io/managed-by" in s.labels
    && s.labels["endpointslice.kubernetes.io/managed-by"] == "secondary-service.boanlab.io"
  }

  /** However far a run got, what is not ours is as it was. */
  lemma OthersLeftAlone(before: Objects, now: Objects, svc: string, want: Objects, admit: Slice -> Slice,
                        done: set<string>, ops: seq<SliceOp>)
    requires Progress(before, now, svc, want, admit, done, ops)
    ensures forall n :: n in before && !Ours(before[n], svc) ==> n in now && now[n] == before[n]
  {
    hide Truthful, Merged, SaysTheSame, Before;
    forall n | n in before && !Ours(before[n], svc) ensures SameAt(before, now, n) {
      assert n in done ==> Settled(before, now, svc, want, admit, n);
    }
  }

  /**
   applySlices. Names are done one at a time, wanted ones first, each group in order;
   an error stops the run with the rest untouched. Slices the controller does not own
   are never changed.
   */
  method ApplySlices(api: ApiServer, svc: string, want: Objects) returns (ops: seq<SliceOp>, err: bool, ghost done: set<string>)
    requires api.Valid()
    requires forall n :: n in want ==> want[n].name == n
    modifies api
    ensures api.Valid()
    ensures Progress(old(api.objects), api.objects, svc, want, api.admit, done, ops)
    ensures done <= Due(old(api.objects), svc, want)
    ensures !err ==> done == Due(old(api.objects), svc, want)
    ensures (forall i :: api.healthy(i)) ==> !err
    ensures forall n :: n in old(api.objects) && !Ours(old(api.objects)[n], svc) ==>
      n in api.objects && api.objects[n] == old(api.objects)[n]
  {
    ops, done := [], {};
    ghost var before := api.objects;
    assert Progress(before, before, svc, want, api.admit, done, ops);
    hide Progress, Owned, Faithful;
    var listed, items := api.List(svc);
    if !listed {
      return ops, true, done;
    }
    var have := ByName(items);
    assert forall n :: n in have <==> OwnsSlice(before, svc, n) by {
      assert forall n :: OwnsSlice(before, svc, n) ==> before[n] in items;
    }
    var names := SortedKeys(want);
    ops, err, done := ApplyAllWanted(api, svc, want, names, have);
    if err {
      OthersLeftAlone(before, api.objects, svc, want, api.admit, done, ops);
      return;
    }
    var stale := SortedKeys(have - want.Keys);
    ops, err, done := ApplyAllStale(api, svc, want, stale, before, ops, done);
    OthersLeftAlone(before, api.objects, svc, want, api.admit, done, ops);
  }

  // ---------------------------------------------------------------- convergence

  /** What desiredSlices hands over: slices labelled as this Service's, under their own names. */
  ghost predicate WellFormed(svc: string, want: Objects) {
    forall n :: n in want ==> want[n].name == n && Owned(want[n], svc) && NETWORK_ANNOTATION in want[n].annotations
  }

  /** No slice of someone else's holds a wanted name. */
  ghost predicate Unobstructed(before: Objects, svc: string, want: Objects) {
    forall n :: n in want && n in before ==> Owned(before[n], svc)
  }

  lemma MergedAgrees(cur: Slice, w: Slice, admit: Slice -> Slice, svc: string)
    requires Faithful(admit) && Owned(w, svc) && NETWORK_ANNOTATION in w.annotations
    ensures Owned(admit(Merged(cur, w)), svc) && SaysTheSame(admit(Merged(cur, w)), w)
    ensures Owned(admit(w), svc) && SaysTheSame(admit(w), w)
  {
    var m := Merged(cur, w);
    assert Includes(admit(m).labels, m.labels) && SaysTheSame(admit(m), m);
    assert Includes(admit(w).labels, w.labels);
    PairedAlike(admit(m), m, w);
  }

  lemma WantedSettles(before: Objects, after: Objects, svc: string, want: Objects, admit: Slice -> Slice, n: string)
    requires Faithful(admit) && WellFormed(svc, want) && n in want && (n in before ==> Ours(before[n], svc))
    requires Settled(before, after, svc, want, admit, n)
    ensures n in after && Ours(after[n], svc) && SaysTheSame(after[n], want[n])
    ensures n in before ==>
      && KeepsForeign(before[n].labels, after[n].labels, want[n].labels)
      && KeepsForeign(before[n].annotations, after[n].annotations, want[n].annotations)
  {
    var cur := if n in before then before[n] else want[n];
    MergedAgrees(cur, want[n], admit, svc);
    UpdateMeaning(cur, want[n], admit);
    hide SaysTheSame, Merged, Faithful, Includes, EndpointsPaired, PortsPaired;
  }

  lemma OwnedIsOurs()
    ensures forall s: Slice, svc: string :: Owned(s, svc) <==> Ours(s, svc)
  {
  }

  /**
   A run that meets no error leaves exactly the wanted names ours if and only if no one
   else's slice holds one of them. Every wanted name not so held is then a slice that
   says what is wanted, with what others wrote into it; stale slices are gone; slices of
   others are as they were.
   */
  lemma Converges(before: Objects, after: Objects, svc: string, want: Objects, admit: Slice -> Slice, ops: seq<SliceOp>)
    requires Faithful(admit) && WellFormed(svc, want)
    requires Progress(before, after, svc, want, admit, Due(before, svc, want), ops)
    ensures (forall n :: n in after && Ours(after[n], svc) <==> n in want) <==> Unobstructed(before, svc, want)
    ensures forall n :: n in want && (n in before ==> Ours(before[n], svc)) ==>
      n in after && Ours(after[n], svc) && SaysTheSame(after[n], want[n])
    ensures forall n :: n in want && n in before && Ours(before[n], svc) ==>
      && n in after
      && KeepsForeign(before[n].labels, after[n].labels, want[n].labels)
      && KeepsForeign(before[n].annotations, after[n].annotations, want[n].annotations)
    ensures forall n :: n !in want && n in before && Ours(before[n], svc) ==> n !in after
    ensures forall n :: n in before && !Ours(before[n], svc) ==> n in after && after[n] == before[n]
  {
    OthersLeftAlone(before, after, svc, want, admit, Due(before, svc, want), ops);
    OwnedIsOurs();
    hide Owned, Ours, SaysTheSame, Merged, Faithful, Truthful, KeepsForeign, Before;
    forall n | n in want && (n in before ==> Ours(before[n], svc))
      ensures n in after && Ours(after[n], svc) && SaysTheSame(after[n], want[n])
      ensures n in before ==>
        && KeepsForeign(before[n].labels, after[n].labels, want[n].labels)
        && KeepsForeign(before[n].annotations, after[n].annotations, want[n].annotations)
    {
      WantedSettles(before, after, svc, want, admit, n);
    }
    forall n | n !in want ensures !(n in after && Ours(after[n], svc)) ensures n in before && Ours(before[n], svc) ==> n !in after {
      if n in Due(before, svc, want) {
        assert Settled(before, after, svc, want, admit, n);
      } else {
        assert SameAt(before, after, n);
      }
    }
    if !Unobstructed(before, svc, want) {
      var n :| n in want && n in before && !Owned(before[n], svc);
      assert !(n in after && Ours(after[n], svc));
    }
  }

  /** For an owned, agreeing slice only "nochange" is a truthful entry. */
  lemma SettledNeedsNothing(op: SliceOp, mid: Objects, after: Objects, svc: string, want: Objects, admit: Slice -> Slice)
    requires Truthful(op, mid, after, svc, want, admit) && (OwnsSlice(mid, svc, op.name) ==> op.name in want)
    requires op.name in want ==>
      OwnsSlice(mid, svc, op.name) && SaysTheSame(mid[op.name], want[op.name]) && Separable(want[op.name])
    ensures op.verb == NoChange && SameAt(mid, after, op.name)
  {
    hide Owned, SaysTheSame, Separable, Merged, Counted;
  }

  lemma SameEverywhere(m: Objects, m': Objects)
    requires forall n :: SameAt(m, m', n)
    ensures m' == m
  {
    forall n ensures n in m' <==> n in m {
      assert SameAt(m, m', n);
    }
    forall n | n in m' ensures m'[n] == m[n] {
      assert SameAt(m, m', n);
    }
  }

  lemma OursAt(objs: Objects, svc: string, n: string)
    ensures OwnsSlice(objs, svc, n) <==> n in objs && Ours(objs[n], svc)
    ensures n in objs ==> (Owned(objs[n], svc) <==> Ours(objs[n], svc))
  {
    OwnedIsOurs();
  }

  /** What a first run leaves, as a second one lists it. */
  lemma FirstRunLeaves(before: Objects, mid: Objects, svc: string, want: Objects, admit: Slice -> Slice, ops: seq<SliceOp>)
    requires Faithful(admit) && WellFormed(svc, want) && Unobstructed(before, svc, want)
    requires Progress(before, mid, svc, want, admit, Due(before, svc, want), ops)
    ensures forall n :: OwnsSlice(mid, svc, n) <==> n in want
    ensures forall n :: n in want ==> SaysTheSame(mid[n], want[n])
    ensures Due(mid, svc, want) == want.Keys
  {
    hide Owned, Ours, SaysTheSame, Faithful, KeepsForeign, Progress, WellFormed;
    Converges(before, mid, svc, want, admit, ops);
    forall n ensures OwnsSlice(mid, svc, n) <==> n in want {
      OursAt(mid, svc, n);
    }
    forall n | n in want ensures SaysTheSame(mid[n], want[n]) {
      OursAt(before, svc, n);
    }
  }

  /** Run again at once: nothing is written, and the log says nothing but "nochange". */
  lemma SecondRunIsQuiet(before: Objects, mid: Objects, after: Objects, svc: string, want: Objects, admit: Slice -> Slice,
                         ops: seq<SliceOp>, again: seq<SliceOp>)
    requires Faithful(admit) && WellFormed(svc, want) && Unobstructed(before, svc, want)
    requires forall n :: n in want ==> Separable(want[n])
    requires Progress(before, mid, svc, want, admit, Due(before, svc, want), ops)
    requires Progress(mid, after, svc, want, admit, Due(mid, svc, want), again)
    ensures after == mid
    ensures forall op :: op in again ==> op.verb == NoChange
    ensures forall n :: n in want <==> exists op :: op in again && op.name == n
  {
    hide Owned, SaysTheSame, Merged, Faithful, Separable, Settled, WellFormed, Unobstructed, Due;
    FirstRunLeaves(before, mid, svc, want, admit, ops);
    forall op | op in again ensures op.verb == NoChange && SameAt(mid, after, op.name) {
      assert Truthful(op, mid, after, svc, want, admit);
      SettledNeedsNothing(op, mid, after, svc, want, admit);
    }
    forall n ensures SameAt(mid, after, n) {
      if n in want {
        var op :| op in again && op.name == n;
      }
    }
    SameEverywhere(mid, after);
  }

  function PortKeysFor(ports: seq<ServicePort>): seq<PortKey> {
    seq(|ports|, i requires 0 <= i < |ports| => PortKeyOf(PortFor(ports[i])))
  }

  lemma PublishedSeparate(ctx: Context, f: Family, list: seq<Attachment>)
    ensures Tieless(EpKeys(SliceFor(ctx, f, list)), AddrLess)
    ensures PortKeys(SliceFor(ctx, f, list)) == PortKeysFor(ctx.svc.ports)
  {
    UncontestedMeaning(list);
    var ks, p := EpKeys(SliceFor(ctx, f, list)), Published(list);
    hide Uncontested, PortKeyOf;
    assert forall i :: 0 <= i < |ks| ==> ks[i].addr == p[i].ip;
  }

  /** The API server admits only Services whose ports have different names, a single unnamed port included. */
  predicate NamedApart(ports: seq<ServicePort>) {
    forall i, j :: 0 <= i < j < |ports| ==> ports[i].name != ports[j].name
  }

  lemma PortsNeverTie(ports: seq<ServicePort>)
    requires NamedApart(ports)
    ensures Tieless(PortKeysFor(ports), PortLess)
  {
    var ks := PortKeysFor(ports);
    forall i, j | 0 <= i < |ks| && 0 <= j < |ks| && i != j ensures PortLess(ks[i], ks[j]) || PortLess(ks[j], ks[i]) {
      StrLessTotal(ports[i].name, ports[j].name);
    }
  }

  /** What desiredSlices hands over meets these conditions for every Service the API server admits. */
  lemma WantedConforms(ctx: Context, parse: string -> Parsed, atts: seq<Attachment>)
    ensures WellFormed(ctx.svc.name, Wanted(ctx, parse, atts))
    ensures NamedApart(ctx.svc.ports) ==>
      forall n :: n in Wanted(ctx, parse, atts) ==> Separable(Wanted(ctx, parse, atts)[n])
  {
    SliceNamesDiffer(ctx.svc.name);
    hide OfFamily, Families, Uncontested, PortKeyOf, PortLess, AddrLess, Tieless, EndpointsFor, PortsFor, PortKeysFor, NamedApart;
    PublishedSeparate(ctx, IPv4, OfFamily(parse, atts, IPv4));
    PublishedSeparate(ctx, IPv6, OfFamily(parse, atts, IPv6));
    if NamedApart(ctx.svc.ports) {
      PortsNeverTie(ctx.svc.ports);
    }
  }

  // ---------------------------------------------------------------- what a run publishes

  /** A client reading the endpoint learns of the attachment, ready exactly when it is. */
  predicate Tells(ctx: Context, e: SliceEndpoint, a: Attachment) {
    && FirstAddress(e) == a.ip
    && e.ready.GetOr(false) == IsReady(a, ctx.scope, ctx.store, ctx.now)
    && e.serving.GetOr(false) == IsReady(a, ctx.scope, ctx.store, ctx.now)
    && !e.terminating.GetOr(false)
    && e.nodeName.GetOr("") == a.nodeName
    && (if e.target.Some? then e.target.value.uid else "") == a.podUID
    && (if e.target.Some? then e.target.value.name else "") == a.podName
  }

  ghost predicate TellsSoleClaim(ctx: Context, parse: string -> Parsed, atts: seq<Attachment>, f: Family, e: SliceEndpoint) {
    exists i :: SoleClaim(parse, atts, f, i) && Tells(ctx, e, atts[i])
  }

  predicate Told(ctx: Context, eps: seq<SliceEndpoint>, a: Attachment) {
    exists k :: 0 <= k < |eps| && Tells(ctx, eps[k], a)
  }

  /** Of the family's sole claims each is told, unless a thousand others are, and nothing else is. */
  ghost predicate TellsFamily(ctx: Context, parse: string -> Parsed, atts: seq<Attachment>, f: Family, eps: seq<SliceEndpoint>) {
    && |eps| <= 1000
    && (forall k :: 0 <= k < |eps| ==> TellsSoleClaim(ctx, parse, atts, f, eps[k]))
    && (forall i :: SoleClaim(parse, atts, f, i) ==> |eps| == 1000 || Told(ctx, eps, atts[i]))
  }

  predicate TellsPort(q: Port, p: ServicePort) {
    && q.name.GetOr("") == p.name && q.protocol.GetOr("TCP") == (if p.protocol == "" then "TCP" else p.protocol)
    && q.port.GetOr(0) == if p.target.Number? && p.target.port > 0 then p.target.port else p.port
  }

  predicate PortTold(ports: seq<Port>, p: ServicePort) {
    exists k :: 0 <= k < |ports| && TellsPort(ports[k], p)
  }

  ghost predicate TellsPorts(ports: seq<Port>, of: seq<ServicePort>) {
    && |ports| == |of|
    && forall i :: 0 <= i < |of| ==> PortTold(ports, of[i])
  }

  lemma SameTells(ctx: Context, e: SliceEndpoint, w: SliceEndpoint, a: Attachment)
    requires SameEndpoint(e, w) && Shows(ctx, w, a)
    ensures Tells(ctx, e, a)
  {
    hide IsReady, Hostname;
  }

  lemma SameEndpointSymmetric(e: SliceEndpoint, w: SliceEndpoint)
    ensures SameEndpoint(e, w) <==> SameEndpoint(w, e)
  {
  }

  /** Agreement seen from either side. */
  lemma PairedBack(have: Slice, want: Slice) returns (p: seq<nat>, q: seq<nat>, back: seq<nat>)
    requires SaysTheSame(have, want)
    ensures EndpointsPaired(have, want, p) && PortsPaired(have, want, q) && EndpointsPaired(want, have, back)
  {
    hide EpKeys, PortKeys, EndpointsPaired, PortsPaired;
    p :| EndpointsPaired(have, want, p);
    q :| PortsPaired(have, want, q);
    SameEndpointsMeaning(have, want);
    SameEndpointsMeaning(want, have);
    back :| EndpointsPaired(want, have, back);
  }

  lemma TellsSole(ctx: Context, parse: string -> Parsed, atts: seq<Attachment>, f: Family, have: Slice, want: Slice,
                  back: seq<nat>, k: int)
    requires ShowsFamily(ctx, parse, atts, f, want.endpoints) && EndpointsPaired(want, have, back) && 0 <= k < |have.endpoints|
    ensures TellsSoleClaim(ctx, parse, atts, f, have.endpoints[k])
  {
    hide InFamily, Shows, Tells, SameEndpoint, AllBelow, Shown, StrLess;
    var w := want.endpoints[back[k]];
    var i :| SoleClaim(parse, atts, f, i) && Shows(ctx, w, atts[i]);
    SameEndpointSymmetric(have.endpoints[k], w);
    SameTells(ctx, have.endpoints[k], w, atts[i]);
  }

  lemma ShownIsTold(ctx: Context, have: Slice, want: Slice, p: seq<nat>, a: Attachment)
    requires EndpointsPaired(have, want, p) && Shown(ctx, want.endpoints, a)
    ensures Told(ctx, have.endpoints, a)
  {
    hide Shows, Tells, SameEndpoint;
    var l :| 0 <= l < |want.endpoints| && Shows(ctx, want.endpoints[l], a);
    SameTells(ctx, have.endpoints[p[l]], want.endpoints[l], a);
  }

  lemma SameTellsFamily(ctx: Context, parse: string -> Parsed, atts: seq<Attachment>, f: Family, have: Slice, want: Slice,
                        p: seq<nat>, back: seq<nat>)
    requires ShowsFamily(ctx, parse, atts, f, want.endpoints)
    requires EndpointsPaired(have, want, p) && EndpointsPaired(want, have, back)
    ensures TellsFamily(ctx, parse, atts, f, have.endpoints)
  {
    hide InFamily, Shows, Tells, SameEndpoint, AllBelow, StrLess, Told, Shown, TellsSoleClaim;
    var eps := have.endpoints;
    forall k | 0 <= k < |eps| ensures TellsSoleClaim(ctx, parse, atts, f, eps[k]) {
      TellsSole(ctx, parse, atts, f, have, want, back, k);
    }
    forall i | SoleClaim(parse, atts, f, i) ensures |eps| == 1000 || Told(ctx, eps, atts[i]) {
      if |eps| != 1000 {
        ShownIsTold(ctx, have, want, p, atts[i]);
      }
    }
  }

  lemma SameTellsPorts(have: Slice, want: Slice, of: seq<ServicePort>, q: seq<nat>)
    requires PortsPaired(have, want, q) && ShowsPorts(want.ports, of)
    ensures TellsPorts(have.ports, of)
  {
    forall i | 0 <= i < |of| ensures PortTold(have.ports, of[i]) {
      assert SamePort(have.ports[q[i]], want.ports[i]) && ShowsPort(want.ports[i], of[i]);
    }
  }

  lemma SameTellsService(ctx: Context, parse: string -> Parsed, atts: seq<Attachment>, f: Family, n: string, have: Slice, want: Slice)
    requires ShowsService(ctx, parse, atts, f, n, want) && SaysTheSame(have, want)
    ensures TellsFamily(ctx, parse, atts, f, have.endpoints) && TellsPorts(have.ports, ctx.svc.ports)
  {
    hide ShowsFamily, ShowsPorts, TellsFamily, TellsPorts, EndpointsPaired, PortsPaired;
    var p, q, back := PairedBack(have, want);
    SameTellsFamily(ctx, parse, atts, f, have, want, p, back);
    SameTellsPorts(have, want, ctx.svc.ports, q);
  }

  /**
   From the attachments to the API server: after an error-free run on the wanted slices,
   every family some attachment is of has a slice that is ours, unless someone else's
   holds its name, and what a client reads there is each sole claim with the readiness
   decision for it, and each Service port with the number clients have to use.
   */
  lemma PublishesReadiness(ctx: Context, parse: string -> Parsed, atts: seq<Attachment>, before: Objects, after: Objects,
                           admit: Slice -> Slice, ops: seq<SliceOp>, n: string)
    requires Faithful(admit)
    requires
      var svc, want := ctx.svc.name, Wanted(ctx, parse, atts);
      Progress(before, after, svc, want, admit, Due(before, svc, want), ops)
    requires
      || (n == ctx.svc.name + "-secondary-ipv4" && exists a :: a in atts && parse(a.ip) != V6)
      || (n == ctx.svc.name + "-secondary-ipv6" && exists a :: a in atts && parse(a.ip) == V6)
    requires n in before ==> Ours(before[n], ctx.svc.name)
    ensures n in after && Ours(after[n], ctx.svc.name)
    ensures TellsFamily(ctx, parse, atts, if n == ctx.svc.name + "-secondary-ipv6" then IPv6 else IPv4, after[n].endpoints)
    ensures TellsPorts(after[n].ports, ctx.svc.ports)
  {
    hide Wanted, WellFormed, Progress, Faithful, Ours, ShowsService, SaysTheSame, TellsFamily, TellsPorts, Separable, KeepsForeign,
      NamedApart;
    var svc, want := ctx.svc.name, Wanted(ctx, parse, atts);
    WantedConforms(ctx, parse, atts);
    WantedMeaning(ctx, parse, atts, n);
    Converges(before, after, svc, want, admit, ops);
    SameTellsService(ctx, parse, atts, if n == svc + "-secondary-ipv6" then IPv6 else IPv4, n, after[n], want[n]);
  }
}
