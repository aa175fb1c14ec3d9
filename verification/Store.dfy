/**
 The controller's evidence store (internal/controller/health_store.go).

 The value type `StoreState` and its functions say what every operation does; the
 class `HealthStore` carries the fields the source mutates, and each of its methods
 is proved to move the state exactly as its function says, whatever order the map
 loops visit their keys in.

 Local and path evidence differ only in where a report keeps its key and its node,
 so the map operations are written once over a report type R.
 */
module Store {
  import opened Ordering
  import opened HealthModel

  datatype Entry<R> = Entry(report: R, origin: ReportOrigin, acceptedAt: int, expired: bool)

  type Table<R> = map<Key, Entry<R>>

  datatype AcceptResult = Accepted | StaleInstance | OutOfOrder

  datatype Kind = LocalKind | PathKind

  datatype Expired = Expired(kind: Kind, id: Key, node: string)

  function LocalKey(r: LocalHealth): Key { r.attachmentID }
  function LocalNode(r: LocalHealth): string { r.nodeName }
  function PathReportKey(r: PathHealth): Key { r.scopeID }
  function PathNode(r: PathHealth): string { r.nodeName }

  // ---------------------------------------------------------------- tables

  /** A delta is refused when its own instance already spoke at or past its sequence. */
  predicate Refuses<R>(m: Table<R>, k: Key, o: ReportOrigin) {
    && k in m
    && m[k].origin.agentInstance == o.agentInstance
    && o.sequence <= m[k].origin.sequence
  }

  /** The effect of one delta on a table, the instance check aside. */
  function Offer<R>(m: Table<R>, k: Key, o: ReportOrigin, r: R, now: int): Table<R> {
    if Refuses(m, k, o) then m else m[k := Entry(r, o, now, false)]
  }

  function DropNode<R>(m: Table<R>, nodeOf: R -> string, node: string): Table<R> {
    map k | k in m && nodeOf(m[k].report) != node :: m[k]
  }

  /** Snapshot writes, in order: no sequence check, later reports overwrite. */
  function PutAll<R>(m: Table<R>, keyOf: R -> Key, rs: seq<R>, o: ReportOrigin, now: int): Table<R> {
    if rs == [] then m
    else
      var r := rs[|rs| - 1];
      PutAll(m, keyOf, rs[..|rs| - 1], o, now)[keyOf(r) := Entry(r, o, now, false)]
  }

  /** The last report for a key, if there is one. */
  function LastFor<R>(rs: seq<R>, keyOf: R -> Key, k: Key): Option<R> {
    if rs == [] then None
    else if keyOf(rs[|rs| - 1]) == k then Some(rs[|rs| - 1])
    else LastFor(rs[..|rs| - 1], keyOf, k)
  }

  lemma {:induction false} LastForMeaning<R>(rs: seq<R>, keyOf: R -> Key, k: Key) returns (i: int)
    ensures LastFor(rs, keyOf, k).None? <==> forall r :: r in rs ==> keyOf(r) != k
    ensures LastFor(rs, keyOf, k).Some? ==>
      && 0 <= i < |rs| && rs[i] == LastFor(rs, keyOf, k).value && keyOf(rs[i]) == k
      && forall j :: i < j < |rs| ==> keyOf(rs[j]) != k
  {
    i := |rs| - 1;
    if rs != [] {
      assert rs == rs[..|rs| - 1] + [rs[|rs| - 1]];
      if keyOf(rs[i]) != k {
        i := LastForMeaning(rs[..|rs| - 1], keyOf, k);
      }
    }
  }

  /** Last write per key wins, and all writes carry one origin and one time. */
  lemma {:induction false} PutAllAt<R>(m: Table<R>, keyOf: R -> Key, rs: seq<R>, o: ReportOrigin, now: int, k: Key)
    ensures
      var last := LastFor(rs, keyOf, k);
      var m' := PutAll(m, keyOf, rs, o, now);
      && (k in m' <==> k in m || last.Some?)
      && (last.Some? ==> m'[k] == Entry(last.value, o, now, false))
      && (last.None? && k in m ==> m'[k] == m[k])
  {
    if rs != [] {
      PutAllAt(m, keyOf, rs[..|rs| - 1], o, now, k);
    }
  }

  /** A table's entry has outlived the freshness window. */
  predicate Stale<R>(e: Entry<R>, ttl: int, now: int) {
    now - e.acceptedAt > ttl
  }

  predicate NewlyStale<R>(e: Entry<R>, ttl: int, now: int) {
    !e.expired && Stale(e, ttl, now)
  }

  function Marked<R>(e: Entry<R>, ttl: int, now: int): Entry<R> {
    if NewlyStale(e, ttl, now) then e.(expired := true) else e
  }

  function MarkAll<R>(m: Table<R>, ttl: int, now: int): Table<R> {
    map k | k in m :: Marked(m[k], ttl, now)
  }

  function DropDead<R>(m: Table<R>, ttl: int, now: int): Table<R> {
    map k | k in m && !(m[k].acceptedAt < now - 2 * ttl) :: m[k]
  }

  function FreshAt<R>(m: Table<R>, k: Key, ttl: int, now: int): Option<R> {
    if k in m && now - m[k].acceptedAt <= ttl then Some(m[k].report) else None
  }

  // ---------------------------------------------------------------- the store as a value

  datatype StoreState = StoreState(
    ttl: int,
    local: Table<LocalHealth>,
    path: Table<PathHealth>,
    nodeInstance: map<string, string>)
  {
    predicate Current(o: ReportOrigin) {
      o.nodeName in nodeInstance && nodeInstance[o.nodeName] == o.agentInstance
    }

    function Adopt(node: string, instance: string): StoreState {
      this.(nodeInstance := nodeInstance[node := instance])
    }

    function LocalResult(o: ReportOrigin, r: LocalHealth): AcceptResult {
      if !Current(o) then StaleInstance
      else if Refuses(local, r.attachmentID, o) then OutOfOrder
      else Accepted
    }

    function AfterLocal(o: ReportOrigin, r: LocalHealth, now: int): StoreState {
      if !Current(o) then this else this.(local := Offer(local, r.attachmentID, o, r, now))
    }

    function PathResult(o: ReportOrigin, r: PathHealth): AcceptResult {
      if !Current(o) then StaleInstance
      else if Refuses(path, r.scopeID, o) then OutOfOrder
      else Accepted
    }

    function AfterPath(o: ReportOrigin, r: PathHealth, now: int): StoreState {
      if !Current(o) then this else this.(path := Offer(path, r.scopeID, o, r, now))
    }

    function AfterSnapshot(o: ReportOrigin, locals: seq<LocalHealth>, paths: seq<PathHealth>, now: int): StoreState {
      if !Current(o) then this
      else
        this.(local := PutAll(DropNode(local, LocalNode, o.nodeName), LocalKey, locals, o, now),
              path := PutAll(DropNode(path, PathNode, o.nodeName), PathReportKey, paths, o, now))
    }

    function AfterForget(id: Key): StoreState {
      this.(local := local - {id})
    }

    function AfterSweep(now: int): StoreState {
      this.(local := MarkAll(local, ttl, now), path := MarkAll(path, ttl, now))
    }

    /** What a sweep reports. */
    ghost predicate Reports(x: Expired, now: int) {
      match x.kind
      case LocalKind => x.id in local && NewlyStale(local[x.id], ttl, now) && x.node == local[x.id].report.nodeName
      case PathKind => x.id in path && NewlyStale(path[x.id], ttl, now) && x.node == path[x.id].report.nodeName
    }

    function AfterPrune(now: int): StoreState {
      this.(local := DropDead(local, ttl, now), path := DropDead(path, ttl, now))
    }

    /** Reads: only a fresh entry answers. */
    function LocalState(id: Key, now: int): State {
      match FreshAt(local, id, ttl, now)
      case None => Unknown
      case Some(r) => if r.Ready() then Healthy else Unhealthy
    }

    function PathState(id: Key, now: int): State {
      match FreshAt(path, id, ttl, now)
      case None => Unknown
      case Some(r) => if r.pathReady then Healthy else Unhealthy
    }
  }

  const EmptyStore: StoreState := StoreState(0, map[], map[], map[])

  // ---------------------------------------------------------------- the store as the source keeps it

  // The source writes each of the loops below twice, once per map.

  /** ApplySnapshot's deletion loop. */
  method DeleteNode<R>(m: Table<R>, nodeOf: R -> string, node: string) returns (kept: Table<R>)
    ensures kept == DropNode(m, nodeOf, node)
  {
    kept := m;
    var todo := m.Keys;
    while todo != {}
      invariant todo <= kept.Keys
      invariant kept == map k | k in m && (k in todo || nodeOf(m[k].report) != node) :: m[k]
    {
      var id :| id in todo;
      todo := todo - {id};
      if nodeOf(kept[id].report) == node {
        kept := kept - {id};
      }
    }
  }

  /** ApplySnapshot's writing loop. */
  method WriteAll<R>(m: Table<R>, keyOf: R -> Key, rs: seq<R>, o: ReportOrigin, now: int) returns (m': Table<R>)
    ensures m' == PutAll(m, keyOf, rs, o, now)
  {
    m' := m;
    for i := 0 to |rs|
      invariant m' == PutAll(m, keyOf, rs[..i], o, now)
    {
      assert rs[..i + 1][..i] == rs[..i];
      m' := m'[keyOf(rs[i]) := Entry(rs[i], o, now, false)];
    }
    assert rs[..|rs|] == rs;
  }

  /** SweepExpired's loop: marks what has just gone stale and lists it. */
  method SweepTable<R>(m: Table<R>, ttl: int, now: int, kind: Kind, nodeOf: R -> string)
    returns (m': Table<R>, out: seq<Expired>)
    ensures m' == MarkAll(m, ttl, now)
    ensures forall x :: x in out <==>
      x.kind == kind && x.id in m && NewlyStale(m[x.id], ttl, now) && x.node == nodeOf(m[x.id].report)
    ensures forall i, j :: 0 <= i < j < |out| ==> out[i] != out[j]
  {
    m', out := m, [];
    var todo := m.Keys;
    while todo != {}
      invariant todo <= m.Keys
      invariant m' == map k | k in m :: if k in todo then m[k] else Marked(m[k], ttl, now)
      invariant forall x :: x in out <==>
        && x.kind == kind && x.id in m && x.id !in todo
        && NewlyStale(m[x.id], ttl, now) && x.node == nodeOf(m[x.id].report)
      invariant forall i, j :: 0 <= i < j < |out| ==> out[i] != out[j]
    {
      var id :| id in todo;
      todo := todo - {id};
      var e := m'[id];
      if !e.expired && now - e.acceptedAt > ttl {
        m' := m'[id := e.(expired := true)];
        out := out + [Expired(kind, id, nodeOf(e.report))];
      }
    }
  }

  lemma RemovedOne<R>(m: Table<R>, k: Key)
    requires k in m
    ensures |m - {k}| == |m| - 1
  {
    var m' := m - {k};
    assert m'.Keys == m.Keys - {k};
    assert |m'| == |m'.Keys| && |m| == |m.Keys|;
  }

  /** Prune's loop. */
  method DeleteBefore<R>(m: Table<R>, cut: int) returns (kept: Table<R>, removed: nat)
    ensures kept == map k | k in m && !(m[k].acceptedAt < cut) :: m[k]
    ensures removed + |kept| == |m|
  {
    kept, removed := m, 0;
    var todo := m.Keys;
    while todo != {}
      invariant todo <= kept.Keys
      invariant kept == map k | k in m && (k in todo || !(m[k].acceptedAt < cut)) :: m[k]
      invariant removed + |kept| == |m|
    {
      var id :| id in todo;
      todo := todo - {id};
      if kept[id].acceptedAt < cut {
        RemovedOne(kept, id);
        kept, removed := kept - {id}, removed + 1;
      }
    }
  }

  /** What is not older than the cut is what is within two windows. */
  lemma CutOff<R>(m: Table<R>, ttl: int, now: int)
    ensures DropDead(m, ttl, now) == map k | k in m && !(m[k].acceptedAt < now - 2 * ttl) :: m[k]
    ensures DropDead(m, ttl, now) == map k | k in m && now - m[k].acceptedAt <= 2 * ttl :: m[k]
  {
  }

  /** Every method takes the controller's clock reading as `now`. */
  class HealthStore {
    const ttl: int
    var local: Table<LocalHealth>
    var path: Table<PathHealth>
    var nodeInstance: map<string, string>

    function State(): StoreState
      reads this
    {
      StoreState(ttl, local, path, nodeInstance)
    }

    constructor (ttl: int)
      ensures State() == EmptyStore.(ttl := ttl)
    {
      this.ttl := ttl;
      local, path, nodeInstance := map[], map[], map[];
    }

    method AdoptInstance(node: string, instance: string) returns (prev: string)
      modifies this
      ensures State() == old(State()).Adopt(node, instance)
      ensures prev == if node in old(nodeInstance) then old(nodeInstance)[node] else ""
    {
      prev := if node in nodeInstance then nodeInstance[node] else "";
      nodeInstance := nodeInstance[node := instance];
    }

    method AcceptLocal(o: ReportOrigin, r: LocalHealth, now: int) returns (res: AcceptResult)
      modifies this
      ensures State() == old(State()).AfterLocal(o, r, now)
      ensures res == old(State()).LocalResult(o, r)
      ensures res == StaleInstance <==> !(o.nodeName in nodeInstance && nodeInstance[o.nodeName] == o.agentInstance)
      ensures res != StaleInstance ==> (res == OutOfOrder <==>
        && r.attachmentID in old(local)
        && old(local)[r.attachmentID].origin.agentInstance == o.agentInstance
        && o.sequence <= old(local)[r.attachmentID].origin.sequence)
      ensures local == if res == Accepted then old(local)[r.attachmentID := Entry(r, o, now, false)] else old(local)
    {
      if !State().Current(o) {
        return StaleInstance;
      }
      if r.attachmentID in local {
        var cur := local[r.attachmentID];
        if cur.origin.agentInstance == o.agentInstance && o.sequence <= cur.origin.sequence {
          return OutOfOrder;
        }
      }
      local := local[r.attachmentID := Entry(r, o, now, false)];
      return Accepted;
    }

    method AcceptPath(o: ReportOrigin, r: PathHealth, now: int) returns (res: AcceptResult)
      modifies this
      ensures State() == old(State()).AfterPath(o, r, now)
      ensures res == old(State()).PathResult(o, r)
      ensures res == StaleInstance <==> !(o.nodeName in nodeInstance && nodeInstance[o.nodeName] == o.agentInstance)
      ensures res != StaleInstance ==> (res == OutOfOrder <==>
        && r.scopeID in old(path)
        && old(path)[r.scopeID].origin.agentInstance == o.agentInstance
        && o.sequence <= old(path)[r.scopeID].origin.sequence)
      ensures path == if res == Accepted then old(path)[r.scopeID := Entry(r, o, now, false)] else old(path)
    {
      if !State().Current(o) {
        return StaleInstance;
      }
      if r.scopeID in path {
        var cur := path[r.scopeID];
        if cur.origin.agentInstance == o.agentInstance && o.sequence <= cur.origin.sequence {
          return OutOfOrder;
        }
      }
      path := path[r.scopeID := Entry(r, o, now, false)];
      return Accepted;
    }

    method ApplySnapshot(o: ReportOrigin, locals: seq<LocalHealth>, paths: seq<PathHealth>, now: int)
      returns (res: AcceptResult)
      modifies this
      ensures State() == old(State()).AfterSnapshot(o, locals, paths, now)
      ensures res == Accepted <==> o.nodeName in nodeInstance && nodeInstance[o.nodeName] == o.agentInstance
      ensures res == Accepted || res == StaleInstance
    {
      if !State().Current(o) {
        return StaleInstance;
      }
      local := DeleteNode(local, LocalNode, o.nodeName);
      path := DeleteNode(path, PathNode, o.nodeName);
      local := WriteAll(local, LocalKey, locals, o, now);
      path := WriteAll(path, PathReportKey, paths, o, now);
      return Accepted;
    }

    /** The observation, if any, and whether it is still fresh. */
    method Local(id: Key, now: int) returns (r: Option<LocalHealth>, isFresh: bool)
      ensures r == if id in local then Some(local[id].report) else None
      ensures isFresh <==> id in local && now - local[id].acceptedAt <= ttl
    {
      if id !in local {
        return None, false;
      }
      return Some(local[id].report), now - local[id].acceptedAt <= ttl;
    }

    method Path(id: Key, now: int) returns (r: Option<PathHealth>, isFresh: bool)
      ensures r == if id in path then Some(path[id].report) else None
      ensures isFresh <==> id in path && now - path[id].acceptedAt <= ttl
    {
      if id !in path {
        return None, false;
      }
      return Some(path[id].report), now - path[id].acceptedAt <= ttl;
    }

    method ForgetLocal(id: Key)
      modifies this
      ensures State() == old(State()).AfterForget(id)
    {
      local := local - {id};
    }

    /** Reports entries that have just gone stale, in no particular order, once each. */
    method SweepExpired(now: int) returns (out: seq<Expired>)
      modifies this
      ensures State() == old(State()).AfterSweep(now)
      ensures forall x :: x in out <==> old(State()).Reports(x, now)
      ensures forall x :: x in out && x.kind == LocalKind <==>
        && x.kind == LocalKind && x.id in old(local) && x.node == old(local)[x.id].report.nodeName
        && !old(local)[x.id].expired && now - old(local)[x.id].acceptedAt > ttl
      ensures forall x :: x in out && x.kind == PathKind <==>
        && x.kind == PathKind && x.id in old(path) && x.node == old(path)[x.id].report.nodeName
        && !old(path)[x.id].expired && now - old(path)[x.id].acceptedAt > ttl
      ensures forall k :: k in local <==> k in old(local)
      ensures forall k :: k in local ==>
        local[k] == old(local)[k].(expired := old(local)[k].expired || now - old(local)[k].acceptedAt > ttl)
      ensures forall k :: k in path <==> k in old(path)
      ensures forall k :: k in path ==>
        path[k] == old(path)[k].(expired := old(path)[k].expired || now - old(path)[k].acceptedAt > ttl)
      ensures forall i, j :: 0 <= i < j < |out| ==> out[i] != out[j]
    {
      var ls: seq<Expired>;
      var ps: seq<Expired>;
      local, ls := SweepTable(local, ttl, now, LocalKind, LocalNode);
      path, ps := SweepTable(path, ttl, now, PathKind, PathNode);
      out := ls + ps;
    }

    /** Removes entries stale for more than twice the window. */
    method Prune(now: int) returns (locals: nat, paths: nat)
      modifies this
      ensures State() == old(State()).AfterPrune(now)
      ensures local == map k | k in old(local) && now - old(local)[k].acceptedAt <= 2 * ttl :: old(local)[k]
      ensures path == map k | k in old(path) && now - old(path)[k].acceptedAt <= 2 * ttl :: old(path)[k]
      ensures locals + |local| == |old(local)| && paths + |path| == |old(path)|
    {
      var cut := now - 2 * ttl;
      CutOff(local, ttl, now);
      CutOff(path, ttl, now);
      hide DropDead;
      local, locals := DeleteBefore(local, cut);
      path, paths := DeleteBefore(path, cut);
    }
  }
}
