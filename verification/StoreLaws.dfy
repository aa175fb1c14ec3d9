/** What the store's operations mean together: delivery order, expiry and pruning. */
module StoreLaws {
  import opened Ordering
  import opened HealthModel
  import opened Store
  import opened Readiness

  // ---------------------------------------------------------------- order independence

  /** One delta of a fixed instance, as it arrives. */
  datatype Delivery<R> = Delivery(key: Key, sequence: nat, report: R, at: int)

  datatype Sender = Sender(node: string, instance: string) {
    function Origin(sequence: nat): ReportOrigin {
      ReportOrigin(node, instance, sequence)
    }
  }

  function DeliverAll<R>(m: Table<R>, s: Sender, ds: seq<Delivery<R>>): Table<R> {
    if ds == [] then m
    else
      var d := ds[|ds| - 1];
      Offer(DeliverAll(m, s, ds[..|ds| - 1]), d.key, s.Origin(d.sequence), d.report, d.at)
  }

  /** The delivery for key k that should prevail: greatest sequence, and of those the first to arrive. */
  function Winner<R>(ds: seq<Delivery<R>>, k: Key): Option<Delivery<R>> {
    if ds == [] then None
    else
      var d, w := ds[|ds| - 1], Winner(ds[..|ds| - 1], k);
      if d.key == k && (w.None? || w.value.sequence < d.sequence) then Some(d) else w
  }

  /** Delivery i is the first arrival of the greatest sequence seen for key k. */
  ghost predicate Prevails<R>(ds: seq<Delivery<R>>, k: Key, i: nat) {
    && i < |ds| && ds[i].key == k
    && (forall j :: 0 <= j < |ds| && ds[j].key == k ==> ds[j].sequence <= ds[i].sequence)
    && (forall j :: 0 <= j < i && ds[j].key == k ==> ds[j].sequence < ds[i].sequence)
  }

  lemma {:induction false} WinnerPrevails<R>(ds: seq<Delivery<R>>, k: Key) returns (i: nat)
    ensures Winner(ds, k).None? <==> forall d :: d in ds ==> d.key != k
    ensures Winner(ds, k).Some? ==> Prevails(ds, k, i) && ds[i] == Winner(ds, k).value
  {
    i := 0;
    if ds != [] {
      var init, d := ds[..|ds| - 1], ds[|ds| - 1];
      i := WinnerPrevails(init, k);
      assert ds == init + [d];
      if Winner(ds, k) != Winner(init, k) {
        i := |ds| - 1;
      }
    }
  }

  /**
   At each key the winner's report, origin and own arrival time remain, unless the
   same instance's entry from before already ranked at or above it. A report that
   does not win leaves no trace, in particular no later acceptance time.
   */
  lemma {:induction false} DeltaOutcome<R>(m: Table<R>, s: Sender, ds: seq<Delivery<R>>, k: Key)
    ensures
      var m', w := DeliverAll(m, s, ds), Winner(ds, k);
      && (w.None? ==> (k in m' <==> k in m) && (k in m ==> m'[k] == m[k]))
      && (w.Some? ==>
            && k in m'
            && m'[k] == if Refuses(m, k, s.Origin(w.value.sequence)) then m[k]
                        else Entry(w.value.report, s.Origin(w.value.sequence), w.value.at, false))
  {
    if ds != [] {
      DeltaOutcome(m, s, ds[..|ds| - 1], k);
    }
  }

  /** What was reported, arrival order, arrival time and repeats forgotten. */
  function Content<R>(d: Delivery<R>): Delivery<R> {
    d.(at := 0)
  }

  ghost function Contents<R(!new)>(ds: seq<Delivery<R>>): set<Delivery<R>> {
    set d | d in ds :: Content(d)
  }

  ghost predicate SameReports<R(!new)>(a: seq<Delivery<R>>, b: seq<Delivery<R>>) {
    Contents(a) == Contents(b)
  }

  /** A sequence number is never spent on two reports for one key. */
  ghost predicate DistinctSequences<R(!new)>(ds: seq<Delivery<R>>) {
    forall x, y :: x in ds && y in ds && x.key == y.key && x.sequence == y.sequence ==> x.report == y.report
  }

  lemma SameReportsFind<R(!new)>(a: seq<Delivery<R>>, b: seq<Delivery<R>>, x: Delivery<R>) returns (y: Delivery<R>)
    requires SameReports(a, b) && x in a
    ensures y in b && Content(y) == Content(x)
  {
    assert Content(x) in Contents(b);
    y :| y in b && Content(y) == Content(x);
  }

  lemma WinnersAgree<R(!new)>(a: seq<Delivery<R>>, b: seq<Delivery<R>>, k: Key)
    requires SameReports(a, b) && DistinctSequences(a)
    ensures Winner(a, k).Some? <==> Winner(b, k).Some?
    ensures Winner(a, k).Some? ==> Content(Winner(a, k).value) == Content(Winner(b, k).value)
  {
    var i := WinnerPrevails(a, k);
    var j := WinnerPrevails(b, k);
    if Winner(a, k).Some? {
      var inB := SameReportsFind(a, b, a[i]);
      assert inB.key == k;
      var inA := SameReportsFind(b, a, b[j]);
      assert inA.sequence <= a[i].sequence && inB.sequence <= b[j].sequence;
      assert a[i] in a && inA in a;
    } else {
      forall y | y in b ensures y.key != k {
        var x := SameReportsFind(b, a, y);
      }
    }
  }

  /** Report and origin at every key are independent of delivery order and duplication. */
  lemma OrderIndependent<R(!new)>(m: Table<R>, s: Sender, a: seq<Delivery<R>>, b: seq<Delivery<R>>, k: Key)
    requires SameReports(a, b) && DistinctSequences(a)
    ensures
      var ma, mb := DeliverAll(m, s, a), DeliverAll(m, s, b);
      && (k in ma <==> k in mb)
      && (k in ma ==> ma[k].report == mb[k].report && ma[k].origin == mb[k].origin)
  {
    DeltaOutcome(m, s, a, k);
    DeltaOutcome(m, s, b, k);
    WinnersAgree(a, b, k);
  }

  /** A run of AcceptLocal calls by the node's current instance. */
  function AcceptLocals(st: StoreState, s: Sender, ds: seq<Delivery<LocalHealth>>): StoreState {
    if ds == [] then st
    else
      var d := ds[|ds| - 1];
      AcceptLocals(st, s, ds[..|ds| - 1]).AfterLocal(s.Origin(d.sequence), d.report, d.at)
  }

  function AcceptPaths(st: StoreState, s: Sender, ds: seq<Delivery<PathHealth>>): StoreState {
    if ds == [] then st
    else
      var d := ds[|ds| - 1];
      AcceptPaths(st, s, ds[..|ds| - 1]).AfterPath(s.Origin(d.sequence), d.report, d.at)
  }

  /** For the current instance the store behaves as the table law says, and only the local table moves. */
  lemma {:induction false} LocalsAreDeliveries(st: StoreState, s: Sender, ds: seq<Delivery<LocalHealth>>)
    requires st.Current(s.Origin(0))
    requires forall d :: d in ds ==> d.key == d.report.attachmentID
    ensures AcceptLocals(st, s, ds) == st.(local := DeliverAll(st.local, s, ds))
  {
    if ds != [] {
      LocalsAreDeliveries(st, s, ds[..|ds| - 1]);
      assert ds[|ds| - 1] in ds;
    }
  }

  lemma {:induction false} PathsAreDeliveries(st: StoreState, s: Sender, ds: seq<Delivery<PathHealth>>)
    requires st.Current(s.Origin(0))
    requires forall d :: d in ds ==> d.key == d.report.scopeID
    ensures AcceptPaths(st, s, ds) == st.(path := DeliverAll(st.path, s, ds))
  {
    if ds != [] {
      PathsAreDeliveries(st, s, ds[..|ds| - 1]);
      assert ds[|ds| - 1] in ds;
    }
  }

  // ---------------------------------------------------------------- expiry and pruning

  /** No entry was accepted after `now`: the clock has not run backwards. */
  ghost predicate NotFromFuture(st: StoreState, now: int) {
    && (forall k :: k in st.local ==> st.local[k].acceptedAt <= now)
    && (forall k :: k in st.path ==> st.path[k].acceptedAt <= now)
  }

  lemma MarkKeepsFreshness<R>(m: Table<R>, k: Key, ttl: int, now: int, later: int)
    ensures FreshAt(MarkAll(m, ttl, now), k, ttl, later) == FreshAt(m, k, ttl, later)
    ensures k in MarkAll(m, ttl, now) <==> k in m
  {
  }

  /** Marking expiry changes no verdict and no reason, then or later. */
  lemma SweepInvisible(st: StoreState, now: int, later: int, id: Key, a: Attachment, scope: ProbeScope)
    ensures st.AfterSweep(now).LocalState(id, later) == st.LocalState(id, later)
    ensures st.AfterSweep(now).PathState(id, later) == st.PathState(id, later)
    ensures ComputeReady(a, scope, st.AfterSweep(now), later) == ComputeReady(a, scope, st, later)
  {
    var id', pk := a.ID(), a.PathKey(scope);
    MarkKeepsFreshness(st.local, id, st.ttl, now, later);
    MarkKeepsFreshness(st.path, id, st.ttl, now, later);
    MarkKeepsFreshness(st.local, id', st.ttl, now, later);
    MarkKeepsFreshness(st.path, pk, st.ttl, now, later);
    hide MarkAll, FreshAt;
  }

  lemma PruneKeepsFreshness<R>(m: Table<R>, k: Key, ttl: int, now: int, later: int)
    requires now <= later && (forall j :: j in m ==> m[j].acceptedAt <= now)
    ensures FreshAt(DropDead(m, ttl, now), k, ttl, later) == FreshAt(m, k, ttl, later)
    ensures k in DropDead(m, ttl, now) ==> k in m
  {
  }

  /** Pruning changes no verdict; only "stale" may turn into "never reported". */
  lemma PruneInvisible(st: StoreState, now: int, later: int, id: Key, a: Attachment, scope: ProbeScope)
    requires NotFromFuture(st, now) && now <= later
    ensures st.AfterPrune(now).LocalState(id, later) == st.LocalState(id, later)
    ensures st.AfterPrune(now).PathState(id, later) == st.PathState(id, later)
    ensures
      var r, r' := ComputeReady(a, scope, st, later), ComputeReady(a, scope, st.AfterPrune(now), later);
      && r'.ready == r.ready
      && (r'.reason == r.reason || (r.reason, r'.reason) in {(LocalReportStale, NoLocalReport), (PathReportStale, NoPathReport)})
  {
    hide Attachment.ID, Attachment.PathKey, DropDead, LocalHealth.Ready;
    PruneKeepsFreshness(st.local, id, st.ttl, now, later);
    PruneKeepsFreshness(st.path, id, st.ttl, now, later);
    PruneKeepsFreshness(st.local, a.ID(), st.ttl, now, later);
    PruneKeepsFreshness(st.path, a.PathKey(scope), st.ttl, now, later);
    hide FreshAt;
  }

  /** Right after a sweep every stale entry is marked. */
  ghost predicate StaleAreMarked(st: StoreState, now: int) {
    && (forall k :: k in st.local && Stale(st.local[k], st.ttl, now) ==> st.local[k].expired)
    && (forall k :: k in st.path && Stale(st.path[k], st.ttl, now) ==> st.path[k].expired)
  }

  lemma SweepMarksAllStale(st: StoreState, now: int)
    ensures StaleAreMarked(st.AfterSweep(now), now)
  {
  }
}
