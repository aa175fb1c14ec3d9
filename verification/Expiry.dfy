/**
 Expiry accounting (internal/controller/expiry.go and the sweeping half of
 health_store.go): an acceptance is reported stale at most once, and has been when a
 prune within one window of a sweep removes it; and no attachment stops being ready by
 the mere passage of time without its Services being told at the next sweep.
 */
module Expiry {
  import opened HealthModel
  import opened Store
  import opened Readiness
  import opened RegistryIndex
  import opened Server
  import opened Protocol
  import opened Leases
  import opened Notification

  /** A sweep now would report this key. */
  predicate Expiring(st: StoreState, kind: Kind, k: Key, now: int) {
    && EvidenceAt(st, kind, k).Some? && !MarkedExpired(st, kind, k)
    && now - EvidenceAt(st, kind, k).value.acceptedAt > st.ttl
  }

  lemma ReportsExpiring(st: StoreState, x: Expired, now: int)
    ensures st.Reports(x, now) ==> Expiring(st, x.kind, x.id, now)
    ensures Expiring(st, x.kind, x.id, now) ==> exists node :: st.Reports(Expired(x.kind, x.id, node), now)
  {
    if Expiring(st, x.kind, x.id, now) {
      var node := if x.kind == LocalKind then st.local[x.id].report.nodeName else st.path[x.id].report.nodeName;
      assert st.Reports(Expired(x.kind, x.id, node), now);
    }
  }

  ghost predicate ReportedAt(r: Run, i: int, kind: Kind, k: Key) {
    && 0 <= i < |r.events| && |r.states| == |r.events| + 1 && r.events[i].Sweep?
    && Expiring(r.states[i].store, kind, k, r.states[i].clock)
  }

  /** Step m accepted a report under k. */
  ghost predicate AcceptedAt(r: Run, m: int, kind: Kind, k: Key) {
    && 0 <= m < |r.events| && |r.states| == |r.events| + 1 && r.events[m].Deliver?
    && var s, e := r.states[m], r.events[m];
       e.stream in s.sessions && Accepts(s.sessions[e.stream], s.store, s.registry.index, e.env, kind, k)
  }

  /** Marks come from sweeps alone. */
  lemma StepMarks(s: System, e: Event, s': System, kind: Kind, k: Key)
    requires Sound(s) && Next(s, e, s') && MarkedExpired(s'.store, kind, k)
    ensures EvidenceAt(s.store, kind, k) == EvidenceAt(s'.store, kind, k)
    ensures MarkedExpired(s.store, kind, k) || (e.Sweep? && Expiring(s.store, kind, k, s.clock))
  {
    if e.Deliver? {
      TurnProvenance(s.sessions[e.stream], s.store, s.registry.index, e.env, s.clock, kind, k);
    }
    hide RegistryState.Valid, Handle, Heard, Admit;
  }

  lemma SweepMarks(s: System, s': System, kind: Kind, k: Key)
    requires Next(s, Sweep, s') && Expiring(s.store, kind, k, s.clock)
    ensures MarkedExpired(s'.store, kind, k) && EvidenceAt(s'.store, kind, k) == EvidenceAt(s.store, kind, k)
  {
  }

  /** Where a step accepts nothing, an unmarked entry was there, unmarked, before. */
  lemma UnacceptedKeepsMark(s: System, e: Event, s': System, kind: Kind, k: Key)
    requires Sound(s) && Next(s, e, s')
    requires e.Deliver? && e.stream in s.sessions ==> !Accepts(s.sessions[e.stream], s.store, s.registry.index, e.env, kind, k)
    requires EvidenceAt(s'.store, kind, k).Some? && !MarkedExpired(s'.store, kind, k)
    ensures EvidenceAt(s.store, kind, k).Some? && !MarkedExpired(s.store, kind, k)
  {
    if e.Deliver? {
      TurnAccepts(s.sessions[e.stream], s.store, s.registry.index, e.env, s.clock, kind, k);
    }
    hide RegistryState.Valid, Handle, Accepts, Admit;
  }

  /** An entry that is not marked, where it was before, has been accepted anew in between. */
  lemma {:induction false} FindRenewal(r: Run, i: nat, j: nat, kind: Kind, k: Key) returns (m: int)
    requires IsRun(r) && i <= j < |r.states| && MarkedExpired(r.states[i].store, kind, k)
    requires EvidenceAt(r.states[j].store, kind, k).Some? && !MarkedExpired(r.states[j].store, kind, k)
    ensures i <= m < j && AcceptedAt(r, m, kind, k)
  {
    hide Next, Sound, EvidenceAt, MarkedExpired, Init, Accepts;
    m := j - 1;
    StepOf(r, m);
    RunSound(r, m);
    if !AcceptedAt(r, m, kind, k) {
      UnacceptedKeepsMark(r.states[m], r.events[m], r.states[j], kind, k);
      m := FindRenewal(r, i, m, kind, k);
    }
  }

  /** Each acceptance is reported by at most one sweep. */
  lemma ReportedAtMostOnce(r: Run, i: nat, j: nat, kind: Kind, k: Key) returns (m: int)
    requires IsRun(r) && i < j && ReportedAt(r, i, kind, k) && ReportedAt(r, j, kind, k)
    ensures i < m < j && AcceptedAt(r, m, kind, k)
  {
    hide Next, Init, EvidenceAt, MarkedExpired, Accepts;
    StepOf(r, i);
    SweepMarks(r.states[i], r.states[i + 1], kind, k);
    m := FindRenewal(r, i + 1, j, kind, k);
  }

  /** Whatever carries a mark was reported, and has not been replaced since. */
  lemma {:induction false} MarkedWasReported(r: Run, n: nat, kind: Kind, k: Key) returns (p: int)
    requires IsRun(r) && n < |r.states| && MarkedExpired(r.states[n].store, kind, k)
    ensures p < n && ReportedAt(r, p, kind, k)
    ensures EvidenceAt(r.states[p].store, kind, k) == EvidenceAt(r.states[n].store, kind, k)
  {
    NothingAtStart(r, kind, k);
    if n > 0 {
      StepOf(r, n - 1);
      RunSound(r, n - 1);
      StepMarks(r.states[n - 1], r.events[n - 1], r.states[n], kind, k);
      if MarkedExpired(r.states[n - 1].store, kind, k) {
        p := MarkedWasReported(r, n - 1, kind, k);
      } else {
        p := n - 1;
      }
    }
    hide Next, Sound, Init;
  }

  lemma StepKeepsMark(s: System, e: Event, s': System, kind: Kind, k: Key)
    requires Sound(s) && Next(s, e, s') && MarkedExpired(s.store, kind, k)
    requires EvidenceAt(s'.store, kind, k).Some? && EvidenceAt(s'.store, kind, k).value.acceptedAt < s.clock
    ensures MarkedExpired(s'.store, kind, k)
  {
    hide Next, Sound, EvidenceAt, MarkedExpired;
    StepProvenance(s, e, s', kind, k);
  }

  /** From state i to state j one acceptance stands under the key. */
  ghost predicate Steady(r: Run, i: nat, j: nat, kind: Kind, k: Key)
    requires i <= j < |r.states|
  {
    forall m :: i <= m <= j ==> EvidenceAt(r.states[m].store, kind, k) == EvidenceAt(r.states[j].store, kind, k)
  }

  lemma SteadyBefore(r: Run, i: nat, j: nat, kind: Kind, k: Key)
    requires i < j < |r.states| && Steady(r, i, j, kind, k)
    ensures Steady(r, i, j - 1, kind, k)
    ensures EvidenceAt(r.states[j - 1].store, kind, k) == EvidenceAt(r.states[j].store, kind, k)
  {
    hide EvidenceAt;
  }

  lemma MarkStepAt(r: Run, i: nat, n: nat, kind: Kind, k: Key)
    requires IsRun(r) && i <= n < |r.events| && MarkedExpired(r.states[n].store, kind, k)
    requires EvidenceAt(r.states[n + 1].store, kind, k).Some?
    requires EvidenceAt(r.states[n + 1].store, kind, k).value.acceptedAt < r.states[i].clock
    ensures MarkedExpired(r.states[n + 1].store, kind, k)
  {
    hide Next, Sound, EvidenceAt, MarkedExpired, Init, StepAt;
    StepOf(r, n);
    RunSound(r, n);
    ClockMonotone(r, i, n);
    StepKeepsMark(r.states[n], r.events[n], r.states[n + 1], kind, k);
  }

  /** An entry keeps its mark as long as it is the same acceptance. */
  lemma {:induction false} MarkLasts(r: Run, i: nat, j: nat, kind: Kind, k: Key)
    requires IsRun(r) && i <= j < |r.states| && MarkedExpired(r.states[i].store, kind, k)
    requires Steady(r, i, j, kind, k)
    requires EvidenceAt(r.states[j].store, kind, k).Some?
    requires EvidenceAt(r.states[j].store, kind, k).value.acceptedAt < r.states[i].clock
    ensures MarkedExpired(r.states[j].store, kind, k)
  {
    if i < j {
      hide EvidenceAt, MarkedExpired, Init, Steady, StepAt;
      SteadyBefore(r, i, j, kind, k);
      MarkLasts(r, i, j - 1, kind, k);
      MarkStepAt(r, i, j - 1, kind, k);
    }
  }

  lemma PruneDrops(s: System, s': System, kind: Kind, k: Key)
    requires Next(s, Prune, s') && EvidenceAt(s.store, kind, k).Some?
    ensures EvidenceAt(s'.store, kind, k).None? <==>
      EvidenceAt(s.store, kind, k).value.acceptedAt < s.clock - 2 * s.store.ttl
  {
  }

  /**
   If a prune at step j runs within one freshness window of a sweep at step i, then
   everything it removes had been reported by then, as the very acceptance removed.
   */
  lemma PrunedWasReported(r: Run, i: nat, j: nat, kind: Kind, k: Key) returns (p: int)
    requires IsRun(r) && i < j < |r.events| && r.events[i].Sweep? && r.events[j].Prune?
    requires r.states[j].clock <= r.states[i].clock + r.states[i].store.ttl
    requires EvidenceAt(r.states[j].store, kind, k).Some? && EvidenceAt(r.states[j + 1].store, kind, k).None?
    ensures p < j && ReportedAt(r, p, kind, k)
    ensures EvidenceAt(r.states[p].store, kind, k) == EvidenceAt(r.states[j].store, kind, k)
  {
    hide Next, Sound, EvidenceAt, MarkedExpired, Init, Received, Speaking;
    StepOf(r, j);
    PruneDrops(r.states[j], r.states[j + 1], kind, k);
    ClockMonotone(r, i, j);
    var w := EvidenceIsBacked(r, j, kind, k);
    if i <= w.taken {
      ClockMonotone(r, i, w.taken);
    }
    StepOf(r, i);
    if Expiring(r.states[i].store, kind, k, r.states[i].clock) {
      SweepMarks(r.states[i], r.states[i + 1], kind, k);
    } else {
      MarkLasts(r, i, i + 1, kind, k);
    }
    ClockMonotone(r, i, i + 1);
    MarkLasts(r, i + 1, j, kind, k);
    p := MarkedWasReported(r, j, kind, k);
  }

  // ---------------------------------------------------------------- the sweeper

  /** Services re-enqueued for one expired entry. */
  function ExpiredOwners(ix: Index, x: Expired): set<ServiceKey> {
    if x.kind == LocalKind then LocalOwners(ix, x.id) else PathOwners(ix, x.id)
  }

  ghost predicate SweepNotifies(st: StoreState, ix: Index, now: int, s: ServiceKey) {
    exists x :: st.Reports(x, now) && s in ExpiredOwners(ix, x)
  }

  /** The state just before the sweep: some claim of this Service stopped being ready with no report arriving. */
  ghost predicate Lapsed(r: Run, n: int, m: int, c: Claim) {
    && 0 <= n <= m < |r.states|
    && ReadyNow(c, r.states[n].store, r.states[n].clock)
    && EvidenceAt(r.states[n].store, LocalKind, c.id) == EvidenceAt(r.states[m].store, LocalKind, c.id)
    && EvidenceAt(r.states[n].store, PathKind, c.pathKey) == EvidenceAt(r.states[m].store, PathKind, c.pathKey)
    && !ReadyNow(c, r.states[m].store, r.states[m].clock)
  }

  /** No sweep from state n up to state m found this key newly stale. */
  ghost predicate NotReportedBetween(r: Run, n: nat, m: int, kind: Kind, k: Key) {
    && |r.states| == |r.events| + 1
    && forall p :: n <= p < m && p < |r.events| && r.events[p].Sweep? ==> !Expiring(r.states[p].store, kind, k, r.states[p].clock)
  }

  lemma FreshIsUnmarked(r: Run, n: nat, m: nat, kind: Kind, k: Key)
    requires IsRun(r) && n <= m < |r.events| && NotReportedBetween(r, n, m, kind, k)
    requires EvidenceAt(r.states[n].store, kind, k).Some?
    requires EvidenceAt(r.states[n].store, kind, k) == EvidenceAt(r.states[m].store, kind, k)
    requires r.states[n].clock - EvidenceAt(r.states[n].store, kind, k).value.acceptedAt <= r.states[n].store.ttl
    ensures !MarkedExpired(r.states[m].store, kind, k)
  {
    hide Next, Sound, EvidenceAt, MarkedExpired, Init;
    if MarkedExpired(r.states[m].store, kind, k) {
      var p := MarkedWasReported(r, m, kind, k);
      if p < n {
        ClockMonotone(r, p, n);
      }
    }
  }

  lemma ExpiringNotifies(st: StoreState, ix: Index, now: int, c: Claim)
    requires c.service in LocalOwners(ix, c.id) && c.service in PathOwners(ix, c.pathKey)
    ensures Expiring(st, LocalKind, c.id, now) || Expiring(st, PathKind, c.pathKey, now) ==> SweepNotifies(st, ix, now, c.service)
  {
    hide LocalOwners, PathOwners;
    ReportsExpiring(st, Expired(LocalKind, c.id, ""), now);
    ReportsExpiring(st, Expired(PathKind, c.pathKey, ""), now);
    if Expiring(st, LocalKind, c.id, now) {
      var node :| st.Reports(Expired(LocalKind, c.id, node), now);
      assert c.service in ExpiredOwners(ix, Expired(LocalKind, c.id, node));
    } else if Expiring(st, PathKind, c.pathKey, now) {
      var node :| st.Reports(Expired(PathKind, c.pathKey, node), now);
      assert c.service in ExpiredOwners(ix, Expired(PathKind, c.pathKey, node));
    }
  }

  /**
   No readiness is lost silently to the passage of time: the first sweep to find a
   formerly ready claim's evidence stale notifies the claiming Service.
   */
  lemma LapseIsNotified(r: Run, n: nat, m: nat, c: Claim)
    requires IsRun(r) && n <= m < |r.events| && r.events[m].Sweep? && Lapsed(r, n, m, c)
    requires c in Claims(r.states[m].registry.table)
    requires NotReportedBetween(r, n, m, LocalKind, c.id) && NotReportedBetween(r, n, m, PathKind, c.pathKey)
    ensures SweepNotifies(r.states[m].store, r.states[m].registry.index, r.states[m].clock, c.service)
  {
    var st, st' := r.states[n].store, r.states[m].store;
    ClaimKeys(r.states[m].registry, c);
    RunSound(r, m);
    OwnersAreClaimants(r.states[m].registry, c);
    ClockMonotone(r, n, m);
    ReadyIsFiveTerms(c.att, c.scope, st, r.states[n].clock);
    ReadyIsFiveTerms(c.att, c.scope, st', r.states[m].clock);
    FreshIsUnmarked(r, n, m, LocalKind, c.id);
    FreshIsUnmarked(r, n, m, PathKind, c.pathKey);
    hide IsRun, NotReportedBetween, RegistryState.Valid, Claims, ComputeReady, LocalOwners, PathOwners, SweepNotifies,
      Attachment.ID, Attachment.PathKey;
    ExpiringNotifies(st', r.states[m].registry.index, r.states[m].clock, c);
  }

  const SECOND: int := 1_000_000_000

  lemma ExpiredAreReported(st: StoreState, ix: Index, now: int, expired: seq<Expired>, notified: set<ServiceKey>)
    requires forall x :: x in expired <==> st.Reports(x, now)
    requires forall s :: s in notified <==> exists j :: 0 <= j < |expired| && s in ExpiredOwners(ix, expired[j])
    ensures forall s :: s in notified <==> SweepNotifies(st, ix, now, s)
  {
    forall s ensures s in notified <==> SweepNotifies(st, ix, now, s) {
      if s in notified {
        var j :| 0 <= j < |expired| && s in ExpiredOwners(ix, expired[j]);
        assert expired[j] in expired;
      }
      if SweepNotifies(st, ix, now, s) {
        var x :| st.Reports(x, now) && s in ExpiredOwners(ix, x);
        assert x in expired;
      }
    }
    hide StoreState.Reports, ExpiredOwners;
  }

  /** ExpirySweeper.Start's variables; one Tick is one firing of its ticker. */
  class ExpirySweeper {
    const store: HealthStore
    const registry: Registry
    const pruneEvery: int
    var n: int

    ghost predicate Valid()
      reads this
    {
      1 <= pruneEvery && 0 <= n < pruneEvery
    }

    constructor (store: HealthStore, registry: Registry, interval: int)
      ensures Valid() && n == 0 && this.store == store && this.registry == registry
      ensures
        var iv := if interval <= 0 then 1_000_000_000 else interval;
        pruneEvery == if iv > 30_000_000_000 then 1 else 30_000_000_000 / iv
    {
      this.store, this.registry := store, registry;
      var iv := if interval <= 0 then SECOND else interval;
      var every := 30 * SECOND / iv;
      pruneEvery := if every < 1 then 1 else every;
      n := 0;
    }

    method Owners(x: Expired) returns (owners: set<ServiceKey>)
      requires registry.Valid()
      ensures owners == ExpiredOwners(registry.State().index, x)
    {
      hide Indexes, Claims, Owns;
      if x.kind == LocalKind {
        var a, list := registry.Attachment(x.id);
        owners := if a.Some? then set s | s in list else {};
      } else {
        var list, ok := registry.PathKey(x.id);
        owners := set s | s in list;
      }
    }

    method OwnersOfAll(expired: seq<Expired>) returns (notified: set<ServiceKey>)
      requires registry.Valid()
      ensures forall s :: s in notified <==>
        exists j :: 0 <= j < |expired| && s in ExpiredOwners(registry.State().index, expired[j])
    {
      hide Indexes, Claims, ExpiredOwners;
      notified := {};
      for i := 0 to |expired|
        invariant forall s :: s in notified <==>
          exists j :: 0 <= j < i && s in ExpiredOwners(registry.State().index, expired[j])
      {
        var more := Owners(expired[i]);
        notified := notified + more;
      }
    }

    /** The sweep and the prune each read the clock for themselves. */
    method Tick(sweepAt: int, pruneAt: int) returns (notified: set<ServiceKey>)
      requires Valid() && registry.Valid()
      modifies this, store
      ensures Valid() && n == (old(n) + 1) % pruneEvery
      ensures store.State() ==
        if n == 0 then old(store.State()).AfterSweep(sweepAt).AfterPrune(pruneAt)
        else old(store.State()).AfterSweep(sweepAt)
      ensures forall s :: s in notified <==> SweepNotifies(old(store.State()), registry.State().index, sweepAt, s)
    {
      hide Indexes, Claims, Owns, StoreState.AfterSweep, StoreState.AfterPrune, StoreState.Reports, ExpiredOwners;
      ghost var before := store.State();
      var expired := store.SweepExpired(sweepAt);
      notified := OwnersOfAll(expired);
      ExpiredAreReported(before, registry.State().index, sweepAt, expired, notified);
      n := n + 1;
      if n >= pruneEvery {
        n := 0;
        var locals, paths := store.Prune(pruneAt);
      }
    }
  }
}
