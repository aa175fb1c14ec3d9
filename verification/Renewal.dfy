/**
 Why a live agent's evidence does not go stale. Deltas renew only what changed; it is the
 periodic full snapshot that renews the rest, so the freshness window has to outlast the
 refresh period and the time since the last publish together.
 */
module Renewal {
  import opened Ordering
  import opened HealthModel
  import opened Store
  import opened Readiness
  import opened Server
  import opened Sender
  import P = Protocol
  import opened Delivery
  import opened Encodings
  import opened Bystanders
  import opened Agreement

  // ---------------------------------------------------------------- nothing told is older than the last snapshot

  ghost predicate Renewed(who: Who, w: World, skew: int) {
    InStep(who, w) ==>
      && w.sink.lastSnapshot.Some? && w.sink.lastSnapshot.value - skew <= w.sys.clock
      && forall s :: s in w.told ==> w.told[s].at >= w.sink.lastSnapshot.value - skew
  }

  lemma ToldAfterIsYoung(who: Who, w: World, f: Findings, since: int, s: Subject)
    requires Lands(who, w, f) && s in ToldAfter(who, w, f) && since <= w.sys.clock
    requires !w.sink.Full(f.at) ==> forall t :: t in w.told ==> w.told[t].at >= since
    ensures ToldAfter(who, w, f)[s].at >= since
  {
    hide Saying, Heeded, ToldByFull, ToldByDeltas, Usurped, SinkState.Succeeds, SinkState.Full;
    ToldByFullAt(w.sys.registry.index, who.node, f.snap, w.sys.clock, s);
    ToldByDeltasAt(w.told, w.sys.registry.index, who.node, f.snap, w.sys.clock, s);
  }

  /** The last snapshot after a publish that got through: this one, or one within the refresh period. */
  lemma SnapshotAge(k: SinkState, f: Findings)
    requires k.Succeeds(f.snap, f.at, f.room)
    ensures
      var k' := k.AfterPublish(f.snap, f.at, f.room);
      && k'.lastSnapshot.Some?
      && k'.lastSnapshot == (if k.Full(f.at) then Some(f.at) else k.lastSnapshot)
      && (!k.Full(f.at) ==> f.at - k.lastSnapshot.value < k.refresh)
  {
    hide FullPayloads, DeltaPayloads;
  }

  lemma NotLanded(setup: Setup, w: World, f: Findings)
    requires Good(setup, w) && !Lands(setup.who, w, f)
    ensures !InStep(setup.who, Swept(setup, w, f))
  {
    hide Arrived, SinkState.AfterPublish, SinkState.Succeeds, ToldStands, SeqBound, Retained, Reported, ToldAfter, ProbesAfter,
      Coherent, NothingElse, OthersBehave, P.Sound, Swept, OwnSession, PathsPending;
    GoodParts(setup, w);
    SweptParts(setup, w, f);
    if Usurped(setup.who, w) {
      UsurpedStays(setup.who, w, f);
    }
  }

  lemma InStepIsOwn(who: Who, w: World)
    requires InStep(who, w)
    ensures w.own.Some?
  {
  }

  lemma PublishRenews(setup: Setup, w: World, f: Findings, skew: int)
    requires Good(setup, w) && Renewed(setup.who, w, skew) && f.at == w.sys.clock + skew && Sweeps(setup.mode, w, f)
    ensures Renewed(setup.who, Swept(setup, w, f), skew)
    ensures Lands(setup.who, w, f) ==>
      var w' := Swept(setup, w, f);
      && InStep(setup.who, w') && w'.sink.lastSnapshot.Some? && w'.sys.clock == w.sys.clock
      && (0 <= w.sink.refresh ==> f.at - w.sink.refresh <= w'.sink.lastSnapshot.value)
  {
    hide Good, Sweeps, Swept, Arrived, SinkState.AfterPublish, SinkState.Succeeds, SinkState.Full, ToldAfter, InStep, Retained,
      Reported, ProbesAfter, Usurped;
    var who, w' := setup.who, Swept(setup, w, f);
    if Lands(who, w, f) {
      GoodParts(setup, w);
      SweptParts(setup, w, f);
      PublishKeeps(setup, w, f);
      InStepIsOwn(who, w');
      SnapshotAge(w.sink, f);
      if !w.sink.Full(f.at) {
        OwedIsFull(setup, w, f);
      }
      forall s | s in w'.told ensures w'.told[s].at >= w'.sink.lastSnapshot.value - skew {
        ToldAfterIsYoung(who, w, f, w'.sink.lastSnapshot.value - skew, s);
      }
    } else {
      NotLanded(setup, w, f);
    }
  }

  /** The agent's clock runs a fixed distance from the controller's. */
  ghost predicate InTime(h: History, skew: int) {
    |h.worlds| == |h.events| + 1
    && forall i :: 0 <= i < |h.events| && h.events[i].SweepAndPublish? ==> h.events[i].f.at == h.worlds[i].sys.clock + skew
  }

  lemma AroundRenews(setup: Setup, w: World, e: P.Event, w': World, skew: int)
    requires Good(setup, w) && Renewed(setup.who, w, skew) && Step(setup, w, Elsewhere(e), w')
    ensures Renewed(setup.who, w', skew)
  {
    hide Good, P.Next, P.Sound, Around, Loses, StoreState.Current, TakesOver;
    GoodSystem(setup, w);
    P.StepKeepsTime(w.sys, e, w'.sys);
    AroundAuthority(setup.who, w, e, w'.sys);
  }

  lemma StepRenews(setup: Setup, w: World, e: Event, w': World, skew: int)
    requires Good(setup, w) && Renewed(setup.who, w, skew) && Step(setup, w, e, w')
    requires e.SweepAndPublish? ==> e.f.at == w.sys.clock + skew
    ensures Renewed(setup.who, w', skew)
  {
    hide Good, P.Next, Sweeps, Swept, Around, Surviving, NewSession;
    match e {
      case SweepAndPublish(f) => PublishRenews(setup, w, f, skew);
      case Elsewhere(x) => AroundRenews(setup, w, x, w', skew);
      case _ =>
    }
  }

  /** Over every run, nothing an agent in step has told is older than its last snapshot. */
  lemma {:induction false} AlwaysRenewed(setup: Setup, h: History, n: nat, skew: int)
    requires IsHistory(setup, h) && InTime(h, skew) && n < |h.worlds|
    ensures Renewed(setup.who, h.worlds[n], skew)
  {
    if n > 0 {
      hide Good, Renewed, Step, Start;
      AlwaysRenewed(setup, h, n - 1, skew);
      RunGood(setup, h, n - 1);
      assert StepAt(setup, h, n - 1);
      StepRenews(setup, h.worlds[n - 1], h.events[n - 1], h.worlds[n], skew);
    } else {
      hide Step;
    }
  }

  // ---------------------------------------------------------------- what is not disturbed stays

  /**
   The step may replace or take away what was told on the subject: a controller restart, a
   full publish that goes out, deltas that speak of it, or something elsewhere that loses
   it. A lost stream, a publish without one, and a snapshot broken off do not.
   */
  predicate Disturbs(w: World, e: Event, s: Subject) {
    match e
    case Restart => true
    case SweepAndPublish(f) =>
      w.own.Some? && if w.sink.Full(f.at) then w.sink.Succeeds(f.snap, f.at, f.room) else InDeltas(f.snap, s)
    case Elsewhere(x) => Loses(w.sys, x, s)
    case _ => false
  }

  lemma StepSpares(setup: Setup, w: World, e: Event, w': World, s: Subject)
    requires Good(setup, w) && Step(setup, w, e, w') && s in w.told && !Disturbs(w, e, s)
    ensures s in w'.told && w'.told[s] == w.told[s]
  {
    hide Good, Sweeps, Swept, Around, P.Next, Loses, SinkState.Succeeds, SinkState.Full, Saying, Heeded, ToldByFull, ToldByDeltas,
      NewSession, EmptyStore;
    match e {
      case SweepAndPublish(f) =>
        GoodParts(setup, w);
        ToldIsAfter(setup, w, f);
        ToldByDeltasAt(w.told, w.sys.registry.index, setup.who.node, f.snap, w.sys.clock, s);
      case _ =>
    }
  }

  ghost predicate Undisturbed(h: History, m: int, n: int, s: Subject) {
    && 0 <= m <= n < |h.worlds| == |h.events| + 1
    && forall i :: m <= i < n ==> !Disturbs(h.worlds[i], h.events[i], s)
  }

  lemma UndisturbedBefore(h: History, m: int, n: int, s: Subject)
    requires Undisturbed(h, m, n, s) && m < n
    ensures n <= |h.events| && |h.worlds| == |h.events| + 1
    ensures Undisturbed(h, m, n - 1, s) && !Disturbs(h.worlds[n - 1], h.events[n - 1], s)
  {
    hide Disturbs;
  }

  lemma SparedAt(setup: Setup, h: History, n: nat, s: Subject)
    requires IsHistory(setup, h) && n < |h.events| && s in h.worlds[n].told && !Disturbs(h.worlds[n], h.events[n], s)
    ensures s in h.worlds[n + 1].told && h.worlds[n + 1].told[s] == h.worlds[n].told[s]
  {
    hide Good, Start, Step, Disturbs;
    RunGood(setup, h, n);
    assert StepAt(setup, h, n);
    StepSpares(setup, h.worlds[n], h.events[n], h.worlds[n + 1], s);
  }

  /** What was told on a subject stays told until something disturbs it, through outages and failed publishes. */
  lemma {:induction false} ToldLasts(setup: Setup, h: History, m: nat, n: nat, s: Subject)
    requires IsHistory(setup, h) && Undisturbed(h, m, n, s) && s in h.worlds[m].told
    ensures s in h.worlds[n].told && h.worlds[n].told[s] == h.worlds[m].told[s]
    decreases n - m
  {
    if m < n {
      hide IsHistory, Undisturbed, Disturbs;
      UndisturbedBefore(h, m, n, s);
      ToldLasts(setup, h, m, n - 1, s);
      SparedAt(setup, h, n - 1, s);
    }
  }

  // ---------------------------------------------------------------- and is answered

  function StateOf(st: StoreState, s: Subject, now: int): State {
    match s.kind
    case LocalKind => st.LocalState(s.key, now)
    case PathKind => st.PathState(s.key, now)
  }

  lemma FreshIsAnswered(st: StoreState, who: Who, s: Subject, word: Word, now: int)
    requires Holds(st, who, s, word) && now - word.at <= st.ttl
    ensures StateOf(st, s, now) == if word.verdict then Healthy else Unhealthy
  {
  }

  lemma SpokenWord(setup: Setup, w: World, f: Findings, s: Subject)
    requires Good(setup, w) && Sweeps(setup.mode, w, f) && Lands(setup.who, w, f)
    requires s in Swept(setup, w, f).told && Saying(f.snap, s).Some?
    ensures Swept(setup, w, f).told[s].verdict == Saying(f.snap, s).value
  {
    hide Good, Sweeps, Lands, Swept, Saying, Holds, HeldLocally, Live;
    LandedSpeaks(setup, w, f);
  }

  /**
   Lease renewal. While no more than d has passed since a publish that got through, and
   refresh and d together fit the freshness window, what that sweep said on a subject, if
   it was taken in, is what the controller answers: never unknown, until something
   disturbs it. That the stream has been lost and sweeps since then went nowhere, or that
   publishes since then spoke of other things, makes no difference.
   */
  lemma EvidenceStaysFresh(setup: Setup, h: History, m: nat, n: nat, skew: int, d: int, s: Subject)
    requires IsHistory(setup, h) && InTime(h, skew) && m < n < |h.worlds|
    requires h.events[m].SweepAndPublish? && Lands(setup.who, h.worlds[m], h.events[m].f)
    requires s in h.worlds[m + 1].told && Saying(h.events[m].f.snap, s).Some? && Undisturbed(h, m + 1, n, s)
    requires h.worlds[n].sys.clock <= h.worlds[m].sys.clock + d
    requires 0 <= h.worlds[m].sink.refresh && h.worlds[m].sink.refresh + d <= h.worlds[n].sys.store.ttl
    ensures
      StateOf(h.worlds[n].sys.store, s, h.worlds[n].sys.clock)
        == if Saying(h.events[m].f.snap, s).value then Healthy else Unhealthy
  {
    hide Good, Start, Sweeps, Lands, Swept, StoreState.Current, Disturbs, Saying, Holds, StateOf;
    var w, f, wn := h.worlds[m], h.events[m].f, h.worlds[n];
    RunGood(setup, h, m);
    AlwaysRenewed(setup, h, m, skew);
    assert StepAt(setup, h, m);
    PublishRenews(setup, w, f, skew);
    SpokenWord(setup, w, f, s);
    ToldLasts(setup, h, m + 1, n, s);
    ToldIsHeld(setup, h, n, s);
    FreshIsAnswered(wn.sys.store, setup.who, s, wn.told[s], wn.sys.clock);
  }

  /** Everything these findings said is what the store answers now. */
  ghost predicate Answers(st: StoreState, snap: Snapshot, now: int) {
    forall s :: Saying(snap, s).Some? ==> StateOf(st, s, now) == if Saying(snap, s).value then Healthy else Unhealthy
  }

  lemma SaidIsWhole(w: World, f: Findings, told: Told, s: Subject)
    requires Whole(told, Retained(w.prev, f.snap.locals), Reported(f.snap.paths)) && Saying(f.snap, s).Some?
    ensures s in told
  {
    hide Retained, Reported, Saying;
    SayingMeaning(w.prev, f.snap, s);
    assert s == Subject(s.kind, s.key);
  }

  /** So if the registry takes the whole sweep, and it was a snapshot or all had been told, the whole of it is answered. */
  lemma SweepStaysFresh(setup: Setup, h: History, m: nat, n: nat, skew: int, d: int)
    requires IsHistory(setup, h) && InTime(h, skew) && m < n < |h.worlds|
    requires h.events[m].SweepAndPublish? && Lands(setup.who, h.worlds[m], h.events[m].f)
    requires
      var w, f := h.worlds[m], h.events[m].f;
      && Matches(w.sys.registry.index, setup.who.node, f.snap)
      && (w.sink.Full(f.at) || Whole(w.told, w.prev, w.verdicts))
    requires forall s :: Saying(h.events[m].f.snap, s).Some? ==> Undisturbed(h, m + 1, n, s)
    requires h.worlds[n].sys.clock <= h.worlds[m].sys.clock + d
    requires 0 <= h.worlds[m].sink.refresh && h.worlds[m].sink.refresh + d <= h.worlds[n].sys.store.ttl
    ensures Answers(h.worlds[n].sys.store, h.events[m].f.snap, h.worlds[n].sys.clock)
  {
    hide Good, Start, Sweeps, Lands, Swept, Undisturbed, Saying, StateOf, Matches, Whole, InTime, Retained, Reported, ToldAfter,
      SinkState.Full;
    var w, f := h.worlds[m], h.events[m].f;
    RunGood(setup, h, m);
    assert StepAt(setup, h, m);
    GoodParts(setup, w);
    ToldIsAfter(setup, w, f);
    LandedWhole(setup, w, f);
    forall s | Saying(f.snap, s).Some?
      ensures StateOf(h.worlds[n].sys.store, s, h.worlds[n].sys.clock) == if Saying(f.snap, s).value then Healthy else Unhealthy
    {
      SaidIsWhole(w, f, h.worlds[m + 1].told, s);
      EvidenceStaysFresh(setup, h, m, n, skew, d, s);
    }
  }

  // ---------------------------------------------------------------- and decides readiness

  /** Position i holds the sweep's last word on the attachment. */
  predicate LastLocal(snap: Snapshot, id: Key, i: int) {
    0 <= i < |snap.locals| && snap.locals[i].attachmentID == id
    && forall k :: i < k < |snap.locals| ==> snap.locals[k].attachmentID != id
  }

  predicate LastPath(snap: Snapshot, key: Key, j: int) {
    0 <= j < |snap.paths| && snap.paths[j].scopeID == key
    && forall k :: j < k < |snap.paths| ==> snap.paths[k].scopeID != key
  }

  lemma LastLocalSays(snap: Snapshot, id: Key, i: int)
    requires LastLocal(snap, id, i)
    ensures
      var r := snap.locals[i];
      Saying(snap, Subject(LocalKind, id)) == Some(r.interfaceExists && r.addressPresent && r.linkUsable)
  {
    var k := LastForMeaning(snap.locals, LocalKey, id);
    hide LastFor;
    assert snap.locals[i] in snap.locals;
    assert k == i;
  }

  lemma LastPathSays(snap: Snapshot, key: Key, j: int)
    requires LastPath(snap, key, j)
    ensures Saying(snap, Subject(PathKind, key)) == Some(snap.paths[j].pathReady)
  {
    var k := LastForMeaning(snap.paths, PathReportKey, key);
    hide LastFor;
    assert snap.paths[j] in snap.paths;
    assert k == j;
  }

  lemma StatesDecide(a: Attachment, scope: ProbeScope, st: StoreState, now: int)
    ensures
      var pk := match scope case Endpoint => a.ID() case Node => PathDomainID(a.nodeName, a.nad);
      ComputeReady(a, scope, st, now).ready <==>
        && a.podReady
        && StateOf(st, Subject(LocalKind, a.ID()), now) == Healthy && StateOf(st, Subject(PathKind, pk), now) == Healthy
  {
    ReadyIsFiveTerms(a, scope, st, now);
  }

  /** The controller took this statement of sweep m, and nothing has disturbed it since. */
  ghost predicate Standing(h: History, m: nat, n: nat, s: Subject) {
    && m < n < |h.worlds| == |h.events| + 1
    && s in h.worlds[m + 1].told && Undisturbed(h, m + 1, n, s)
  }

  /**
   From observation to decision. While a publish that got through is recent enough, an
   attachment the sweep observed is decided ready exactly when its Pod is, its interface
   was there with its address on a usable link, and its path was found ready, under its
   own ID at Endpoint scope and under the domain of its node and network at Node scope.
   */
  lemma SweepDecides(setup: Setup, h: History, m: nat, n: nat, skew: int, d: int, a: Attachment, scope: ProbeScope, i: int, j: int)
    requires IsHistory(setup, h) && InTime(h, skew) && m < n < |h.worlds|
    requires h.events[m].SweepAndPublish? && Lands(setup.who, h.worlds[m], h.events[m].f)
    requires LastLocal(h.events[m].f.snap, a.ID(), i) && Standing(h, m, n, Subject(LocalKind, a.ID()))
    requires
      var pk := match scope case Endpoint => a.ID() case Node => PathDomainID(a.nodeName, a.nad);
      LastPath(h.events[m].f.snap, pk, j) && Standing(h, m, n, Subject(PathKind, pk))
    requires h.worlds[n].sys.clock <= h.worlds[m].sys.clock + d
    requires 0 <= h.worlds[m].sink.refresh && h.worlds[m].sink.refresh + d <= h.worlds[n].sys.store.ttl
    ensures
      var r, p, w := h.events[m].f.snap.locals[i], h.events[m].f.snap.paths[j], h.worlds[n];
      ComputeReady(a, scope, w.sys.store, w.sys.clock).ready <==>
        a.podReady && r.interfaceExists && r.addressPresent && r.linkUsable && p.pathReady
  {
    hide IsHistory, InTime, Lands, Undisturbed, Saying, StateOf, ComputeReady, LastLocal, LastPath;
    var pk := match scope case Endpoint => a.ID() case Node => PathDomainID(a.nodeName, a.nad);
    var snap := h.events[m].f.snap;
    LastLocalSays(snap, a.ID(), i);
    LastPathSays(snap, pk, j);
    EvidenceStaysFresh(setup, h, m, n, skew, d, Subject(LocalKind, a.ID()));
    EvidenceStaysFresh(setup, h, m, n, skew, d, Subject(PathKind, pk));
    StatesDecide(a, scope, h.worlds[n].sys.store, h.worlds[n].sys.clock);
  }

  lemma AssumedSays(w: World, f: Findings, id: Key, i: int)
    requires Sweeps(PathAssumeReady, w, f) && LastLocal(f.snap, id, i)
    ensures LastPath(f.snap, id, i)
    ensures f.snap.paths[i] == PathHealth(Endpoint, id, "", f.snap.locals[i].nad, "(assumed)", true, f.at)
  {
    hide ChangedIn, Live;
  }

  /** And where paths are assumed ready, at Endpoint scope, the local findings alone decide. */
  lemma AssumedDecides(setup: Setup, h: History, m: nat, n: nat, skew: int, d: int, a: Attachment, i: int)
    requires setup.mode.PathAssumeReady?
    requires IsHistory(setup, h) && InTime(h, skew) && m < n < |h.worlds|
    requires h.events[m].SweepAndPublish? && Lands(setup.who, h.worlds[m], h.events[m].f)
    requires LastLocal(h.events[m].f.snap, a.ID(), i)
    requires Standing(h, m, n, Subject(LocalKind, a.ID())) && Standing(h, m, n, Subject(PathKind, a.ID()))
    requires h.worlds[n].sys.clock <= h.worlds[m].sys.clock + d
    requires 0 <= h.worlds[m].sink.refresh && h.worlds[m].sink.refresh + d <= h.worlds[n].sys.store.ttl
    ensures
      var r, w := h.events[m].f.snap.locals[i], h.worlds[n];
      ComputeReady(a, Endpoint, w.sys.store, w.sys.clock).ready <==>
        a.podReady && r.interfaceExists && r.addressPresent && r.linkUsable
  {
    hide Start, Swept, Sweeps, InTime, Lands, Standing, ComputeReady, LastLocal, LastPath;
    assert StepAt(setup, h, m);
    AssumedSays(h.worlds[m], h.events[m].f, a.ID(), i);
    SweepDecides(setup, h, m, n, skew, d, a, Endpoint, i, i);
  }
}
