/**
 What is published against what is so, over whole runs. Reconciling a Service registers
 its attachments and publishes the ready condition of each; from then on streams, sweeps,
 prunes and time move the evidence, and notifications ask for the Service to be
 reconciled again. A published condition that has become wrong is always accounted for.
 */
module Publication {
  import opened HealthModel
  import Messages
  import opened Store
  import opened StoreLaws
  import opened Readiness
  import opened RegistryIndex
  import opened Server
  import opened Protocol
  import opened Notification
  import opened Expiry

  // ---------------------------------------------------------------- asking for a reconcile

  const CHANNEL_SIZE: nat := 1024

  /** Enqueue never blocks: on a full channel the notification is dropped. */
  function Enqueue(channel: seq<ServiceKey>, key: ServiceKey): seq<ServiceKey> {
    if |channel| < CHANNEL_SIZE then channel + [key] else channel
  }

  function EnqueueAll(channel: seq<ServiceKey>, keys: seq<ServiceKey>): seq<ServiceKey> {
    if keys == [] then channel else Enqueue(EnqueueAll(channel, keys[..|keys| - 1]), keys[|keys| - 1])
  }

  /** What is in the channel stays there; a notification gets in exactly while there is room, and all do if there is for all. */
  lemma {:induction false} EnqueueAllMeaning(channel: seq<ServiceKey>, keys: seq<ServiceKey>)
    ensures channel <= EnqueueAll(channel, keys) && forall k :: k in channel ==> k in EnqueueAll(channel, keys)
    ensures |channel| <= CHANNEL_SIZE ==>
      |EnqueueAll(channel, keys)| == if |channel| + |keys| <= CHANNEL_SIZE then |channel| + |keys| else CHANNEL_SIZE
    ensures |channel| + |keys| <= CHANNEL_SIZE ==> forall k :: k in keys ==> k in EnqueueAll(channel, keys)
    ensures |channel| >= CHANNEL_SIZE ==> EnqueueAll(channel, keys) == channel
  {
    if keys != [] {
      var init, last := keys[..|keys| - 1], keys[|keys| - 1];
      EnqueueAllMeaning(channel, init);
      assert keys == init + [last];
    }
  }

  /** A full channel does not mean that this Service's reconcile is pending: it stays unasked for unless it was asked for before. */
  lemma FullChannelDrops(channel: seq<ServiceKey>, key: ServiceKey, other: ServiceKey)
    ensures key in Enqueue(channel, key) <==> |channel| < 1024 || key in channel
    ensures other != key ==> key !in Enqueue(seq(1024, _ => other), key)
    ensures channel <= Enqueue(channel, key) && |Enqueue(channel, key)| <= |channel| + 1
  {
  }

  /** The controller, the notifications and work under way, and what the last reconciles published. */
  datatype Board = Board(
    sys: System, channel: seq<ServiceKey>, queue: set<ServiceKey>, shown: map<Claim, bool>,
    dropped: set<ServiceKey>,   // history: Services notified into a full channel while not waiting, and not reconciled since
    silenced: set<Claim>,       // history: claims whose evidence a commit changed without a word to their Service
    swept: int)                 // history: when the last sweep ran
  {
    /** A reconcile of the Service has been asked for and is still to come. */
    predicate Waits(key: ServiceKey) {
      key in channel || key in queue
    }
  }

  datatype Move =
    | Happens(e: Event, calls: seq<ServiceKey>)
    | Collect
    | Reconcile(key: ServiceKey, atts: seq<Attachment>, scope: ProbeScope)
    | Withdraw(key: ServiceKey)

  ghost function Called(s: System, e: Event): set<ServiceKey> {
    match e
    case Deliver(i, env) => if i in s.sessions then Turn(s, i, env).notified else {}
    case Sweep => set k | k in s.registry.table && SweepNotifies(s.store, s.registry.index, s.clock, k)
    case _ => {}
  }

  /** The claim's local or path evidence is not what it was. */
  predicate Moved(c: Claim, st: StoreState, st': StoreState) {
    || EvidenceAt(st', LocalKind, c.id) != EvidenceAt(st, LocalKind, c.id)
    || EvidenceAt(st', PathKind, c.pathKey) != EvidenceAt(st, PathKind, c.pathKey)
  }

  ghost function Silenced(s: System, e: Event, s': System): set<Claim> {
    match e
    case Deliver(i, env) =>
      if i in s.sessions && Commits(s, i, env) then
        set c | c in Claims(s.registry.table) && Moved(c, s.store, s'.store) && c.service !in Turn(s, i, env).notified
      else {}
    case _ => {}
  }

  function Without(shown: map<Claim, bool>, key: ServiceKey): map<Claim, bool> {
    map c | c in shown && c.service != key :: shown[c]
  }

  function Computed(key: ServiceKey, atts: seq<Attachment>, scope: ProbeScope, st: StoreState, now: int): map<Claim, bool> {
    map c | c in ClaimsOf(key, scope, atts) :: ReadyNow(c, st, now)
  }

  /** Some order in which the event's notifications were given, perhaps more than once each. */
  ghost predicate Calls(s: System, e: Event, calls: seq<ServiceKey>) {
    forall k :: k in calls <==> k in Called(s, e)
  }

  function Dropped(b: Board, calls: seq<ServiceKey>): set<ServiceKey> {
    set k | k in calls && k !in EnqueueAll(b.channel, calls) && k !in b.queue
  }

  /** A prune follows a sweep in the same tick, so within the freshness window of it. */
  ghost predicate Step(b: Board, m: Move, b': Board) {
    match m
    case Happens(e, calls) =>
      && !e.SetService? && !e.RemoveService? && Next(b.sys, e, b'.sys) && Calls(b.sys, e, calls)
      && (e.Prune? ==> b.sys.clock <= b.swept + b.sys.store.ttl)
      && b' == b.(sys := b'.sys, channel := EnqueueAll(b.channel, calls), dropped := b.dropped + Dropped(b, calls),
                  silenced := b.silenced + Silenced(b.sys, e, b'.sys), swept := if e.Sweep? then b.sys.clock else b.swept)
    case Collect =>
      b.channel != [] && b' == b.(channel := b.channel[1..], queue := b.queue + {b.channel[0]})
    case Reconcile(key, atts, scope) =>
      && Next(b.sys, SetService(key, atts, scope), b'.sys)
      && b' == b.(sys := b'.sys, queue := b.queue - {key}, dropped := b.dropped - {key},
                  shown := Without(b.shown, key) + Computed(key, atts, scope, b.sys.store, b.sys.clock),
                  silenced := set c | c in b.silenced && c.service != key)
    case Withdraw(key) =>
      && Next(b.sys, RemoveService(key), b'.sys)
      && b' == b.(sys := b'.sys, queue := b.queue - {key}, dropped := b.dropped - {key}, shown := Without(b.shown, key),
                  silenced := set c | c in b.silenced && c.service != key)
  }

  ghost predicate Start(b: Board) {
    && Init(b.sys) && 0 <= b.sys.store.ttl
    && b.channel == [] && b.queue == {} && b.dropped == {}
    && b.shown == map[] && b.silenced == {} && b.swept == b.sys.clock
  }

  datatype Diary = Diary(boards: seq<Board>, moves: seq<Move>)

  ghost predicate MoveAt(d: Diary, i: int)
    requires |d.boards| == |d.moves| + 1 && 0 <= i < |d.moves|
  {
    Step(d.boards[i], d.moves[i], d.boards[i + 1])
  }

  ghost predicate IsDiary(d: Diary) {
    && |d.boards| == |d.moves| + 1
    && Start(d.boards[0])
    && forall i :: 0 <= i < |d.moves| ==> MoveAt(d, i)
  }

  // ---------------------------------------------------------------- the invariant

  /** Marks and times are tidy: only stale entries are marked, and what was stale at the last sweep is. */
  predicate EntryTidy<R>(e: Entry<R>, ttl: int, now: int, swept: int) {
    && e.acceptedAt <= now
    && (e.expired ==> Stale(e, ttl, now))
    && (Stale(e, ttl, swept) ==> e.expired)
  }

  ghost predicate Tidy(st: StoreState, now: int, swept: int) {
    && 0 <= st.ttl && swept <= now
    && (forall k :: k in st.local ==> EntryTidy(st.local[k], st.ttl, now, swept))
    && (forall k :: k in st.path ==> EntryTidy(st.path[k], st.ttl, now, swept))
  }

  /** Both entries behind the claim are there, positive and unmarked. */
  predicate Backed(c: Claim, st: StoreState) {
    && c.att.podReady
    && c.id in st.local && st.local[c.id].report.Ready() && !st.local[c.id].expired
    && c.pathKey in st.path && st.path[c.pathKey].report.pathReady && !st.path[c.pathKey].expired
  }

  /** What is published is true, or was when the evidence behind it, not yet marked, was fresh. */
  predicate Stands(c: Claim, shown: bool, st: StoreState, now: int) {
    if shown then Backed(c, st) else !ReadyNow(c, st, now)
  }

  /** There is a reason for the condition of this claim to be wrong. */
  predicate Excused(b: Board, c: Claim) {
    b.Waits(c.service) || c.service in b.dropped || c in b.silenced
  }

  ghost predicate Accounted(b: Board) {
    forall c :: c in b.shown ==> Excused(b, c) || Stands(c, b.shown[c], b.sys.store, b.sys.clock)
  }

  ghost predicate Good(b: Board) {
    && Sound(b.sys) && Tidy(b.sys.store, b.sys.clock, b.swept)
    && b.shown.Keys == Claims(b.sys.registry.table)
    && Accounted(b)
  }

  // ---------------------------------------------------------------- the store in order

  lemma DeliverKeepsOrder(s: System, i: nat, env: Messages.Envelope, swept: int)
    requires Sound(s) && i in s.sessions && Tidy(s.store, s.clock, swept)
    ensures Tidy(Delivered(s, i, env).store, s.clock, swept)
  {
    var st' := Delivered(s, i, env).store;
    TurnKeepsTtl(s.sessions[i], s.store, s.registry.index, env, s.clock);
    hide RegistryState.Valid, Handle, Admit, Heard;
    forall k | k in st'.local ensures EntryTidy(st'.local[k], st'.ttl, s.clock, swept) {
      TurnProvenance(s.sessions[i], s.store, s.registry.index, env, s.clock, LocalKind, k);
    }
    forall k | k in st'.path ensures EntryTidy(st'.path[k], st'.ttl, s.clock, swept) {
      TurnProvenance(s.sessions[i], s.store, s.registry.index, env, s.clock, PathKind, k);
    }
  }

  lemma DeliveredClock(s: System, i: nat, env: Messages.Envelope)
    requires i in s.sessions
    ensures Delivered(s, i, env).clock == s.clock && Delivered(s, i, env).registry == s.registry
  {
    hide Handle;
  }

  lemma StepKeepsOrder(s: System, e: Event, s': System, swept: int)
    requires Sound(s) && Next(s, e, s') && Tidy(s.store, s.clock, swept)
    ensures Tidy(s'.store, s'.clock, if e.Sweep? then s.clock else swept)
  {
    hide RegistryState.Valid, Delivered;
    match e {
      case Deliver(i, env) =>
        DeliverKeepsOrder(s, i, env, swept);
        DeliveredClock(s, i, env);
      case _ =>
    }
  }

  // ---------------------------------------------------------------- one claim through one step

  /** Unmoved evidence, no newly marked entry and no earlier clock: what stood still stands. */
  lemma UnmovedStands(c: Claim, shown: bool, st: StoreState, now: int, st': StoreState, now': int)
    requires c.id == c.att.ID() && c.pathKey == c.att.PathKey(c.scope)
    requires !Moved(c, st, st') && st'.ttl == st.ttl && now <= now'
    requires MarkedExpired(st', LocalKind, c.id) ==> MarkedExpired(st, LocalKind, c.id)
    requires MarkedExpired(st', PathKind, c.pathKey) ==> MarkedExpired(st, PathKind, c.pathKey)
    requires Stands(c, shown, st, now)
    ensures Stands(c, shown, st', now')
  {
    ReadyReads(c, st, st', now);
    if !shown {
      ReadinessOnlyDecays(c.att, c.scope, st', now, now');
    }
    hide ComputeReady, Attachment.ID, Attachment.PathKey;
  }

  lemma EndMoves(s: System, i: nat, env: Messages.Envelope, c: Claim)
    requires Sound(s) && i in s.sessions && env.payload.SnapshotEnd?
    requires Moved(c, s.store, Delivered(s, i, env).store)
    ensures Commits(s, i, env)
  {
    hide RegistryState.Valid, Handle, Admit, EvidenceAt, Commits, OwnersOfLocals, OwnersOfPaths, StoreState.AfterSnapshot;
    EndOutcome(s, i, env);
    AdmitKeepsEvidence(s.sessions[i], s.store, env, c);
  }

  lemma DeltaMoves(s: System, i: nat, env: Messages.Envelope, c: Claim)
    requires Sound(s) && i in s.sessions && c in Claims(s.registry.table) && !env.payload.SnapshotEnd?
    requires Moved(c, s.store, Delivered(s, i, env).store)
    ensures c.service in Turn(s, i, env).notified
  {
    hide RegistryState.Valid, Claims, Handle, LocalOwners, PathOwners, EvidenceAt;
    OwnersAreClaimants(s.registry, c);
    ChangeNotifiesOwners(s.sessions[i], s.store, s.registry.index, env, s.clock, c.id);
    ChangeNotifiesOwners(s.sessions[i], s.store, s.registry.index, env, s.clock, c.pathKey);
  }

  lemma MovedIsCalled(s: System, i: nat, env: Messages.Envelope, c: Claim)
    requires Sound(s) && i in s.sessions && c in Claims(s.registry.table)
    requires Moved(c, s.store, Delivered(s, i, env).store)
    ensures c.service in Turn(s, i, env).notified || c in Silenced(s, Deliver(i, env), Delivered(s, i, env))
  {
    hide RegistryState.Valid, Claims, Handle, Admit, LocalOwners, PathOwners, EvidenceAt, Commits;
    if env.payload.SnapshotEnd? {
      EndMoves(s, i, env, c);
    } else {
      DeltaMoves(s, i, env, c);
    }
  }

  lemma DeliverIsNext(s: System, i: nat, env: Messages.Envelope)
    requires i in s.sessions
    ensures Next(s, Deliver(i, env), Delivered(s, i, env))
    ensures Delivered(s, i, env).clock == s.clock && Delivered(s, i, env).store.ttl == s.store.ttl
  {
    TurnKeepsTtl(s.sessions[i], s.store, s.registry.index, env, s.clock);
    hide Handle;
  }

  lemma UnmarkedStays(s: System, e: Event, s': System, kind: Kind, k: Key)
    requires Sound(s) && Next(s, e, s') && !e.Sweep?
    ensures MarkedExpired(s'.store, kind, k) ==> MarkedExpired(s.store, kind, k)
  {
    hide Next, Sound, EvidenceAt, MarkedExpired;
    if MarkedExpired(s'.store, kind, k) {
      StepMarks(s, e, s', kind, k);
    }
  }

  lemma DeliverStands(s: System, i: nat, env: Messages.Envelope, c: Claim, shown: bool)
    requires Sound(s) && i in s.sessions && c in Claims(s.registry.table)
    requires Stands(c, shown, s.store, s.clock)
    ensures
      var s' := Delivered(s, i, env);
      || c.service in Turn(s, i, env).notified || c in Silenced(s, Deliver(i, env), s')
      || Stands(c, shown, s'.store, s'.clock)
  {
    hide RegistryState.Valid, Claims, Turn, Silenced, Stands, Moved, Sound, Next, Delivered, MarkedExpired, Attachment.ID,
      Attachment.PathKey;
    var s' := Delivered(s, i, env);
    if Moved(c, s.store, s'.store) {
      MovedIsCalled(s, i, env, c);
    } else {
      DeliverIsNext(s, i, env);
      ClaimKeys(s.registry, c);
      UnmarkedStays(s, Deliver(i, env), s', LocalKind, c.id);
      UnmarkedStays(s, Deliver(i, env), s', PathKind, c.pathKey);
      UnmovedStands(c, shown, s.store, s.clock, s'.store, s'.clock);
    }
  }

  lemma ClaimantIsListed(t: ServiceTable, c: Claim)
    requires c in Claims(t)
    ensures c.service in t
  {
  }

  lemma UnexpiringStaysBacked(st: StoreState, now: int, c: Claim)
    requires Backed(c, st)
    ensures Expiring(st, LocalKind, c.id, now) || Expiring(st, PathKind, c.pathKey, now) || Backed(c, st.AfterSweep(now))
  {
  }

  lemma SweepStands(s: System, c: Claim, shown: bool)
    requires s.registry.Valid() && c in Claims(s.registry.table) && Stands(c, shown, s.store, s.clock)
    ensures c.service in Called(s, Sweep) || Stands(c, shown, s.store.AfterSweep(s.clock), s.clock)
  {
    hide RegistryState.Valid, Claims, ComputeReady, LocalOwners, PathOwners, SweepNotifies, Expiring, Backed,
      StoreState.AfterSweep, Attachment.ID, Attachment.PathKey;
    ClaimKeys(s.registry, c);
    OwnersAreClaimants(s.registry, c);
    ClaimantIsListed(s.registry.table, c);
    ExpiringNotifies(s.store, s.registry.index, s.clock, c);
    if shown {
      UnexpiringStaysBacked(s.store, s.clock, c);
    } else {
      SweepInvisible(s.store, s.clock, s.clock, c.id, c.att, c.scope);
    }
  }

  lemma PruneStands(s: System, swept: int, c: Claim, shown: bool)
    requires Tidy(s.store, s.clock, swept) && s.clock <= swept + s.store.ttl
    requires Stands(c, shown, s.store, s.clock)
    ensures Stands(c, shown, s.store.AfterPrune(s.clock), s.clock)
  {
    PruneInvisible(s.store, s.clock, s.clock, c.id, c.att, c.scope);
    hide ComputeReady;
  }

  lemma StepStands(s: System, e: Event, s': System, swept: int, c: Claim, shown: bool)
    requires Sound(s) && Next(s, e, s') && !e.SetService? && !e.RemoveService?
    requires Tidy(s.store, s.clock, swept) && (e.Prune? ==> s.clock <= swept + s.store.ttl)
    requires c in Claims(s.registry.table) && Stands(c, shown, s.store, s.clock)
    ensures c.service in Called(s, e) || c in Silenced(s, e, s') || Stands(c, shown, s'.store, s'.clock)
  {
    hide RegistryState.Valid, Claims, Stands, Delivered, Silenced, Tidy, StoreState.AfterSweep, StoreState.AfterPrune,
      Attachment.ID, Attachment.PathKey;
    match e {
      case Deliver(i, env) => DeliverStands(s, i, env, c, shown);
      case Sweep => SweepStands(s, c, shown);
      case Prune => PruneStands(s, swept, c, shown);
      case Tick(to) =>
        ClaimKeys(s.registry, c);
        UnmovedStands(c, shown, s.store, s.clock, s.store, to);
      case _ =>
    }
  }

  // ---------------------------------------------------------------- the claims on the board

  lemma ClaimsReplaced(t: ServiceTable, key: ServiceKey, e: ServiceEntry)
    ensures Claims(t[key := e]) == (set c | c in Claims(t) && c.service != key) + ClaimsOf(key, e.scope, e.atts)
    ensures Claims(t - {key}) == set c | c in Claims(t) && c.service != key
  {
    var t0, t' := t - {key}, t[key := e];
    forall c ensures c in Claims(t0) <==> c in Claims(t) && c.service != key {
      if c in Claims(t) && c.service != key {
        assert c.service in t0 && c.att in t0[c.service].atts;
      }
      if c in Claims(t0) {
        assert c.service in t && c.att in t[c.service].atts;
      }
    }
    ClaimsExtend(t0, key, e);
    assert t' == t0[key := e];
  }

  lemma TableStays(s: System, e: Event, s': System)
    requires Next(s, e, s') && !e.SetService? && !e.RemoveService?
    ensures s'.registry == s.registry
  {
    hide Handle;
  }

  lemma CalledIsExcused(b: Board, e: Event, calls: seq<ServiceKey>, b': Board, c: Claim)
    requires Step(b, Happens(e, calls), b')
    ensures Excused(b, c) || c.service in Called(b.sys, e) || c in Silenced(b.sys, e, b'.sys) ==> Excused(b', c)
  {
    EnqueueAllMeaning(b.channel, calls);
    hide Next, Called, Silenced, EnqueueAll;
  }

  lemma HappensKeeps(b: Board, e: Event, calls: seq<ServiceKey>, b': Board)
    requires Good(b) && Step(b, Happens(e, calls), b')
    ensures Good(b')
  {
    StepKeepsSound(b.sys, e, b'.sys);
    StepKeepsOrder(b.sys, e, b'.sys, b.swept);
    TableStays(b.sys, e, b'.sys);
    hide Next, Sound, Tidy, Claims, Called, Silenced, Stands, Excused, Calls, EnqueueAll, Dropped;
    forall c | c in b'.shown ensures Excused(b', c) || Stands(c, b'.shown[c], b'.sys.store, b'.sys.clock) {
      CalledIsExcused(b, e, calls, b', c);
      if !Excused(b, c) {
        StepStands(b.sys, e, b'.sys, b.swept, c, b.shown[c]);
      }
    }
  }

  lemma CollectKeeps(b: Board, b': Board)
    requires Good(b) && Step(b, Collect, b')
    ensures Good(b')
  {
    hide Sound, Tidy, Claims, Stands;
    assert b.channel == [b.channel[0]] + b.channel[1..];
    forall c | c in b'.shown ensures Excused(b', c) || Stands(c, b'.shown[c], b'.sys.store, b'.sys.clock) {
      assert Excused(b, c) ==> Excused(b', c);
    }
  }

  /** A condition just computed stands: what is fresh is not marked. */
  lemma ComputedStands(c: Claim, st: StoreState, now: int, swept: int)
    requires c.id == c.att.ID() && c.pathKey == c.att.PathKey(c.scope) && Tidy(st, now, swept)
    ensures Stands(c, ReadyNow(c, st, now), st, now)
  {
    ReadyIsFiveTerms(c.att, c.scope, st, now);
    hide ComputeReady, Attachment.ID, Attachment.PathKey;
  }

  lemma OthersStillStand(b: Board, key: ServiceKey, b': Board, c: Claim)
    requires Accounted(b) && c in b.shown && c.service != key
    requires b'.channel == b.channel && b'.queue == b.queue - {key} && b'.dropped == b.dropped - {key}
    requires b'.silenced == set d | d in b.silenced && d.service != key
    requires b'.sys.store == b.sys.store && b'.sys.clock == b.sys.clock
    ensures Excused(b', c) || Stands(c, b.shown[c], b'.sys.store, b'.sys.clock)
  {
    hide Stands;
  }

  lemma RegisteringLeaves(s: System, e: Event, s': System)
    requires Next(s, e, s') && (e.SetService? || e.RemoveService?)
    ensures s'.store == s.store && s'.clock == s.clock
    ensures s'.registry.table ==
      if e.SetService? then s.registry.table[e.key := ServiceEntry(e.atts, e.scope)] else s.registry.table - {e.key}
  {
    hide RegistryState.Valid;
  }

  lemma AccountedByParts(b: Board)
    requires forall c :: c in b.shown ==> Excused(b, c) || Stands(c, b.shown[c], b.sys.store, b.sys.clock)
    ensures Accounted(b)
  {
    hide Stands, Excused;
  }

  lemma ReconcileKeeps(b: Board, key: ServiceKey, atts: seq<Attachment>, scope: ProbeScope, b': Board)
    requires Good(b) && Step(b, Reconcile(key, atts, scope), b')
    ensures Good(b')
  {
    hide Next, Sound, Tidy, Claims, Stands, ReadyNow, Accounted, Excused, Attachment.ID, Attachment.PathKey;
    var e := SetService(key, atts, scope);
    StepKeepsSound(b.sys, e, b'.sys);
    RegisteringLeaves(b.sys, e, b'.sys);
    ClaimsReplaced(b.sys.registry.table, key, ServiceEntry(atts, scope));
    assert b'.shown.Keys == Claims(b'.sys.registry.table);
    forall c | c in b'.shown
      ensures Excused(b', c) || Stands(c, b'.shown[c], b'.sys.store, b'.sys.clock)
    {
      if c.service == key {
        ComputedStands(c, b.sys.store, b.sys.clock, b.swept);
      } else {
        OthersStillStand(b, key, b', c);
      }
    }
    assert Accounted(b') by {
      AccountedByParts(b');
    }
  }

  lemma WithdrawKeeps(b: Board, key: ServiceKey, b': Board)
    requires Good(b) && Step(b, Withdraw(key), b')
    ensures Good(b')
  {
    hide Next, Sound, Tidy, Claims, Stands, Accounted, Excused;
    var e := RemoveService(key);
    StepKeepsSound(b.sys, e, b'.sys);
    RegisteringLeaves(b.sys, e, b'.sys);
    ClaimsReplaced(b.sys.registry.table, key, ServiceEntry([], Endpoint));
    forall c | c in b'.shown
      ensures Excused(b', c) || Stands(c, b'.shown[c], b'.sys.store, b'.sys.clock)
    {
      OthersStillStand(b, key, b', c);
    }
    AccountedByParts(b');
  }

  lemma {:induction false} AlwaysGood(d: Diary, n: nat)
    requires IsDiary(d) && n < |d.boards|
    ensures Good(d.boards[n])
  {
    if n > 0 {
      hide Good, Step, Start;
      AlwaysGood(d, n - 1);
      assert MoveAt(d, n - 1);
      var b, m, b' := d.boards[n - 1], d.moves[n - 1], d.boards[n];
      match m {
        case Happens(e, calls) => HappensKeeps(b, e, calls, b');
        case Collect => CollectKeeps(b, b');
        case Reconcile(key, atts, scope) => ReconcileKeeps(b, key, atts, scope, b');
        case Withdraw(key) => WithdrawKeeps(b, key, b');
      }
    } else {
      hide Step;
    }
  }

  // ---------------------------------------------------------------- what it comes to

  /** Evidence the condition rested on has gone stale and no sweep has seen it yet. */
  predicate LapseUnswept(c: Claim, st: StoreState, now: int) {
    Expiring(st, LocalKind, c.id, now) || Expiring(st, PathKind, c.pathKey, now)
  }

  lemma StandsUnlessLapsed(c: Claim, shown: bool, st: StoreState, now: int)
    requires c.id == c.att.ID() && c.pathKey == c.att.PathKey(c.scope)
    ensures Stands(c, shown, st, now) && shown != ReadyNow(c, st, now) ==> shown && LapseUnswept(c, st, now)
  {
    ReadyIsFiveTerms(c.att, c.scope, st, now);
    hide ComputeReady, Attachment.ID, Attachment.PathKey;
  }

  /**
   Completeness of publication. In every reachable state, if the published condition of
   a claim differs from the truth, then its Service is waiting to be reconciled, or since
   its last reconcile a notification for it met a full channel, or a commit took the
   claim's evidence away without a word, or the evidence has lapsed and the next sweep is
   still to come; and only a published "ready" can be wrong in the last way.
   */
  lemma WrongIsAccountedFor(d: Diary, n: nat, c: Claim)
    requires IsDiary(d) && n < |d.boards| && c in Claims(d.boards[n].sys.registry.table)
    ensures
      var b := d.boards[n];
      && c in b.shown
      && (b.shown[c] != ReadyNow(c, b.sys.store, b.sys.clock) ==>
            || b.Waits(c.service)
            || c.service in b.dropped
            || c in b.silenced
            || (b.shown[c] && LapseUnswept(c, b.sys.store, b.sys.clock)))
  {
    hide Step, Start, Sound, Tidy, Claims, ReadyNow, Stands, LapseUnswept, Attachment.ID, Attachment.PathKey;
    AlwaysGood(d, n);
    var b := d.boards[n];
    ClaimKeys(b.sys.registry, c);
    StandsUnlessLapsed(c, b.shown[c], b.sys.store, b.sys.clock);
  }

  lemma SweepLeavesNothing(st: StoreState, now: int, c: Claim)
    ensures !LapseUnswept(c, st.AfterSweep(now), now)
  {
  }

  /**
   Right after a sweep nothing is left unswept, so a claim whose Service is not waiting
   nor was dropped, and of which no commit was silent, is published as it is.
   */
  lemma QuietMeansTrue(d: Diary, n: nat, calls: seq<ServiceKey>, c: Claim)
    requires IsDiary(d) && n < |d.moves| && d.moves[n] == Happens(Sweep, calls)
    requires c in Claims(d.boards[n + 1].sys.registry.table)
    requires
      var b := d.boards[n + 1];
      !b.Waits(c.service) && c.service !in b.dropped && c !in b.silenced
    ensures
      var b := d.boards[n + 1];
      c in b.shown && b.shown[c] == ReadyNow(c, b.sys.store, b.sys.clock)
  {
    WrongIsAccountedFor(d, n + 1, c);
    assert MoveAt(d, n);
    hide IsDiary, Claims, ReadyNow, Called, Silenced, Calls, EnqueueAll, Dropped;
    SweepLeavesNothing(d.boards[n].sys.store, d.boards[n].sys.clock, c);
  }

  /** While there is room in the channel for every notification of a step, none is dropped. */
  lemma RoomDropsNothing(b: Board, e: Event, calls: seq<ServiceKey>, b': Board)
    requires Step(b, Happens(e, calls), b') && |b.channel| + |calls| <= CHANNEL_SIZE
    ensures b'.dropped == b.dropped && forall k :: k in Called(b.sys, e) ==> b'.Waits(k)
  {
    EnqueueAllMeaning(b.channel, calls);
    hide Next, Called, Silenced, EnqueueAll;
  }

  lemma CommitIsEnd(s: System, i: nat, env: Messages.Envelope)
    requires i in s.sessions && Commits(s, i, env)
    ensures env.payload.SnapshotEnd?
  {
  }

  /** A claim is silenced only by a commit that mentions nothing its Service claims. */
  lemma SilencedByUnmentioned(s: System, i: nat, env: Messages.Envelope, c: Claim)
    requires Sound(s) && i in s.sessions && c in Silenced(s, Deliver(i, env), Delivered(s, i, env))
    ensures Commits(s, i, env)
    ensures forall d :: d in Claims(s.registry.table) && d.service == c.service ==> !Mentions(Admitted(s, i, env), d)
  {
    hide RegistryState.Valid, Claims, Handle, Admit, Mentions, Commits, Moved;
    if Commits(s, i, env) {
      CommitIsEnd(s, i, env);
      EndOutcome(s, i, env);
      CommitNotifies(s.registry, Admitted(s, i, env), c.service);
    }
  }
}
