/**
 A run in which a notification is lost for good: the channel is full of one Service's
 notifications when another Service's attachment becomes ready.
 */
module Overflow {
  import opened Ordering
  import opened HealthModel
  import opened Messages
  import opened Store
  import opened RegistryIndex
  import opened Readiness
  import opened Server
  import opened Protocol
  import opened Notification
  import opened Delivery
  import opened Witnesses
  import B = Publication

  lemma DiaryGoesOn(d: B.Diary, m: B.Move, b': B.Board) returns (d': B.Diary)
    requires B.IsDiary(d) && B.Step(d.boards[|d.moves|], m, b')
    ensures B.IsDiary(d') && d' == B.Diary(d.boards + [b'], d.moves + [m])
  {
    hide B.Step, B.Start;
    d' := B.Diary(d.boards + [b'], d.moves + [m]);
    forall i | 0 <= i < |d'.moves| ensures B.MoveAt(d', i) {
      if i < |d.moves| {
        assert B.MoveAt(d, i);
      }
    }
  }

  lemma {:induction false} Enumerated(ks: set<ServiceKey>) returns (calls: seq<ServiceKey>)
    ensures forall k :: k in calls <==> k in ks
  {
    if ks == {} {
      calls := [];
    } else {
      var k :| k in ks;
      var rest := Enumerated(ks - {k});
      calls := rest + [k];
    }
  }

  // ---------------------------------------------------------------- filling the channel

  predicate Speaks(s: Session, who: Who) {
    s.open && s.adopted && !s.inSnapshot && s.node == who.node && s.instance == who.instance
  }

  /** The Service alone is registered, an agent's stream is adopted, nothing is held, and the channel has n of its notifications. */
  ghost predicate Filling(b: B.Board, c: Claim, who: Who, ttl: int, n: nat) {
    && b.sys.clock == 0 && b.sys.store == EmptyStore.(ttl := ttl, nodeInstance := map[who.node := who.instance])
    && b.sys.registry.table == map[c.service := ServiceEntry([c.att], c.scope)] && b.sys.registry.Valid()
    && 0 in b.sys.sessions && Speaks(b.sys.sessions[0], who)
    && b.channel == seq(n, _ => c.service) && b.queue == {}
    && b.shown.Keys == {c}
  }

  lemma SoleTable(c: Claim, t: ServiceTable)
    requires c == ClaimFor(c.service, c.scope, c.att) && t == map[c.service := ServiceEntry([c.att], c.scope)]
    ensures Claims(t) == {c}
  {
    NothingClaimed();
    ClaimsExtend(map[], c.service, ServiceEntry([c.att], c.scope));
    assert map[][c.service := ServiceEntry([c.att], c.scope)] == t;
    assert ClaimsOf(c.service, c.scope, [c.att]) == {c};
  }

  lemma SoleOwner(r: RegistryState, c: Claim)
    requires r.Valid() && Claims(r.table) == {c}
    ensures LocalOwners(r.index, c.id) == {c.service}
  {
    hide RegistryState.Valid, Claims, LocalOwners;
    OwnersAreClaimants(r, c);
    forall s | s in LocalOwners(r.index, c.id) ensures s == c.service {
      OwnerHasClaim(r, s, c.id);
    }
  }

  /** Retiring an attachment nothing is held for still notifies its Services. */
  lemma RetiringNothing(s: Session, st: StoreState, ix: Index, env: Envelope, now: int, id: Key)
    requires s.open && s.adopted && !s.inSnapshot && env.agentInstanceId == s.instance && env.payload == Retired(id)
    requires st.local == map[]
    ensures
      var out := Handle(s, st, ix, env, now);
      && out.store == st && out.notified == LocalOwners(ix, id)
      && out.session.open && out.session.adopted && !out.session.inSnapshot
      && out.session.node == s.node && out.session.instance == s.instance
  {
    hide LocalOwners;
    assert st.local - {id} == st.local;
  }

  lemma OneMoreCall(b: B.Board, c: Claim, who: Who, ttl: int, n: nat) returns (m: B.Move, b': B.Board)
    requires c == ClaimFor(c.service, c.scope, c.att) && n < B.CHANNEL_SIZE && Filling(b, c, who, ttl, n)
    ensures B.Step(b, m, b') && Filling(b', c, who, ttl, n + 1)
  {
    hide RegistryState.Valid, Claims, LocalOwners, ClaimFor;
    var env := Envelope(who.node, who.instance, n + 2, Retired(c.id));
    var e := Deliver(0, env);
    SoleTable(c, b.sys.registry.table);
    SoleOwner(b.sys.registry, c);
    RetiringNothing(b.sys.sessions[0], b.sys.store, b.sys.registry.index, env, 0, c.id);
    hide Handle;
    m := B.Happens(e, [c.service]);
    assert B.EnqueueAll(b.channel, []) == b.channel;
    b' := b.(sys := Delivered(b.sys, 0, env), channel := B.EnqueueAll(b.channel, [c.service]),
             dropped := b.dropped + B.Dropped(b, [c.service]),
             silenced := b.silenced + B.Silenced(b.sys, e, Delivered(b.sys, 0, env)));
    assert b'.channel == seq(n + 1, _ => c.service);
  }

  lemma {:induction false} Filled(d: B.Diary, c: Claim, who: Who, ttl: int, n: nat) returns (d': B.Diary)
    requires c == ClaimFor(c.service, c.scope, c.att) && n <= B.CHANNEL_SIZE
    requires B.IsDiary(d) && Filling(d.boards[|d.moves|], c, who, ttl, n)
    ensures B.IsDiary(d') && Filling(d'.boards[|d'.moves|], c, who, ttl, B.CHANNEL_SIZE)
    decreases B.CHANNEL_SIZE - n
  {
    hide Filling, B.Step, B.Start, B.MoveAt, ClaimFor;
    d' := d;
    if n < B.CHANNEL_SIZE {
      var m, b' := OneMoreCall(d.boards[|d.moves|], c, who, ttl, n);
      d' := DiaryGoesOn(d, m, b');
      d' := Filled(d', c, who, ttl, n + 1);
    }
  }

  // ---------------------------------------------------------------- before

  lemma NothingHeldIsUnready(c: Claim, st: StoreState, now: int)
    requires c.id == c.att.ID() && st.local == map[]
    ensures !ReadyNow(c, st, now)
  {
    ReadyIsFiveTerms(c.att, c.scope, st, now);
    hide Attachment.ID, Attachment.PathKey;
  }

  /** Registering a Service's one attachment where nothing else is registered. */
  lemma Registers(b: B.Board, c: Claim) returns (m: B.Move, b': B.Board)
    requires c == ClaimFor(c.service, c.scope, c.att)
    requires b.sys.registry.table == map[] && b.shown == map[] && b.sys.store.local == map[] && b.queue == {}
    ensures B.Step(b, m, b') && m.Reconcile?
    ensures b'.sys == b.sys.(registry := b'.sys.registry) && b'.sys.registry.Valid()
    ensures b'.sys.registry.table == map[c.service := ServiceEntry([c.att], c.scope)]
    ensures b'.shown == map[c := false] && b'.channel == b.channel && b'.queue == {}
  {
    hide RegistryState.Valid, Claims, ReadyNow, Attachment.ID, Attachment.PathKey;
    var reg := OneServiceRegistry(c.service, c.scope, c.att);
    m := B.Reconcile(c.service, [c.att], c.scope);
    NothingHeldIsUnready(c, b.sys.store, b.sys.clock);
    assert ClaimsOf(c.service, c.scope, [c.att]) == {c};
    assert B.Computed(c.service, [c.att], c.scope, b.sys.store, b.sys.clock) == map[c := false];
    assert B.Without(b.shown, c.service) == map[];
    assert b.queue - {c.service} == {};
    b' := b.(sys := b.sys.(registry := reg), queue := b.queue - {c.service}, dropped := b.dropped - {c.service},
             shown := B.Without(b.shown, c.service) + B.Computed(c.service, [c.att], c.scope, b.sys.store, b.sys.clock),
             silenced := set x | x in b.silenced && x.service != c.service);
  }

  lemma HelloGreets(s: Session, st: StoreState, ix: Index, env: Envelope, now: int, who: Who)
    requires s == NewSession(None) && env == Envelope(who.node, who.instance, 1, Empty) && who.node != "" && who.instance != ""
    ensures
      var out := Handle(s, st, ix, env, now);
      Speaks(out.session, who) && out.notified == {} && out.store == st.Adopt(who.node, who.instance)
  {
  }

  lemma NothingCalled(b: B.Board)
    ensures B.EnqueueAll(b.channel, []) == b.channel && B.Dropped(b, []) == {}
  {
  }

  lemma StreamOpened(b: B.Board) returns (b': B.Board)
    ensures B.Step(b, B.Happens(Open(None), []), b')
    ensures b' == b.(sys := b.sys.(sessions := b.sys.sessions[b.sys.nextStream := NewSession(None)], nextStream := b.sys.nextStream + 1))
  {
    NothingCalled(b);
    hide B.EnqueueAll, B.Dropped, NewSession;
    b' := b.(sys := b.sys.(sessions := b.sys.sessions[b.sys.nextStream := NewSession(None)], nextStream := b.sys.nextStream + 1));
  }

  lemma StreamGreeted(b: B.Board, who: Who) returns (e: Event, b': B.Board)
    requires 0 in b.sys.sessions && b.sys.sessions[0] == NewSession(None) && who.node != "" && who.instance != ""
    ensures B.Step(b, B.Happens(e, []), b')
    ensures 0 in b'.sys.sessions && Speaks(b'.sys.sessions[0], who)
    ensures b'.sys == b.sys.(store := b.sys.store.Adopt(who.node, who.instance), sessions := b'.sys.sessions)
    ensures b' == b.(sys := b'.sys, silenced := b'.silenced)
  {
    var hello := Envelope(who.node, who.instance, 1, Empty);
    HelloGreets(b.sys.sessions[0], b.sys.store, b.sys.registry.index, hello, b.sys.clock, who);
    NothingCalled(b);
    hide B.EnqueueAll, B.Dropped, Handle, NewSession, StoreState.Adopt, B.Silenced;
    e := Deliver(0, hello);
    b' := b.(sys := Delivered(b.sys, 0, hello), silenced := b.silenced + B.Silenced(b.sys, e, Delivered(b.sys, 0, hello)));
  }

  /** A fresh controller: the Service is reconciled, the agent's stream opens and is adopted. */
  lemma Begun(c: Claim, who: Who, ttl: int) returns (d: B.Diary)
    requires c == ClaimFor(c.service, c.scope, c.att) && 0 <= ttl && who.node != "" && who.instance != ""
    ensures B.IsDiary(d) && Filling(d.boards[|d.moves|], c, who, ttl, 0)
  {
    hide RegistryState.Valid, Claims, ClaimFor, Handle, ReadyNow, NewSession, B.Step, B.MoveAt;
    var s0 := System(0, EmptyStore.(ttl := ttl), RegistryState(map[], EmptyIndex), map[], 0);
    var b := B.Board(s0, [], {}, map[], {}, {}, 0);
    d := B.Diary([b], []);
    var m, b1 := Registers(b, c);
    d := DiaryGoesOn(d, m, b1);
    var b2 := StreamOpened(b1);
    d := DiaryGoesOn(d, B.Happens(Open(None), []), b2);
    var e, b3 := StreamGreeted(b2, who);
    d := DiaryGoesOn(d, B.Happens(e, []), b3);
    assert b3.channel == seq(0, _ => c.service);
  }

  // ---------------------------------------------------------------- and after

  lemma Withdraws(b: B.Board, c: Claim) returns (b': B.Board)
    requires b.sys.registry.table.Keys == {c.service} && b.shown.Keys == {c} && b.queue == {}
    ensures B.Step(b, B.Withdraw(c.service), b')
    ensures b'.sys == b.sys.(registry := RegistryState(map[], EmptyIndex)) && b'.shown == map[] && b'.queue == {}
    ensures b'.channel == b.channel
  {
    NothingClaimed();
    hide Indexes, Claims;
    assert b.sys.registry.table - {c.service} == map[];
    assert B.Without(b.shown, c.service) == map[];
    assert b.queue - {c.service} == {};
    b' := b.(sys := b.sys.(registry := RegistryState(map[], EmptyIndex)), queue := b.queue - {c.service},
             dropped := b.dropped - {c.service}, shown := B.Without(b.shown, c.service),
             silenced := set x | x in b.silenced && x.service != c.service);
  }

  lemma DroppedWhenFull(b: B.Board, calls: seq<ServiceKey>)
    requires |b.channel| == B.CHANNEL_SIZE
    ensures B.EnqueueAll(b.channel, calls) == b.channel
    ensures forall k :: k in calls && !b.Waits(k) ==> k in B.Dropped(b, calls)
  {
    B.EnqueueAllMeaning(b.channel, calls);
    hide B.EnqueueAll;
  }

  /** A delivery while the channel is full: whoever is called and not waiting is dropped, and the channel stays as it is. */
  lemma DeliveredToFull(b: B.Board, env: Envelope) returns (m: B.Move, b': B.Board)
    requires 0 in b.sys.sessions && |b.channel| == B.CHANNEL_SIZE
    ensures B.Step(b, m, b') && b'.sys == Delivered(b.sys, 0, env)
    ensures b'.channel == b.channel && b'.queue == b.queue && b'.shown == b.shown && b.dropped <= b'.dropped
    ensures forall k :: k in B.Called(b.sys, Deliver(0, env)) && !b.Waits(k) ==> k in b'.dropped
  {
    var calls := Enumerated(B.Called(b.sys, Deliver(0, env)));
    DroppedWhenFull(b, calls);
    hide B.EnqueueAll, B.Dropped, Delivered, B.Silenced, B.Called, Handle, B.Board.Waits;
    m := B.Happens(Deliver(0, env), calls);
    b' := b.(sys := Delivered(b.sys, 0, env), channel := B.EnqueueAll(b.channel, calls), dropped := b.dropped + B.Dropped(b, calls),
             silenced := b.silenced + B.Silenced(b.sys, Deliver(0, env), Delivered(b.sys, 0, env)));
  }

  lemma SpeaksIsTuned(s: Session, st: StoreState, who: Who, q: nat)
    requires Speaks(s, who) && st.local == map[] && st.path == map[] && st.Current(ReportOrigin(who.node, who.instance, 0))
    ensures Tuned(Channel(s, st), who, q)
  {
  }

  /** The channel at the time the agent's own Service has just been reconciled. */
  ghost predicate Ready(b: B.Board, c: Claim, who: Who, q: nat) {
    && b.sys.registry.Valid() && Claims(b.sys.registry.table) == {c} && Sound(b.sys)
    && 0 in b.sys.sessions && Tuned(Channel(b.sys.sessions[0], b.sys.store), who, q)
    && |b.channel| == B.CHANNEL_SIZE && !b.Waits(c.service)
    && c in b.shown && !b.shown[c]
  }

  lemma FedIsDelivered(s: System, env: Envelope, who: Who, q: nat)
    requires 0 in s.sessions && s.sessions[0].open
    requires Tuned(FeedOne(Channel(s.sessions[0], s.store), s.registry.index, s.clock, env), who, q)
    ensures
      var s', d := Delivered(s, 0, env), FeedOne(Channel(s.sessions[0], s.store), s.registry.index, s.clock, env);
      && 0 in s'.sessions && Channel(s'.sessions[0], s'.store) == d
      && s'.registry == s.registry && s'.clock == s.clock
  {
    hide Handle;
  }

  lemma ReadyStreamIsOpen(b: B.Board, c: Claim, who: Who, q: nat)
    requires Ready(b, c, who, q)
    ensures b.sys.sessions[0].open
  {
  }

  lemma DeliverIsStep(s: System, env: Envelope)
    requires 0 in s.sessions
    ensures Next(s, Deliver(0, env), Delivered(s, 0, env))
  {
    hide Delivered;
  }

  /** An envelope that the agent's stream takes, while the channel is full. */
  lemma Arrives(b: B.Board, c: Claim, who: Who, q: nat, env: Envelope) returns (m: B.Move, b': B.Board)
    requires Ready(b, c, who, q)
    requires Tuned(FeedOne(Channel(b.sys.sessions[0], b.sys.store), b.sys.registry.index, b.sys.clock, env), who, q + 1)
    ensures B.Step(b, m, b') && Ready(b', c, who, q + 1) && b.dropped <= b'.dropped
    ensures b'.sys.store == FeedOne(Channel(b.sys.sessions[0], b.sys.store), b.sys.registry.index, b.sys.clock, env).store
    ensures b'.sys == Delivered(b.sys, 0, env) && b'.sys.clock == b.sys.clock && b'.sys.registry == b.sys.registry
    ensures c.service in B.Called(b.sys, Deliver(0, env)) ==> c.service in b'.dropped
  {
    ReadyStreamIsOpen(b, c, who, q);
    hide RegistryState.Valid, Claims, Tuned, Sound, FeedOne, Delivered, B.Called, B.Step;
    FedIsDelivered(b.sys, env, who, q + 1);
    m, b' := DeliveredToFull(b, env);
    DeliverIsStep(b.sys, env);
    StepKeepsSound(b.sys, Deliver(0, env), b'.sys);
  }

  lemma GoodIsKnown(r: RegistryState, c: Claim)
    requires r.Valid() && Claims(r.table) == {c} && c.id == c.att.ID()
    ensures Known(r.index, c.att.nodeName, GoodLocal(c.att)) && AllowsPath(r.index, c.att.nodeName, c.pathKey)
  {
    hide RegistryState.Valid, Claims, AllowsPath, Attachment.ID;
    SoleClaimAllowed(r, c);
  }

  lemma MovedIsCalled(s: System, c: Claim, env: Envelope)
    requires Sound(s) && 0 in s.sessions && Claims(s.registry.table) == {c} && !env.payload.SnapshotEnd?
    requires B.Moved(c, s.store, Delivered(s, 0, env).store)
    ensures c.service in B.Called(s, Deliver(0, env))
  {
    hide Sound, Claims, Delivered, B.Moved, Turn;
    assert c in Claims(s.registry.table);
    B.DeltaMoves(s, 0, env, c);
  }

  lemma LocalArrives(b: B.Board, c: Claim, who: Who, q: nat) returns (m: B.Move, b': B.Board)
    requires Ready(b, c, who, q) && c.id == c.att.ID() && who.node == c.att.nodeName && c.id !in b.sys.store.local
    ensures B.Step(b, m, b') && Ready(b', c, who, q + 1) && c.service in b'.dropped
    ensures b'.sys.clock == b.sys.clock && b'.sys.store.ttl == b.sys.store.ttl
    ensures HoldsFrom(b'.sys.store.local, c.id, GoodLocal(c.att), who.instance, b.sys.clock)
  {
    var env := Numbers(who, q, Local(ToLocalPB(GoodLocal(c.att))));
    OneLocal(Channel(b.sys.sessions[0], b.sys.store), b.sys.registry.index, b.sys.clock, who, q, GoodLocal(c.att));
    GoodIsKnown(b.sys.registry, c);
    hide RegistryState.Valid, Claims, Tuned, Sound, FeedOne, Delivered, B.Called, B.Step, Known, AllowsPath, Attachment.ID, ToLocalPB;
    m, b' := Arrives(b, c, who, q, env);
    MovedIsCalled(b.sys, c, env);
  }

  lemma PathIsTaken(d: Channel, ix: Index, now: int, who: Who, q: nat, p: PathHealth)
    requires Tuned(d, who, q) && AllowsPath(ix, who.node, p.scopeID) && p.nodeName == who.node
    ensures
      var d' := FeedOne(d, ix, now, Numbers(who, q, Path(ToPathPB(p))));
      && Tuned(d', who, q + 1) && d'.store.local == d.store.local && d'.store.ttl == d.store.ttl
      && HoldsFrom(d'.store.path, p.scopeID, p, who.instance, now)
  {
    OnePath(d, ix, now, who, q, p);
    hide FeedOne, Tuned, AllowsPath, ToPathPB;
    assert p.(nodeName := who.node) == p;
  }

  lemma PathArrives(b: B.Board, c: Claim, who: Who, q: nat) returns (m: B.Move, b': B.Board)
    requires Ready(b, c, who, q) && c.id == c.att.ID() && c.pathKey == c.att.PathKey(c.scope) && who.node == c.att.nodeName
    requires HoldsFrom(b.sys.store.local, c.id, GoodLocal(c.att), who.instance, b.sys.clock)
    ensures B.Step(b, m, b') && Ready(b', c, who, q + 1) && b.dropped <= b'.dropped
    ensures b'.sys.clock == b.sys.clock && b'.sys.store.ttl == b.sys.store.ttl
    ensures HoldsFrom(b'.sys.store.local, c.id, GoodLocal(c.att), who.instance, b.sys.clock)
    ensures HoldsFrom(b'.sys.store.path, c.pathKey, GoodPath(c.att, c.scope), who.instance, b.sys.clock)
  {
    hide RegistryState.Valid, Claims, Tuned, Sound, FeedOne, Delivered, B.Called, B.Step, AllowsPath, Attachment.ID,
      Attachment.PathKey, ToPathPB, HoldsFrom;
    var env := Numbers(who, q, Path(ToPathPB(GoodPath(c.att, c.scope))));
    GoodIsKnown(b.sys.registry, c);
    PathIsTaken(Channel(b.sys.sessions[0], b.sys.store), b.sys.registry.index, b.sys.clock, who, q, GoodPath(c.att, c.scope));
    m, b' := Arrives(b, c, who, q, env);
  }

  lemma BothHeldIsReady(c: Claim, st: StoreState, instance: string, now: int)
    requires c.att.podReady && c.id == c.att.ID() && c.pathKey == c.att.PathKey(c.scope) && 0 <= st.ttl
    requires HoldsFrom(st.local, c.id, GoodLocal(c.att), instance, now)
    requires HoldsFrom(st.path, c.pathKey, GoodPath(c.att, c.scope), instance, now)
    ensures ReadyNow(c, st, now)
  {
    ReadyIsFiveTerms(c.att, c.scope, st, now);
    hide Attachment.ID, Attachment.PathKey;
  }

  lemma FilledParts(b: B.Board, o: Claim, who: Who, ttl: int)
    requires Filling(b, o, who, ttl, B.CHANNEL_SIZE)
    ensures |b.channel| == B.CHANNEL_SIZE && forall k :: k in b.channel ==> k == o.service
    ensures b.sys.registry.table.Keys == {o.service} && b.queue == {} && b.shown.Keys == {o}
    ensures b.sys.clock == 0 && b.sys.store == EmptyStore.(ttl := ttl, nodeInstance := map[who.node := who.instance])
    ensures 0 in b.sys.sessions && Speaks(b.sys.sessions[0], who)
  {
    hide RegistryState.Valid;
  }

  lemma EmptyHolds(ttl: int, who: Who)
    ensures
      var st := EmptyStore.(ttl := ttl, nodeInstance := map[who.node := who.instance]);
      st.local == map[] && st.path == map[] && st.Current(ReportOrigin(who.node, who.instance, 0)) && st.ttl == ttl
  {
  }

  lemma GoodIsSound(b: B.Board)
    requires B.Good(b)
    ensures Sound(b.sys)
  {
    hide Sound;
  }

  /**
   From a fresh start to a condition that is wrong and that nobody is asked to correct: an agent keeps one Service
   being notified until the channel is full; the Service is withdrawn and another
   registered; now its attachment becomes ready. Nothing else being under way, it stays
   published as not ready, with no reconcile pending and none asked for.
   */
  lemma NotificationLost(ttl: int, o: Claim, c: Claim, instance: string) returns (d: B.Diary)
    requires o == ClaimFor(o.service, o.scope, o.att) && c == ClaimFor(c.service, c.scope, c.att) && o.service != c.service
    requires 0 <= ttl && c.att.podReady && c.att.nodeName != "" && instance != ""
    ensures B.IsDiary(d)
    ensures
      var b := d.boards[|d.moves|];
      && c in b.shown && !b.shown[c] && ReadyNow(c, b.sys.store, b.sys.clock)
      && !b.Waits(c.service) && c.service in b.dropped
  {
    hide RegistryState.Valid, Claims, Filling, Tuned, Sound, B.Step, B.Start, B.MoveAt, B.Good, HoldsFrom, ReadyNow, Speaks, EmptyStore,
      Attachment.ID, Attachment.PathKey;
    var who := Who(c.att.nodeName, instance);
    d := Begun(o, who, ttl);
    d := Filled(d, o, who, ttl, 0);
    FilledParts(d.boards[|d.moves|], o, who, ttl);
    EmptyTtl(ttl);
    EmptyHolds(ttl, who);
    var b := Withdraws(d.boards[|d.moves|], o);
    d := DiaryGoesOn(d, B.Withdraw(o.service), b);
    var m: B.Move;
    m, b := Registers(b, c);
    d := DiaryGoesOn(d, m, b);
    SpeaksIsTuned(b.sys.sessions[0], b.sys.store, who, B.CHANNEL_SIZE + 2);
    SoleTable(c, b.sys.registry.table);
    B.AlwaysGood(d, |d.moves|);
    GoodIsSound(b);
    m, b := LocalArrives(b, c, who, B.CHANNEL_SIZE + 2);
    d := DiaryGoesOn(d, m, b);
    m, b := PathArrives(b, c, who, B.CHANNEL_SIZE + 3);
    d := DiaryGoesOn(d, m, b);
    BothHeldIsReady(c, b.sys.store, instance, b.sys.clock);
  }
}
