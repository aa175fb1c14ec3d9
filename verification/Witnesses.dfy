/**
 Runs of the whole controller that show how its exceptions come about. Each starts from
 nothing and is made only of steps the system takes: a Service registered, streams
 opened, envelopes delivered.
 */
module Witnesses {
  import opened Ordering
  import opened HealthModel
  import opened Messages
  import opened Store
  import opened RegistryIndex
  import opened Readiness
  import opened Server
  import opened Sender
  import opened Protocol
  import opened Notification
  import opened Fencing
  import opened Sequences
  import opened Bracket
  import opened Delivery
  import opened Encodings
  import opened Bystanders
  import opened ProbeManager
  import A = Agreement
  import opened Settled

  // ---------------------------------------------------------------- building runs

  function Last(r: Protocol.Run): System
    requires |r.states| == |r.events| + 1
  {
    r.states[|r.events|]
  }

  lemma Extended(r: Protocol.Run, e: Event, s': System) returns (r': Protocol.Run)
    requires IsRun(r) && Next(Last(r), e, s')
    ensures IsRun(r') && r' == Run(r.states + [s'], r.events + [e])
  {
    hide Next, Init;
    r' := Run(r.states + [s'], r.events + [e]);
    forall i | 0 <= i < |r'.events| ensures StepAt(r', i) {
      if i < |r.events| {
        assert StepAt(r, i);
      }
    }
  }

  /** The stream as the run leaves it. */
  function ChannelAt(s: System, stream: nat): Channel
    requires stream in s.sessions
  {
    Channel(s.sessions[stream], s.store)
  }

  function Fed(s: System, stream: nat, es: seq<Envelope>): System
    requires stream in s.sessions
  {
    var d := Feed(ChannelAt(s, stream), s.registry.index, s.clock, es);
    s.(store := d.store, sessions := s.sessions[stream := d.session])
  }

  /** A stream that is open after some envelopes was open throughout, so they make a run. */
  lemma {:induction false} FedRun(r: Protocol.Run, stream: nat, es: seq<Envelope>) returns (r': Protocol.Run)
    requires IsRun(r) && stream in Last(r).sessions
    requires Feed(ChannelAt(Last(r), stream), Last(r).registry.index, Last(r).clock, es).session.open
    ensures IsRun(r') && Last(r') == Fed(Last(r), stream, es)
  {
    hide Init, Handle, RegistryState.Valid;
    var s := Last(r);
    if es == [] {
      assert s.sessions[stream := s.sessions[stream]] == s.sessions;
      r' := r;
    } else {
      var init, e := es[..|es| - 1], es[|es| - 1];
      r' := FedRun(r, stream, init);
      var s1 := Last(r');
      assert Fed(s, stream, es) == Delivered(s1, stream, e);
      r' := Extended(r', Deliver(stream, e), Delivered(s1, stream, e));
    }
  }

  // ---------------------------------------------------------------- one attachment, one Service

  lemma NothingClaimed()
    ensures Claims(map[]) == {} && Indexes(EmptyIndex, {})
  {
  }

  lemma OneServiceRegistry(k: ServiceKey, scope: ProbeScope, a: Attachment) returns (r: RegistryState)
    ensures r.Valid() && r.table == map[k := ServiceEntry([a], scope)] && Claims(r.table) == {ClaimFor(k, scope, a)}
  {
    hide Indexes, AddClaims, Claims;
    NothingClaimed();
    AddClaimsIndexes(EmptyIndex, Claims(map[]), k, scope, [a]);
    ClaimsExtend(map[], k, ServiceEntry([a], scope));
    r := RegistryState(map[k := ServiceEntry([a], scope)], AddClaims(EmptyIndex, k, scope, [a]));
    assert ClaimsOf(k, scope, [a]) == {ClaimFor(k, scope, a)};
  }

  /** What the attachment's own agent reports when all is well. */
  function GoodLocal(a: Attachment): LocalHealth {
    LocalHealth(a.ID(), a.podUID, a.podNamespace, a.podName, a.nad, a.iface, a.ip, a.nodeName, true, true, true, 0)
  }

  function GoodPath(a: Attachment, scope: ProbeScope): PathHealth {
    PathHealth(scope, a.PathKey(scope), a.nodeName, a.nad, "", true, 0)
  }

  function GoodSnapshot(a: Attachment, scope: ProbeScope): Snapshot {
    Snapshot([GoodLocal(a)], [GoodPath(a, scope)], {}, [])
  }

  lemma IndexParts(ix: Index, cs: set<Claim>)
    requires Indexes(ix, cs)
    ensures OwnersExact(ix.pathOwners, cs, ClaimPath)
  {
  }

  lemma SoleClaimAllowed(r: RegistryState, c: Claim)
    requires r.Valid() && Claims(r.table) == {c}
    ensures c.id in r.index.attachments && r.index.attachments[c.id] == c.att
    ensures AllowsPath(r.index, c.att.nodeName, c.pathKey)
  {
    hide Indexes, Claims, OwnersExact;
    var cs := Claims(r.table);
    IndexParts(r.index, cs);
    assert c in cs && Owns(cs, ClaimID, c.service, c.id);
    assert Owns(cs, ClaimPath, c.service, c.pathKey) && Covers(cs, c.pathKey, c.att.nodeName);
    AttachmentKnown(r.index, cs, c.id);
    OwnersComplete(r.index.pathOwners, cs, ClaimPath, c.pathKey);
    AuthorityMeansSoleNode(r, c.pathKey, c.att.nodeName);
  }

  /** The registry takes all of the good snapshot. */
  lemma GoodIsTaken(r: RegistryState, c: Claim)
    requires r.Valid() && Claims(r.table) == {c} && c.id == c.att.ID() && c.pathKey == c.att.PathKey(c.scope)
    ensures TakenLocals(r.index, c.att.nodeName, [GoodLocal(c.att)]) == [GoodLocal(c.att)]
    ensures TakenPaths(r.index, c.att.nodeName, [GoodPath(c.att, c.scope)]) == [GoodPath(c.att, c.scope)]
  {
    hide RegistryState.Valid, Claims, AllowsPath, Attachment.ID, Attachment.PathKey;
    SoleClaimAllowed(r, c);
    var ix, node, l, p := r.index, c.att.nodeName, GoodLocal(c.att), GoodPath(c.att, c.scope);
    assert [l][..0] == [] && TakenLocals(ix, node, []) == [];
    assert [p][..0] == [] && TakenPaths(ix, node, []) == [];
  }

  /** A fresh controller learns of the Service, and `streams` streams open. */
  lemma {:induction false} Opened(ttl: int, c: Claim, streams: nat) returns (r: Protocol.Run)
    requires c == ClaimFor(c.service, c.scope, c.att)
    ensures IsRun(r)
    ensures
      var s := Last(r);
      && s.store == EmptyStore.(ttl := ttl) && s.clock == 0 && Claims(s.registry.table) == {c} && s.registry.Valid()
      && s.nextStream == streams && forall i :: i in s.sessions <==> 0 <= i < streams
    ensures forall i :: 0 <= i < streams ==> i in Last(r).sessions && Last(r).sessions[i] == NewSession(None)
  {
    hide Indexes, Claims, ClaimFor;
    if streams == 0 {
      var s0 := System(0, EmptyStore.(ttl := ttl), RegistryState(map[], EmptyIndex), map[], 0);
      var reg := OneServiceRegistry(c.service, c.scope, c.att);
      r := Run([s0], []);
      r := Extended(r, SetService(c.service, [c.att], c.scope), s0.(registry := reg));
    } else {
      r := Opened(ttl, c, streams - 1);
      var s := Last(r);
      r := Extended(r, Open(None), s.(sessions := s.sessions[s.nextStream := NewSession(None)], nextStream := s.nextStream + 1));
    }
  }

  /** Both entries of the claim say all is well, from this origin. */
  predicate HoldsGood(st: StoreState, c: Claim, o: ReportOrigin, at: int) {
    && c.id in st.local && st.local[c.id] == Entry(GoodLocal(c.att), o, at, false)
    && c.pathKey in st.path && st.path[c.pathKey] == Entry(GoodPath(c.att, c.scope), o, at, false)
  }

  lemma FourPayloads(snap: Snapshot)
    requires |snap.locals| == 1 && |snap.paths| == 1
    ensures forall e :: |FullPayloads(snap, e)| == 4
  {
  }

  lemma TunedIsOpen(c: Channel, who: Who, q: nat)
    requires Tuned(c, who, q)
    ensures c.session.open
  {
  }

  lemma GoodIsHeld(st: StoreState, c: Claim, who: Who, q: nat, now: int)
    requires c.id == c.att.ID() && c.pathKey == c.att.PathKey(c.scope) && who.node == c.att.nodeName
    ensures
      var st' := st.Adopt(who.node, who.instance).AfterSnapshot(
        ReportOrigin(who.node, who.instance, q), [GoodLocal(c.att)], [GoodPath(c.att, c.scope)], now);
      && HoldsGood(st', c, ReportOrigin(who.node, who.instance, q), now)
      && st'.ttl == st.ttl && st'.nodeInstance == st.nodeInstance[who.node := who.instance]
  {
    hide Attachment.ID, Attachment.PathKey;
    var ls, ps, o := [GoodLocal(c.att)], [GoodPath(c.att, c.scope)], ReportOrigin(who.node, who.instance, q);
    SnapshotReplacesNode(st.Adopt(who.node, who.instance), o, ls, ps, now, c.id);
    SnapshotReplacesNode(st.Adopt(who.node, who.instance), o, ls, ps, now, c.pathKey);
  }

  function GoodEnvelopes(c: Claim, instance: string, q: nat): seq<Envelope> {
    Numbered(c.att.nodeName, instance, q, FullPayloads(GoodSnapshot(c.att, c.scope), 1))
  }

  lemma GoodLands(d: Channel, r: RegistryState, now: int, c: Claim, instance: string, q: nat)
    requires r.Valid() && Claims(r.table) == {c} && c == ClaimFor(c.service, c.scope, c.att)
    requires OwnStream(d, Who(c.att.nodeName, instance)) && SeqBound(d.store, instance, q)
    ensures
      var d', node := Feed(d, r.index, now, GoodEnvelopes(c, instance, q)), c.att.nodeName;
      && Tuned(d', Who(node, instance), q + 4) && d'.session.open
      && d'.store.ttl == d.store.ttl && d'.store.nodeInstance == d.store.nodeInstance[node := instance]
      && HoldsGood(d'.store, c, ReportOrigin(node, instance, q + 4), now)
  {
    hide RegistryState.Valid, Claims, OwnStream, SeqBound, Tuned, Feed, FullPayloads, Numbered, TakenLocals, TakenPaths,
      HoldsGood, StoreState.Adopt, StoreState.AfterSnapshot, Attachment.ID, Attachment.PathKey;
    var who, snap := Who(c.att.nodeName, instance), GoodSnapshot(c.att, c.scope);
    FourPayloads(snap);
    GoodIsTaken(r, c);
    SnapshotLands(d, r.index, now, who, q, snap, 1);
    TunedIsOpen(Feed(d, r.index, now, GoodEnvelopes(c, instance, q)), who, q + 4);
    GoodIsHeld(d.store, c, who, q + 4, now);
  }

  /** The attachment's agent publishes a snapshot in which all is well, numbered from q. */
  lemma Publishes(r: Protocol.Run, stream: nat, c: Claim, instance: string, q: nat) returns (r': Protocol.Run)
    requires IsRun(r) && stream in Last(r).sessions
    requires var s := Last(r); s.registry.Valid() && Claims(s.registry.table) == {c}
    requires c == ClaimFor(c.service, c.scope, c.att)
    requires OwnStream(ChannelAt(Last(r), stream), Who(c.att.nodeName, instance)) && SeqBound(Last(r).store, instance, q)
    ensures IsRun(r') && Last(r') == Fed(Last(r), stream, GoodEnvelopes(c, instance, q))
    ensures
      var s, s', node := Last(r), Last(r'), c.att.nodeName;
      && stream in s'.sessions && Tuned(ChannelAt(s', stream), Who(node, instance), q + 4)
      && s'.store.ttl == s.store.ttl && s'.store.nodeInstance == s.store.nodeInstance[node := instance]
      && HoldsGood(s'.store, c, ReportOrigin(node, instance, q + 4), s.clock)
  {
    hide RegistryState.Valid, Claims, OwnStream, SeqBound, Tuned, Feed, GoodEnvelopes, HoldsGood, Init, StepAt;
    var s := Last(r);
    GoodLands(ChannelAt(s, stream), s.registry, s.clock, c, instance, q);
    r' := FedRun(r, stream, GoodEnvelopes(c, instance, q));
  }

  // ---------------------------------------------------------------- a snapshot that says too little

  lemma GoodIsReady(st: StoreState, c: Claim, o: ReportOrigin, now: int)
    requires c.att.podReady && c.id == c.att.ID() && c.pathKey == c.att.PathKey(c.scope)
    requires HoldsGood(st, c, o, now) && 0 <= st.ttl
    ensures ReadyNow(c, st, now)
  {
    ReadyIsFiveTerms(c.att, c.scope, st, now);
    hide Attachment.ID, Attachment.PathKey;
  }

  /** Replacing a node's evidence by nothing leaves its attachment without any. */
  lemma EmptiedIsUnready(st: StoreState, c: Claim, o: ReportOrigin, now: int, kept: ReportOrigin, at: int)
    requires c.id == c.att.ID() && st.Current(o) && o.nodeName == c.att.nodeName && HoldsGood(st, c, kept, at)
    ensures !ReadyNow(c, st.AfterSnapshot(o, [], [], now), now)
    ensures c.id !in st.AfterSnapshot(o, [], [], now).local
  {
    ReadyIsFiveTerms(c.att, c.scope, st.AfterSnapshot(o, [], [], now), now);
    hide Attachment.ID, Attachment.PathKey;
  }

  lemma AdoptingAgain(st: StoreState, who: Who)
    requires st.Current(ReportOrigin(who.node, who.instance, 0))
    ensures st.Adopt(who.node, who.instance) == st
  {
    assert st.nodeInstance[who.node := who.instance] == st.nodeInstance;
  }

  lemma BeginOpensBracket(d: Channel, ix: Index, now: int, who: Who, q: nat, e: nat, nl: nat, np: nat)
    requires Tuned(d, who, q) && who.node != "" && who.instance != ""
    ensures
      var d' := FeedOne(d, ix, now, Numbers(who, q, SnapshotBegin(e, nl, np)));
      Collecting(d', d.store, who, e, [], []) && d'.session.open && d'.store == d.store
  {
    OneBegin(d, ix, now, who, q, e, nl, np);
    AdoptingAgain(d.store, who);
    hide FeedOne, StoreState.Adopt;
  }

  /** The end of an empty bracket commits nothing, confirms it, and notifies nobody. */
  lemma EmptyEnd(s: System, stream: nat, who: Who, env: Envelope)
    requires stream in s.sessions && Collecting(ChannelAt(s, stream), s.store, who, 2, [], [])
    requires env == Envelope(who.node, who.instance, env.sequence, SnapshotEnd(2))
    ensures
      var out := Protocol.Turn(s, stream, env);
      && out.store == s.store.AfterSnapshot(ReportOrigin(who.node, who.instance, env.sequence), [], [], s.clock)
      && out.notified == {} && Confirms(out, env.sequence) && out.session.open
  {
    hide StoreState.AfterSnapshot;
  }

  lemma FreshIsOwn(ttl: int, who: Who)
    requires who.node != "" && who.instance != ""
    ensures OwnStream(Channel(NewSession(None), EmptyStore.(ttl := ttl)), who)
    ensures forall q :: SeqBound(EmptyStore.(ttl := ttl), who.instance, q)
  {
  }

  lemma TunedIsCurrent(c: Channel, who: Who, q: nat)
    requires Tuned(c, who, q)
    ensures forall sequence :: c.store.Current(ReportOrigin(who.node, who.instance, sequence))
  {
  }

  lemma EmptyTtl(ttl: int)
    ensures EmptyStore.(ttl := ttl).ttl == ttl
  {
  }

  /** A run up to the point where the agent's one snapshot has made its attachment ready. */
  lemma ReadyRun(ttl: int, c: Claim, instance: string, q: nat) returns (r: Protocol.Run)
    requires 0 <= ttl && c == ClaimFor(c.service, c.scope, c.att)
    requires c.att.podReady && c.att.nodeName != "" && instance != ""
    ensures IsRun(r)
    ensures
      var s, who := Last(r), Who(c.att.nodeName, instance);
      && 0 in s.sessions && s.registry.Valid() && Claims(s.registry.table) == {c} && s.clock == 0
      && Tuned(ChannelAt(s, 0), who, q + 4) && HoldsGood(s.store, c, ReportOrigin(who.node, instance, q + 4), 0)
      && ReadyNow(c, s.store, 0)
  {
    hide Init, StepAt, RegistryState.Valid, Claims, Tuned, OwnStream, SeqBound, HoldsGood, EmptyStore, ReadyNow, NewSession,
      Attachment.ID, Attachment.PathKey, GoodEnvelopes;
    var who := Who(c.att.nodeName, instance);
    r := Opened(ttl, c, 1);
    FreshIsOwn(ttl, who);
    r := Publishes(r, 0, c, instance, q);
    EmptyTtl(ttl);
    GoodIsReady(Last(r).store, c, ReportOrigin(who.node, instance, q + 4), 0);
  }

  /** One more envelope on a stream that stays open. */
  lemma Delivers(r: Protocol.Run, stream: nat, env: Envelope) returns (r': Protocol.Run)
    requires IsRun(r) && stream in Last(r).sessions
    ensures IsRun(r') && r' == Run(r.states + [Delivered(Last(r), stream, env)], r.events + [Deliver(stream, env)])
  {
    hide Init, StepAt, Delivered;
    r' := Extended(r, Deliver(stream, env), Delivered(Last(r), stream, env));
  }

  /**
   From a fresh start to a silent flip: for any Service, any ready Pod's attachment on a
   named node and any agent, the agent publishes a good snapshot, then opens a second one
   that announces a local and a path report, sends neither, and ends it. The snapshot is
   confirmed and committed, the attachment stops being ready, and nobody is notified.
   */
  lemma SilentFlip(ttl: int, c: Claim, instance: string) returns (r: Protocol.Run, s: System, env: Envelope)
    requires 0 <= ttl && c == ClaimFor(c.service, c.scope, c.att)
    requires c.att.podReady && c.att.nodeName != "" && instance != ""
    ensures IsRun(r) && |r.events| > 0 && r.events[|r.events| - 1] == Deliver(0, env)
    ensures s == r.states[|r.events| - 1] && 0 in s.sessions && c in Claims(s.registry.table)
    ensures ReadyNow(c, s.store, s.clock) && !ReadyNow(c, Last(r).store, Last(r).clock)
    ensures c.service !in Protocol.Turn(s, 0, env).notified
    ensures env.payload.SnapshotEnd? && Confirms(Protocol.Turn(s, 0, env), env.sequence)
    ensures c.id in s.store.local && c.id !in Last(r).store.local
  {
    hide Init, StepAt, RegistryState.Valid, Claims, Tuned, Handle, ReadyNow, Collecting, SessionSound, Confirms, StoreState.Current,
      StoreState.AfterSnapshot, Attachment.ID, Attachment.PathKey;
    var who := Who(c.att.nodeName, instance);
    r := ReadyRun(ttl, c, instance, 0);
    var s0 := Last(r);
    TunedIsCurrent(ChannelAt(s0, 0), who, 4);
    var begin := Numbers(who, 4, SnapshotBegin(2, 1, 1));
    BeginOpensBracket(ChannelAt(s0, 0), s0.registry.index, 0, who, 4, 2, 1, 1);
    TunedIsOpen(ChannelAt(s0, 0), who, 4);
    r := Delivers(r, 0, begin);
    s, env := Last(r), Numbers(who, 5, SnapshotEnd(2));
    assert ChannelAt(s, 0) == FeedOne(ChannelAt(s0, 0), s0.registry.index, 0, begin);
    r := Delivers(r, 0, env);
    EmptyEnd(s, 0, who, env);
    EmptiedIsUnready(s.store, c, ReportOrigin(who.node, instance, 6), 0, ReportOrigin(who.node, instance, 4), 0);
  }

  // ---------------------------------------------------------------- a stored number falls

  lemma TunedIsOwn(c: Channel, who: Who, q: nat)
    requires Tuned(c, who, q) && who.node != "" && who.instance != ""
    ensures OwnStream(c, who) && c.store.Current(ReportOrigin(who.node, who.instance, 0)) && c.session.open
  {
  }

  lemma CollectingIsOpen(c: Channel, st: StoreState, who: Who, e: nat, ls: seq<LocalHealth>, ps: seq<PathHealth>)
    requires Collecting(c, st, who, e, ls, ps)
    ensures c.session.open && c.store == st
  {
  }

  lemma GoodEnd(s: System, stream: nat, c: Claim, who: Who, env: Envelope)
    requires stream in s.sessions && who.node == c.att.nodeName && c.id == c.att.ID() && c.pathKey == c.att.PathKey(c.scope)
    requires Collecting(ChannelAt(s, stream), s.store, who, 1, [GoodLocal(c.att)], [GoodPath(c.att, c.scope)])
    requires env == Envelope(who.node, who.instance, env.sequence, SnapshotEnd(1))
    ensures HoldsGood(Delivered(s, stream, env).store, c, ReportOrigin(who.node, who.instance, env.sequence), s.clock)
  {
    GoodIsHeld(s.store, c, who, env.sequence, s.clock);
    assert s.store.Current(ReportOrigin(who.node, who.instance, 0));
    AdoptingAgain(s.store, who);
    hide StoreState.AfterSnapshot, HoldsGood, Attachment.ID, Attachment.PathKey, StoreState.Adopt;
  }

  lemma NewerThanFour(st: StoreState, st': StoreState, c: Claim, who: Who, q: nat)
    requires 0 < q && HoldsGood(st, c, ReportOrigin(who.node, who.instance, q + 4), 0)
    requires HoldsGood(st', c, ReportOrigin(who.node, who.instance, 4), 0)
    ensures Falls(st, st', LocalKind, c.id) && Falls(st, st', PathKind, c.pathKey)
  {
  }

  /** Envelopes numbered from below those already processed: a second snapshot replaces number q + 4 by number 4. */
  lemma NumberFalls(ttl: int, c: Claim, instance: string, q: nat) returns (r: Protocol.Run, s: System, env: Envelope)
    requires 0 <= ttl && c == ClaimFor(c.service, c.scope, c.att) && 0 < q
    requires c.att.podReady && c.att.nodeName != "" && instance != ""
    ensures IsRun(r) && |r.events| > 0 && r.events[|r.events| - 1] == Deliver(0, env)
    ensures s == r.states[|r.events| - 1] && 0 in s.sessions
    ensures Falls(s.store, Last(r).store, LocalKind, c.id) && Falls(s.store, Last(r).store, PathKind, c.pathKey)
  {
    hide Init, StepAt, RegistryState.Valid, Claims, Tuned, Handle, ReadyNow, Collecting, StoreState.Current, HoldsGood,
      StoreState.AfterSnapshot, Attachment.ID, Attachment.PathKey, Feed, Opening, Numbered, OwnStream, TakenLocals, TakenPaths;
    var who, snap := Who(c.att.nodeName, instance), GoodSnapshot(c.att, c.scope);
    r := ReadyRun(ttl, c, instance, q);
    var s0 := Last(r);
    TunedIsOwn(ChannelAt(s0, 0), who, q + 4);
    GoodIsTaken(s0.registry, c);
    OpeningCollects(ChannelAt(s0, 0), s0.registry.index, 0, who, 0, snap, 1);
    var es := Numbered(who.node, instance, 0, Opening(snap, 1));
    CollectingIsOpen(Feed(ChannelAt(s0, 0), s0.registry.index, 0, es), s0.store.Adopt(who.node, instance), who, 1,
                     [GoodLocal(c.att)], [GoodPath(c.att, c.scope)]);
    r := FedRun(r, 0, es);
    s, env := Last(r), Numbers(who, 3, SnapshotEnd(1));
    AdoptingAgain(s0.store, who);
    r := Delivers(r, 0, env);
    GoodEnd(s, 0, c, who, env);
    NewerThanFour(s.store, Last(r).store, c, who, q);
  }

  // ---------------------------------------------------------------- a superseded stream's last word

  /** An empty first envelope is enough to be adopted. */
  lemma Greets(s: System, ttl: int, node: string, instance: string)
    requires 0 in s.sessions && s.sessions[0] == NewSession(None) && s.store == EmptyStore.(ttl := ttl)
    requires node != "" && instance != ""
    ensures
      var s' := Delivered(s, 0, Envelope(node, instance, 1, Empty));
      && 0 in s'.sessions && s'.sessions[0].adopted && s'.sessions[0].node == node && s'.sessions[0].instance == instance
      && (forall i :: i in s.sessions && i != 0 ==> i in s'.sessions && s'.sessions[i] == s.sessions[i])
      && s'.store == EmptyStore.(ttl := ttl, nodeInstance := map[node := instance])
      && s'.registry == s.registry && s'.clock == s.clock
  {
  }

  lemma UnknownToSole(r: RegistryState, c: Claim, node: string, m: LocalMsg)
    requires r.Valid() && Claims(r.table) == {c} && m.attachmentId != c.id
    ensures LocalFrom(r.index, node, m).None?
  {
    hide Indexes, Claims, OwnersExact;
    AttachmentKnown(r.index, Claims(r.table), m.attachmentId);
  }

  lemma UnknownTurn(s: Session, st: StoreState, ix: Index, env: Envelope, now: int, m: LocalMsg)
    requires s.open && s.adopted && env.agentInstanceId == s.instance && env.payload == Local(m) && LocalFrom(ix, s.node, m).None?
    ensures Handle(s, st, ix, env, now).acks == [Ack(env.sequence, false, UnknownAttachment)] && Handle(s, st, ix, env, now).store == st
  {
  }

  /** From a fresh start to a report on an unknown attachment, which is not answered by asking for a resync. */
  lemma UnknownIsNotResynced(ttl: int, c: Claim, who: Who, m: LocalMsg) returns (r: Protocol.Run, s: System, env: Envelope)
    requires c == ClaimFor(c.service, c.scope, c.att) && who.node != "" && who.instance != "" && m.attachmentId != c.id
    ensures IsRun(r) && |r.events| > 0 && r.events[|r.events| - 1] == Deliver(0, env)
    ensures s == r.states[|r.events| - 1] && 0 in s.sessions && env.payload == Local(m)
    ensures Protocol.Turn(s, 0, env).acks == [Ack(env.sequence, false, UnknownAttachment)] && Last(r).store == s.store
  {
    hide Init, StepAt, RegistryState.Valid, Claims, NewSession, EmptyStore;
    r := Opened(ttl, c, 1);
    var hello, s0 := Envelope(who.node, who.instance, 1, Empty), Last(r);
    r := Delivers(r, 0, hello);
    Greets(s0, ttl, who.node, who.instance);
    s, env := Last(r), Envelope(who.node, who.instance, 2, Local(m));
    RunSound(r, |r.events|);
    UnknownToSole(s.registry, c, who.node, m);
    r := Delivers(r, 0, env);
    UnknownTurn(s.sessions[0], s.store, s.registry.index, env, s.clock, m);
  }

  lemma SuccessorMayPublish(ttl: int, who: Who, older: string)
    requires who.node != "" && who.instance != ""
    ensures
      var st := EmptyStore.(ttl := ttl, nodeInstance := map[who.node := older]);
      OwnStream(Channel(NewSession(None), st), who) && SeqBound(st, who.instance, 0) && st.ttl == ttl
  {
  }

  lemma GoneIsUnready(c: Claim, st: StoreState, now: int)
    requires c.id == c.att.ID() && c.id !in st.local
    ensures !ReadyNow(c, st, now)
  {
    ReadyIsFiveTerms(c.att, c.scope, st, now);
    hide Attachment.ID, Attachment.PathKey;
  }

  lemma GoodOrigin(st: StoreState, c: Claim, o: ReportOrigin, at: int)
    requires HoldsGood(st, c, o, at)
    ensures c.id in st.local && st.local[c.id].origin == o
  {
  }

  /**
   From a fresh start to an unfenced retirement: an agent's stream is adopted, its
   successor's stream supersedes it on the same node and publishes a good snapshot; then
   the old stream retires the attachment, and the successor's entry is gone.
   */
  lemma SupersededRetires(ttl: int, c: Claim, older: string, newer: string) returns (r: Protocol.Run, s: System)
    requires 0 <= ttl && c == ClaimFor(c.service, c.scope, c.att)
    requires c.att.podReady && c.att.nodeName != "" && older != "" && newer != "" && older != newer
    ensures IsRun(r) && |r.events| > 0 && s == r.states[|r.events| - 1]
    ensures r.events[|r.events| - 1] == Deliver(0, Envelope(c.att.nodeName, older, 2, Retired(c.id)))
    ensures Fencing.Superseded(s, 0, c.att.nodeName)
    ensures c.id in s.store.local && s.store.local[c.id].origin.agentInstance == newer && ReadyNow(c, s.store, s.clock)
    ensures c.id !in Last(r).store.local && !ReadyNow(c, Last(r).store, Last(r).clock)
  {
    hide Init, StepAt, RegistryState.Valid, Claims, Tuned, OwnStream, SeqBound, HoldsGood, ReadyNow, Feed, GoodEnvelopes,
      Attachment.ID, Attachment.PathKey;
    var node := c.att.nodeName;
    r := Opened(ttl, c, 2);
    var hello, s0 := Envelope(node, older, 1, Empty), Last(r);
    r := Delivers(r, 0, hello);
    Greets(s0, ttl, node, older);
    SuccessorMayPublish(ttl, Who(node, newer), older);
    r := Publishes(r, 1, c, newer, 0);
    s := Last(r);
    GoodIsReady(s.store, c, ReportOrigin(node, newer, 4), 0);
    GoodOrigin(s.store, c, ReportOrigin(node, newer, 4), 0);
    RunSound(r, |r.events|);
    r := Delivers(r, 0, Envelope(node, older, 2, Retired(c.id)));
    SupersededTurn(s, 0, Envelope(node, older, 2, Retired(c.id)), node);
    GoneIsUnready(c, Last(r).store, 0);
  }

  // ---------------------------------------------------------------- another process breaks the agreement

  lemma CalmGoesOn(setup: A.Setup, h: A.History, e: A.Event, w': A.World) returns (h': A.History)
    requires A.IsHistory(setup, h) && Accord(setup.who, h.worlds[|h.events|])
    requires A.Step(setup, h.worlds[|h.events|], e, w') && Calm(setup, h.worlds[|h.events|], e, w')
    ensures A.IsHistory(setup, h') && h' == A.History(h.worlds + [w'], h.events + [e])
    ensures A.Good(setup, w') && Accord(setup.who, w')
  {
    hide A.Step, A.Start, A.Good, Accord, Calm;
    h' := A.History(h.worlds + [w'], h.events + [e]);
    forall i | 0 <= i < |h'.events| ensures A.StepAt(setup, h', i) {
      if i < |h.events| {
        assert A.StepAt(setup, h, i);
      }
    }
    A.RunGood(setup, h, |h.events|);
    A.RunGood(setup, h', |h'.events|);
    StepKeepsAccord(setup, h.worlds[|h.events|], e, w');
  }

  /** The agent has just started; the controller knows its Service. */
  function FirstWorld(s: System, who: Who): A.World {
    A.World(s, None, SinkState(who.node, who.instance, 0, false, false, None, 0, 0), map[],
            ManagerState(1, 1, who.node, map[], map[], {}), map[], map[])
  }

  /** One good observation, and a wire that takes its three envelopes. */
  function OneObservation(a: Attachment): A.Findings {
    A.Findings(Snapshot([GoodLocal(a)], [], {a.ID()}, []), [], 0, 3)
  }

  lemma ObservationSweeps(w: A.World, a: Attachment)
    requires w.prev == map[]
    ensures A.Sweeps(A.PathNone, w, OneObservation(a)) && Live(OneObservation(a).snap.locals) == {a.ID()}
  {
    hide Attachment.ID;
    var obs := OneObservation(a).snap.locals;
    assert obs[..0] == [];
    assert ChangedBy(map[], obs) == {a.ID()};
  }

  lemma ObservationMatches(r: RegistryState, c: Claim)
    requires r.Valid() && Claims(r.table) == {c} && c.id == c.att.ID()
    ensures Matches(r.index, c.att.nodeName, OneObservation(c.att).snap)
  {
    hide RegistryState.Valid, Claims, AllowsPath, Attachment.ID;
    SoleClaimAllowed(r, c);
  }

  lemma FirstWorldStarts(setup: A.Setup, s: System, ttl: int)
    requires s.store == EmptyStore.(ttl := ttl) && s.sessions == map[] && Sound(s)
    requires setup.who.node != "" && setup.who.instance != ""
    ensures A.IsHistory(setup, A.History([FirstWorld(s, setup.who)], [])) && Accord(setup.who, FirstWorld(s, setup.who))
  {
    hide Sound;
  }

  lemma ThreeSends(w: A.World, a: Attachment)
    requires w.sink.connected && w.sink.needSnapshot
    ensures w.sink.Succeeds(OneObservation(a).snap, 0, 3)
  {
  }

  lemma OnlyObserved(setup: A.Setup, w: A.World, a: Attachment)
    requires w.prev == map[] && setup.mode == A.PathNone
    requires w.own.Some? && w.own.value in w.sys.sessions && w.sink.Succeeds(OneObservation(a).snap, 0, 3)
    ensures
      var w' := A.Swept(setup, w, OneObservation(a));
      && w'.prev.Keys == {a.ID()} && w'.sys.nextStream == w.sys.nextStream && w'.sys.registry == w.sys.registry
      && (w'.own == w.own ==> w'.sys.sessions.Keys == w.sys.sessions.Keys)
  {
    hide Attachment.ID, Feed, SinkState.Succeeds, SinkState.AfterPublish, SinkState.SentBy;
    var obs := OneObservation(a).snap.locals;
    assert obs[..0] == [];
  }

  lemma AccordLands(setup: A.Setup, w: A.World, f: A.Findings)
    requires Accord(setup.who, w) && w.own.Some? && w.sink.Succeeds(f.snap, f.at, f.room)
    ensures A.Lands(setup.who, w, f)
  {
    hide ToldAlone, OthersAllowed, SinkState.Succeeds;
  }

  /** The agent connects. */
  lemma ConnectedHistory(ttl: int, c: Claim, instance: string) returns (setup: A.Setup, h: A.History, w: A.World)
    requires c == ClaimFor(c.service, c.scope, c.att) && c.att.nodeName != "" && instance != ""
    ensures setup == A.Setup(Who(c.att.nodeName, instance), A.PathNone)
    ensures A.IsHistory(setup, h) && w == h.worlds[|h.events|] && A.Good(setup, w) && Accord(setup.who, w)
    ensures w.own == Some(0) && w.sink.connected && w.sink.needSnapshot && w.prev == map[]
    ensures w.sys.sessions.Keys == {0} && w.sys.nextStream == 1 && w.sys.registry.Valid() && Claims(w.sys.registry.table) == {c}
  {
    hide Init, StepAt, RegistryState.Valid, Claims, SeqBound, Attachment.ID, NewSession, Sound, EmptyStore, A.Start,
      A.Good, Accord;
    setup := A.Setup(Who(c.att.nodeName, instance), A.PathNone);
    var r := Opened(ttl, c, 0);
    var s := Last(r);
    RunSound(r, |r.events|);
    assert s.sessions == map[];
    FirstWorldStarts(setup, s, ttl);
    h := A.History([FirstWorld(s, setup.who)], []);
    w := A.Connected(h.worlds[0], None);
    h := CalmGoesOn(setup, h, A.Connect(None), w);
  }

  /** And publishes its one observation. */
  lemma AgreedHistory(ttl: int, c: Claim, instance: string) returns (setup: A.Setup, h: A.History, w: A.World)
    requires c == ClaimFor(c.service, c.scope, c.att) && c.att.nodeName != "" && instance != ""
    ensures setup == A.Setup(Who(c.att.nodeName, instance), A.PathNone)
    ensures A.IsHistory(setup, h) && w == h.worlds[|h.events|] && Accord(setup.who, w)
    ensures w.own == Some(0) && !w.sink.needSnapshot && w.prev.Keys == {c.id}
    ensures w.sys.sessions.Keys == {0} && w.sys.nextStream == 1 && w.sys.registry.Valid()
  {
    hide RegistryState.Valid, Claims, SeqBound, Attachment.ID, A.Start, A.StepAt, A.Good, A.Sweeps, Matches, Feed, Accord,
      A.ToldAfter, A.Swept;
    setup, h, w := ConnectedHistory(ttl, c, instance);
    var w1, f := w, OneObservation(c.att);
    ObservationSweeps(w1, c.att);
    ObservationMatches(w1.sys.registry, c);
    w := A.Swept(setup, w1, f);
    ThreeSends(w1, c.att);
    AccordLands(setup, w1, f);
    A.PublishKeeps(setup, w1, f);
    OnlyObserved(setup, w1, c.att);
    h := CalmGoesOn(setup, h, A.SweepAndPublish(f), w);
  }

  lemma OpeningIsCalm(setup: A.Setup, w: A.World, w': A.World)
    ensures Calm(setup, w, A.Elsewhere(Open(None)), w')
  {
  }

  lemma GreetingIsCalm(setup: A.Setup, w: A.World, i: nat, env: Envelope, w': A.World)
    requires i in w.sys.sessions && w.sys.sessions[i] == NewSession(None)
    requires env.payload.Empty? && env.nodeName != setup.who.node
    ensures Calm(setup, w, A.Elsewhere(Deliver(i, env)), w')
  {
  }

  lemma GreetingAdopts(s: System, i: nat, env: Envelope)
    requires i in s.sessions && s.sessions[i] == NewSession(None)
    requires env.nodeName != "" && env.agentInstanceId != "" && env.payload.Empty?
    ensures
      var s' := Delivered(s, i, env);
      && i in s'.sessions && s'.sessions[i].adopted && s'.sessions[i].open
      && s'.sessions[i].node == env.nodeName && s'.sessions[i].instance == env.agentInstanceId
      && (forall j :: j in s.sessions && j != i ==> j in s'.sessions && s'.sessions[j] == s.sessions[j])
  {
  }

  lemma RetiringTakes(w: A.World, i: nat, env: Envelope)
    requires i in w.sys.sessions && w.sys.sessions[i].adopted && w.sys.sessions[i].open
    requires w.sys.sessions[i].instance == env.agentInstanceId && env.payload.Retired? && env.payload.attachmentId in w.prev
    ensures TakesRemembered(w, Deliver(i, env))
  {
    assert Retires(w.sys.sessions[i], w.sys.store, env, env.payload.attachmentId);
  }

  lemma GreetingUsurps(who: Who, w: A.World, i: nat, env: Envelope)
    requires i in w.sys.sessions && w.sys.sessions[i] == NewSession(None)
    requires env.nodeName == who.node != "" && env.agentInstanceId != ""
    ensures Usurps(who, w, Deliver(i, env))
  {
  }

  lemma Undone(setup: A.Setup, w: A.World, i: nat, env: Envelope)
    requires A.Good(setup, w) && Accord(setup.who, w) && w.own.Some? && !w.sink.needSnapshot
    requires A.Around(setup.who, w, Deliver(i, env))
    requires TakesRemembered(w, Deliver(i, env)) || Usurps(setup.who, w, Deliver(i, env))
    ensures A.InStep(setup.who, w) && A.Agrees(setup.who, w)
    ensures
      var w' := w.(sys := Delivered(w.sys, i, env));
      !(A.InStep(setup.who, w') && A.Agrees(setup.who, w'))
  {
    OwnIsInStep(setup, w);
    hide A.Good, Handle, TakesRemembered, Usurps, A.Agrees, A.InStep, A.Around, ToldAlone, OthersAllowed;
    OthersKeepAgreement(setup, w, i, env);
  }

  lemma StreamOpens(setup: A.Setup, h: A.History, w: A.World) returns (h': A.History, w': A.World)
    requires A.IsHistory(setup, h) && w == h.worlds[|h.events|] && Accord(setup.who, w)
    requires w.own.Some? && w.own.value < w.sys.nextStream
    ensures A.IsHistory(setup, h') && w' == h'.worlds[|h'.events|] && Accord(setup.who, w')
    ensures
      && w'.sys.sessions == w.sys.sessions[w.sys.nextStream := NewSession(None)] && w'.sys.nextStream == w.sys.nextStream + 1
      && w'.own == w.own && w'.sink == w.sink && w'.prev == w.prev && w'.sys.store == w.sys.store
  {
    hide A.Start, A.Good, Accord, Calm, A.Surviving, NewSession;
    w' := w.(sys := w.sys.(sessions := w.sys.sessions[w.sys.nextStream := NewSession(None)], nextStream := w.sys.nextStream + 1),
             told := A.Surviving(w, Open(None)));
    OpeningIsCalm(setup, w, w');
    h' := CalmGoesOn(setup, h, A.Elsewhere(Open(None)), w');
  }

  /**
   From a fresh start to an agreement undone, in both ways there are: the agent's publish
   got through and the controller agrees with it; another process's stream is open on
   another node, and one more has just opened. Now the first may retire the agent's
   attachment, or the second turn up on the agent's node.
   */
  lemma OthersBreakAgreement(ttl: int, c: Claim, instance: string, otherNode: string, other: string)
    returns (setup: A.Setup, h: A.History, w: A.World, retire: Envelope, usurp: Envelope)
    requires c == ClaimFor(c.service, c.scope, c.att) && c.att.nodeName != "" && instance != ""
    requires otherNode != "" && otherNode != c.att.nodeName && other != "" && other != instance
    ensures A.IsHistory(setup, h) && w == h.worlds[|h.events|] && 1 in w.sys.sessions && 2 in w.sys.sessions
    ensures A.Around(setup.who, w, Deliver(1, retire)) && A.Around(setup.who, w, Deliver(2, usurp))
    ensures A.InStep(setup.who, w) && A.Agrees(setup.who, w)
    ensures
      var w1, w2 := w.(sys := Delivered(w.sys, 1, retire)), w.(sys := Delivered(w.sys, 2, usurp));
      && retire.payload == Retired(c.id) && !(A.InStep(setup.who, w1) && A.Agrees(setup.who, w1))
      && usurp.payload == Empty && !(A.InStep(setup.who, w2) && A.Agrees(setup.who, w2))
  {
    hide Init, StepAt, RegistryState.Valid, Claims, SeqBound, Attachment.ID, Sound, EmptyStore, A.Start, A.Good, Calm, Accord,
      Handle, TakesRemembered, Usurps, A.Agrees, A.InStep, A.Surviving;
    setup, h, w := AgreedHistory(ttl, c, instance);
    h, w := StreamOpens(setup, h, w);
    var hello := Envelope(otherNode, other, 1, Empty);
    var w' := w.(sys := Delivered(w.sys, 1, hello), told := A.Surviving(w, Deliver(1, hello)));
    GreetingIsCalm(setup, w, 1, hello, w');
    h := CalmGoesOn(setup, h, A.Elsewhere(Deliver(1, hello)), w');
    GreetingAdopts(w.sys, 1, hello);
    w := w';
    h, w := StreamOpens(setup, h, w);
    retire, usurp := Envelope(otherNode, other, 2, Retired(c.id)), Envelope(setup.who.node, other, 1, Empty);
    A.RunGood(setup, h, |h.events|);
    RetiringTakes(w, 1, retire);
    GreetingUsurps(setup.who, w, 2, usurp);
    Undone(setup, w, 1, retire);
    Undone(setup, w, 2, usurp);
  }
}
