/**
 One agent process and the controller it reports to, over whole runs: connections come
 and go, the controller restarts and asks for resyncs, probes move, other processes'
 streams interleave and may take the node over, Services are registered and withdrawn,
 evidence is swept and pruned, and each sweep is published as a snapshot or as deltas,
 which may get through, break off, or go nowhere.
 */
module Agreement {
  import opened Ordering
  import opened HealthModel
  import opened Messages
  import opened Store
  import opened RegistryIndex
  import opened Server
  import opened ProbeManager
  import PR = ProbeRuns
  import opened Sender
  import P = Protocol
  import opened Delivery
  import opened Encodings
  import opened Bystanders

  datatype PathMode = PathNone | PathAssumeReady | PathICMP

  datatype Setup = Setup(who: Who, mode: PathMode)

  datatype World = World(
    sys: P.System,
    own: Option<nat>,      // the agent's stream, while it has one
    sink: SinkState, prev: Memory, probes: ManagerState,
    verdicts: Verdicts,    // what the last sweep said about paths
    told: Told)            // history: the agent's last words on each subject, where the store took them and still has them

  /** What a sweep comes across: its observations, its probe specs, and the clocks and wire it meets. */
  datatype Findings = Findings(snap: Snapshot, specs: seq<Spec>, at: int, room: nat)

  datatype Event =
    | Connect(auth: Option<string>)
    | Disconnect
    | Resync
    | Restart
    | ProbeResult(key: Key, success: bool)
    | SweepAndPublish(f: Findings)
    | Elsewhere(e: P.Event)

  // ---------------------------------------------------------------- a sweep

  function Assumed(rs: seq<LocalHealth>, at: int): seq<PathHealth> {
    seq(|rs|, i requires 0 <= i < |rs| =>
      PathHealth(Endpoint, rs[i].attachmentID, "", rs[i].nad, "(assumed)", true, at))
  }

  function ProbesAfter(mode: PathMode, m: ManagerState, specs: seq<Spec>): ManagerState {
    if mode.PathICMP? then m.WithTargets(specs).WithoutChanged() else m
  }

  function ChangedIn(mode: PathMode, w: World, f: Findings): set<Key> {
    ChangedBy(w.prev, f.snap.locals) + if mode.PathICMP? then w.probes.WithTargets(f.specs).changed else {}
  }

  /** The path half of a sweep, by the agent's path mode. */
  ghost predicate PathsFound(mode: PathMode, m: ManagerState, f: Findings) {
    match mode
    case PathNone => f.snap.paths == []
    case PathAssumeReady => f.snap.paths == Assumed(f.snap.locals, f.at)
    case PathICMP =>
      var m' := m.WithTargets(f.specs);
      forall p :: p in f.snap.paths <==> m'.HasVerdict(p.scopeID) && p == m'.Verdict(p.scopeID, f.at)
  }

  ghost predicate Sweeps(mode: PathMode, w: World, f: Findings) {
    && (forall id :: id in f.snap.retired <==> id in w.prev && id !in Live(f.snap.locals))
    && PathsFound(mode, w.probes, f)
    && f.snap.changed == ChangedIn(mode, w, f)
  }

  // ---------------------------------------------------------------- steps

  function Origin(who: Who): ReportOrigin {
    ReportOrigin(who.node, who.instance, 0)
  }

  /** The agent is its node's authority at the controller. */
  predicate Authoritative(who: Who, w: World) {
    w.sys.store.Current(Origin(who))
  }

  /** The agent's stream has been adopted, and another process has taken the node over since. */
  predicate Usurped(who: Who, w: World) {
    w.own.Some? && w.own.value in w.sys.sessions && w.sys.sessions[w.own.value].adopted && !Authoritative(who, w)
  }

  /** All of the publish goes out, on a stream that may still speak for the node. */
  predicate Lands(who: Who, w: World, f: Findings) {
    w.own.Some? && w.sink.Succeeds(f.snap, f.at, f.room) && !Usurped(who, w)
  }

  function ToldAfter(who: Who, w: World, f: Findings): Told {
    var ix, now := w.sys.registry.index, w.sys.clock;
    if w.own.None? then w.told
    else if w.sink.Full(f.at) then
      if Lands(who, w, f) then ToldByFull(ix, who.node, f.snap, now) else w.told
    else
      if Lands(who, w, f) then ToldByDeltas(w.told, ix, who.node, f.snap, now) else Unspoken(w.told, f.snap)
  }

  /** The stream is gone at both ends. */
  function Broken(w: World): World {
    w.(sys := w.sys.(sessions := w.sys.sessions - if w.own.Some? then {w.own.value} else {}),
       own := None, sink := w.sink.(connected := false))
  }

  /** The agent's side of a sweep, and what its envelopes do on arrival. */
  function Swept(setup: Setup, w: World, f: Findings): World {
    var w1 := w.(prev := Retained(w.prev, f.snap.locals),
                 probes := ProbesAfter(setup.mode, w.probes, f.specs),
                 verdicts := Reported(f.snap.paths),
                 sink := w.sink.AfterPublish(f.snap, f.at, f.room),
                 told := ToldAfter(setup.who, w, f));
    if w.own.None? || w.own.value !in w.sys.sessions then w1
    else
      var d := Feed(Channel(w.sys.sessions[w.own.value], w.sys.store), w.sys.registry.index, w.sys.clock,
                    w.sink.SentBy(f.snap, f.at, f.room));
      var w2 := w1.(sys := w.sys.(store := d.store));
      if w.sink.Succeeds(f.snap, f.at, f.room) && d.session.open then
        w2.(sys := w2.sys.(sessions := w.sys.sessions[w.own.value := d.session]))
      else Broken(w2)
  }

  function Connected(w: World, auth: Option<string>): World {
    w.(sys := w.sys.(sessions := w.sys.sessions[w.sys.nextStream := NewSession(auth)], nextStream := w.sys.nextStream + 1),
       own := Some(w.sys.nextStream), sink := w.sink.(connected := true, needSnapshot := true))
  }

  function Restarted(w: World): World {
    w.(sys := w.sys.(store := EmptyStore.(ttl := w.sys.store.ttl), sessions := map[]),
       own := None, sink := w.sink.(connected := false), told := map[])
  }

  /** What may happen around the agent: anything but an envelope in its own name. */
  ghost predicate Around(who: Who, w: World, e: P.Event) {
    match e
    case Close(i) => Some(i) != w.own
    case Deliver(i, env) =>
      Some(i) != w.own && i in w.sys.sessions && OthersStream(w.sys.sessions[i], env, who)
    case _ => true
  }

  predicate Outlived(st: StoreState, s: Subject, now: int) {
    var ev := P.EvidenceAt(st, s.kind, s.key);
    ev.Some? && ev.value.acceptedAt < now - 2 * st.ttl
  }

  /** The event takes the evidence on the subject away, or writes it anew. */
  predicate Loses(sys: P.System, e: P.Event, s: Subject) {
    match e
    case Deliver(i, env) =>
      i in sys.sessions && Touches(sys.sessions[i], sys.store, sys.registry.index, env, s.kind, s.key)
    case Prune => Outlived(sys.store, s, sys.clock)
    case _ => false
  }

  function Surviving(w: World, e: P.Event): Told {
    map s | s in w.told && !Loses(w.sys, e, s) :: w.told[s]
  }

  ghost predicate Step(setup: Setup, w: World, e: Event, w': World) {
    match e
    case Connect(auth) => w.own.None? && auth in {None, Some(setup.who.node)} && w' == Connected(w, auth)
    case Disconnect => w' == Broken(w)
    case Resync => w.own.Some? && w' == w.(sink := w.sink.(needSnapshot := true))
    case Restart => w' == Restarted(w)
    case ProbeResult(k, success) => w' == w.(probes := w.probes.WithSample(k, success))
    case SweepAndPublish(f) => Sweeps(setup.mode, w, f) && w' == Swept(setup, w, f)
    case Elsewhere(x) =>
      Around(setup.who, w, x) && P.Next(w.sys, x, w'.sys) && w' == w.(sys := w'.sys, told := Surviving(w, x))
  }

  ghost predicate OthersBehave(who: Who, w: World) {
    forall i :: i in w.sys.sessions && Some(i) != w.own ==>
      && BuffersOnNode(w.sys.sessions[i])
      && (w.sys.sessions[i].adopted ==> w.sys.sessions[i].instance != who.instance)
  }

  /** The process has just started; the controller may be anywhere, but has never heard of it. */
  ghost predicate Start(setup: Setup, w: World) {
    && setup.who.node != "" && setup.who.instance != ""
    && w.own.None? && w.prev == map[] && w.verdicts == map[] && w.told == map[]
    && w.sink == SinkState(setup.who.node, setup.who.instance, w.sink.refresh, false, false, None, 0, 0)
    && PR.Fresh(w.probes)
    && P.Sound(w.sys) && OthersBehave(setup.who, w) && SeqBound(w.sys.store, setup.who.instance, 0)
  }

  datatype History = History(worlds: seq<World>, events: seq<Event>)

  ghost predicate StepAt(setup: Setup, r: History, i: int)
    requires |r.worlds| == |r.events| + 1 && 0 <= i < |r.events|
  {
    Step(setup, r.worlds[i], r.events[i], r.worlds[i + 1])
  }

  ghost predicate IsHistory(setup: Setup, r: History) {
    && |r.worlds| == |r.events| + 1
    && Start(setup, r.worlds[0])
    && forall i :: 0 <= i < |r.events| ==> StepAt(setup, r, i)
  }

  // ---------------------------------------------------------------- the invariant

  function OwnChannel(w: World): Channel
    requires w.own.Some? && w.own.value in w.sys.sessions
  {
    Channel(w.sys.sessions[w.own.value], w.sys.store)
  }

  ghost predicate OwnBehaves(who: Who, w: World) {
    w.own.Some? ==>
      && w.own.value in w.sys.sessions
      && var s := w.sys.sessions[w.own.value];
         && OwnSession(s, who)
         && if s.adopted then Authoritative(who, w) ==> !s.inSnapshot else w.sink.needSnapshot
  }

  /** A path verdict that has not moved since the last sweep is the one that sweep reported. */
  ghost predicate PathsPending(mode: PathMode, w: World) {
    match mode
    case PathNone => true
    case PathAssumeReady => forall k :: k in w.prev ==> k in w.verdicts && w.verdicts[k]
    case PathICMP =>
      && w.probes.Valid()
      && forall k :: w.probes.HasVerdict(k) && k !in w.probes.changed ==>
           k in w.verdicts && w.verdicts[k] == (w.probes.machines[k].state == Healthy)
  }

  /** The agent speaks for its node, and the stream it has owes no snapshot. */
  predicate InStep(who: Who, w: World) {
    w.own.Some? && !w.sink.needSnapshot && Authoritative(who, w)
  }

  /** What has been told is what the agent stands by, and nothing else is held for its node. */
  ghost predicate Faithful(who: Who, w: World) {
    Coherent(w.told, w.prev, w.verdicts) && NothingElse(w.sys.store, who.node, w.prev)
  }

  ghost predicate Good(setup: Setup, w: World) {
    && setup.who.node != "" && setup.who.instance != ""
    && P.Sound(w.sys)
    && w.sink.nodeName == setup.who.node && w.sink.instanceID == setup.who.instance
    && (w.sink.connected <==> w.own.Some?)
    && OthersBehave(setup.who, w) && OwnBehaves(setup.who, w)
    && SeqBound(w.sys.store, setup.who.instance, w.sink.seqNo)
    && PathsPending(setup.mode, w)
    && ToldStands(w.sys.store, setup.who, w.told)
    && (InStep(setup.who, w) ==> Faithful(setup.who, w))
  }

  // ---------------------------------------------------------------- sweeps

  lemma {:induction false} LastVerdict(paths: seq<PathHealth>, k: Key)
    ensures k in Reported(paths) ==>
      exists p :: p in paths && p.scopeID == k && p.pathReady == Reported(paths)[k]
    ensures k !in Reported(paths) ==> forall p :: p in paths ==> p.scopeID != k
  {
    ReportedMeaning(paths, k);
    var i := LastForMeaning(paths, PathReportKey, k);
    if k in Reported(paths) {
      assert paths[i] in paths;
    }
  }

  lemma AssumedFollows(prev: Memory, verdicts: Verdicts, rs: seq<LocalHealth>, at: int, k: Key)
    requires k in prev ==> k in verdicts && verdicts[k]
    ensures k in Reported(Assumed(rs, at)) && k !in ChangedBy(prev, rs) ==> k in verdicts && verdicts[k]
    ensures k in Reported(Assumed(rs, at)) ==> Reported(Assumed(rs, at))[k]
    ensures k in Live(rs) ==> k in Reported(Assumed(rs, at))
  {
    hide Reported, Remembered, ChangedBy;
    var paths := Assumed(rs, at);
    SweepMeaning(prev, rs, k);
    LastVerdict(paths, k);
    if k in Live(rs) {
      var r :| r in rs && r.attachmentID == k;
      var i :| 0 <= i < |rs| && rs[i] == r;
      assert paths[i] in paths && paths[i].scopeID == k;
    }
  }

  lemma ProbedFollows(m: ManagerState, verdicts: Verdicts, specs: seq<Spec>, paths: seq<PathHealth>, at: int, k: Key)
    requires m.Valid()
    requires m.HasVerdict(k) && k !in m.changed ==> k in verdicts && verdicts[k] == (m.machines[k].state == Healthy)
    requires var m' := m.WithTargets(specs); forall p :: p in paths <==> m'.HasVerdict(p.scopeID) && p == m'.Verdict(p.scopeID, at)
    ensures
      var m' := m.WithTargets(specs);
      && m'.Valid()
      && (k in Reported(paths) && k !in m'.changed ==> k in verdicts && verdicts[k] == Reported(paths)[k])
      && (m'.HasVerdict(k) ==> k in Reported(paths) && Reported(paths)[k] == (m'.machines[k].state == Healthy))
  {
    var m' := m.WithTargets(specs);
    PR.StepKeepsVerdict(m, PR.SetTargets(specs), k);
    hide Reported, ManagerState.WithTargets;
    LastVerdict(paths, k);
    if m'.HasVerdict(k) {
      assert m'.Verdict(k, at) in paths;
    }
  }

  lemma AssumeReadyFollows(w: World, f: Findings)
    requires Sweeps(PathAssumeReady, w, f) && PathsPending(PathAssumeReady, w)
    ensures Follows(w.prev, w.verdicts, f.snap)
    ensures PathsPending(PathAssumeReady, w.(prev := Retained(w.prev, f.snap.locals), verdicts := Reported(f.snap.paths)))
  {
    hide Reported, Remembered, ChangedBy, Assumed;
    forall k {
      AssumedFollows(w.prev, w.verdicts, f.snap.locals, f.at, k);
    }
  }

  lemma ICMPFollows(w: World, f: Findings)
    requires Sweeps(PathICMP, w, f) && PathsPending(PathICMP, w)
    ensures Follows(w.prev, w.verdicts, f.snap)
    ensures PathsPending(PathICMP, w.(probes := ProbesAfter(PathICMP, w.probes, f.specs), verdicts := Reported(f.snap.paths)))
  {
    hide Reported, Remembered, ChangedBy, ManagerState.WithTargets, ManagerState.Verdict;
    forall k {
      ProbedFollows(w.probes, w.verdicts, f.specs, f.snap.paths, f.at, k);
    }
  }

  /** A sweep says again, or marks as changed, everything it stands by. */
  lemma SweepFollows(mode: PathMode, w: World, f: Findings)
    requires Sweeps(mode, w, f) && PathsPending(mode, w)
    ensures Follows(w.prev, w.verdicts, f.snap)
    ensures PathsPending(mode, w.(prev := Retained(w.prev, f.snap.locals), probes := ProbesAfter(mode, w.probes, f.specs),
                                  verdicts := Reported(f.snap.paths)))
  {
    match mode {
      case PathNone =>
      case PathAssumeReady => AssumeReadyFollows(w, f);
      case PathICMP => ICMPFollows(w, f);
    }
    hide Follows, PathsPending, Sweeps;
  }

  // ---------------------------------------------------------------- publishes

  lemma OwnIsTuned(who: Who, w: World)
    requires OwnBehaves(who, w) && w.own.Some? && !Usurped(who, w) && SeqBound(w.sys.store, who.instance, w.sink.seqNo)
    ensures w.own.value in w.sys.sessions && OwnStream(OwnChannel(w), who)
    ensures !w.sink.needSnapshot ==> Authoritative(who, w) && Tuned(OwnChannel(w), who, w.sink.seqNo)
  {
  }

  /** A publish got through: the stream carries on from q, and the store bears out what was told. */
  ghost predicate Landed(d: Channel, who: Who, q: nat, told: Told, prev: Memory, verdicts: Verdicts) {
    && Tuned(d, who, q) && ToldStands(d.store, who, told)
    && Coherent(told, prev, verdicts) && NothingElse(d.store, who.node, prev)
  }

  lemma FullLands(c: Channel, ix: Index, now: int, who: Who, q: nat, prev: Memory, snap: Snapshot, e: nat)
    requires OwnStream(c, who) && SeqBound(c.store, who.instance, q)
    ensures Landed(FeedAll(c, ix, now, who, q, FullPayloads(snap, e)), who, q + |FullPayloads(snap, e)|,
                   ToldByFull(ix, who.node, snap, now), Retained(prev, snap.locals), Reported(snap.paths))
  {
    hide FeedAll, FullPayloads, OwnStream, Tuned, SeqBound, ToldStands, Coherent, Retained, Reported, Saying, HeldLocally;
    FullTells(c, ix, now, who, q, snap, e);
    FullCoheres(ix, who.node, snap, now, prev);
    forall k | HeldLocally(FeedAll(c, ix, now, who, q, FullPayloads(snap, e)).store, who.node, k)
      ensures k in Retained(prev, snap.locals)
    {
      SayingMeaning(prev, snap, Subject(LocalKind, k));
    }
  }

  lemma NotRetired(prev: Memory, verdicts: Verdicts, snap: Snapshot, k: Key)
    requires Follows(prev, verdicts, snap) && k in prev && k !in snap.retired
    ensures k in Live(snap.locals)
  {
    hide ChangedBy, Reported;
  }

  lemma DeltaLands(c: Channel, ix: Index, now: int, who: Who, q: nat, told: Told, prev: Memory, verdicts: Verdicts, snap: Snapshot)
    requires Tuned(c, who, q) && Follows(prev, verdicts, snap)
    requires ToldStands(c.store, who, told) && Coherent(told, prev, verdicts) && NothingElse(c.store, who.node, prev)
    ensures Landed(FeedAll(c, ix, now, who, q, DeltaPayloads(snap)), who, q + |DeltaPayloads(snap)|,
                   ToldByDeltas(told, ix, who.node, snap, now), Retained(prev, snap.locals), Reported(snap.paths))
  {
    hide FeedAll, DeltaPayloads, Tuned, ToldStands, Coherent, Retained, Reported, Saying, HeldLocally, Follows, Live;
    DeltaTells(c, ix, now, who, q, told, snap);
    DeltasCohere(told, ix, who.node, snap, now, prev, verdicts);
    forall k | HeldLocally(FeedAll(c, ix, now, who, q, DeltaPayloads(snap)).store, who.node, k)
      ensures k in Retained(prev, snap.locals)
    {
      SayingMeaning(prev, snap, Subject(LocalKind, k));
      if Saying(snap, Subject(LocalKind, k)).None? {
        NotRetired(prev, verdicts, snap, k);
      }
    }
  }

  lemma TunedIsReady(c: Channel, who: Who, q: nat)
    requires Tuned(c, who, q) && who.node != "" && who.instance != ""
    ensures OwnSession(c.session, who) && c.session.open && c.session.adopted && !c.session.inSnapshot
    ensures c.store.Current(Origin(who))
  {
  }

  function Arrived(w: World, f: Findings): Channel
    requires w.own.Some? && w.own.value in w.sys.sessions
  {
    Feed(OwnChannel(w), w.sys.registry.index, w.sys.clock, w.sink.SentBy(f.snap, f.at, f.room))
  }

  lemma ArrivedAll(setup: Setup, w: World, f: Findings)
    requires w.own.Some? && w.own.value in w.sys.sessions && w.sink.Succeeds(f.snap, f.at, f.room)
    requires w.sink.nodeName == setup.who.node && w.sink.instanceID == setup.who.instance
    ensures
      var q, ps := w.sink.seqNo, w.sink.Payloads(f.snap, f.at);
      && Arrived(w, f) == FeedAll(OwnChannel(w), w.sys.registry.index, w.sys.clock, setup.who, q, ps)
      && w.sink.AfterPublish(f.snap, f.at, f.room).seqNo == q + |ps|
  {
    hide Feed, SinkState.Payloads, Numbered;
  }

  /** The agent's own channel after a publish that got through. */
  lemma PublishLands(setup: Setup, w: World, f: Findings)
    requires Good(setup, w) && Sweeps(setup.mode, w, f) && Lands(setup.who, w, f)
    ensures w.own.value in w.sys.sessions
    ensures Landed(Arrived(w, f), setup.who, w.sink.AfterPublish(f.snap, f.at, f.room).seqNo, ToldAfter(setup.who, w, f),
                   Retained(w.prev, f.snap.locals), Reported(f.snap.paths))
  {
    hide Sweeps, Follows, FullPayloads, DeltaPayloads, Arrived, FeedAll, PathsPending, OwnStream, Tuned, SeqBound, OthersBehave,
      OwnBehaves, P.Sound, ToldStands, Coherent, NothingElse, Landed, Usurped, SinkState.AfterPublish, SinkState.Succeeds,
      Authoritative, ToldByFull, ToldByDeltas, Retained, Reported;
    OwnIsTuned(setup.who, w);
    SweepFollows(setup.mode, w, f);
    ArrivedAll(setup, w, f);
    var c, who, ix, now, q := OwnChannel(w), setup.who, w.sys.registry.index, w.sys.clock, w.sink.seqNo;
    if w.sink.Full(f.at) {
      FullLands(c, ix, now, who, q, w.prev, f.snap, w.sink.epoch + 1);
    } else {
      DeltaLands(c, ix, now, who, q, w.told, w.prev, w.verdicts, f.snap);
    }
  }

  lemma SentPrefix(setup: Setup, w: World, f: Findings) returns (ps: seq<Payload>)
    requires w.own.Some? && w.own.value in w.sys.sessions && w.sink.connected
    requires w.sink.nodeName == setup.who.node && w.sink.instanceID == setup.who.instance
    ensures ps <= w.sink.Payloads(f.snap, f.at)
    ensures !w.sink.Succeeds(f.snap, f.at, f.room) ==> |ps| < |w.sink.Payloads(f.snap, f.at)|
    ensures Arrived(w, f) == FeedAll(OwnChannel(w), w.sys.registry.index, w.sys.clock, setup.who, w.sink.seqNo, ps)
  {
    hide Feed, SinkState.Payloads, Numbered;
    var all := w.sink.Payloads(f.snap, f.at);
    ps := if |all| <= f.room then all else all[..f.room];
  }

  lemma AdoptionMovesNothing(st: StoreState, node: string, instance: string, s: Subject, who: Who, w: Word)
    ensures Holds(st.Adopt(node, instance), who, s, w) == Holds(st, who, s, w)
  {
  }

  /** A snapshot that does not get through leaves everything told as it was. */
  lemma FullFails(c: Channel, ix: Index, now: int, who: Who, q: nat, told: Told, snap: Snapshot, e: nat, ps: seq<Payload>)
    requires OwnSession(c.session, who) && ps <= FullPayloads(snap, e) && ToldStands(c.store, who, told)
    requires |ps| < |FullPayloads(snap, e)| || (c.session.adopted && !c.store.Current(Origin(who)))
    ensures ToldStands(FeedAll(c, ix, now, who, q, ps).store, who, told)
  {
    hide FeedAll, FullPayloads, Opening, OwnSession, StoreState.Adopt, Holds;
    if c.session.adopted && !c.store.Current(Origin(who)) {
      SupersededSnapshot(c, ix, now, who, q, snap, e, ps);
    } else {
      ThenEnd(snap, e);
      OpeningIsUnseen(c, ix, now, who, q, snap, e, ps);
      forall s | s in told ensures Holds(FeedAll(c, ix, now, who, q, ps).store, who, s, told[s]) {
        AdoptionMovesNothing(c.store, who.node, who.instance, s, who, told[s]);
      }
    }
  }

  /** Deltas that may not get through leave what they do not speak of. */
  lemma DeltaFails(c: Channel, ix: Index, now: int, who: Who, q: nat, told: Told, snap: Snapshot, ps: seq<Payload>)
    requires ps <= DeltaPayloads(snap) && ToldStands(c.store, who, told)
    ensures ToldStands(FeedAll(c, ix, now, who, q, ps).store, who, Unspoken(told, snap))
  {
    hide FeedAll, DeltaPayloads, P.EvidenceAt;
    forall s | s in Unspoken(told, snap) ensures Holds(FeedAll(c, ix, now, who, q, ps).store, who, s, told[s]) {
      DeltasMoveOnlyNamed(c, ix, now, who, q, snap, ps, s.kind, s.key);
    }
  }

  lemma PublishFails(setup: Setup, w: World, f: Findings)
    requires Good(setup, w) && w.own.Some? && !Lands(setup.who, w, f)
    ensures w.own.value in w.sys.sessions && ToldStands(Arrived(w, f).store, setup.who, ToldAfter(setup.who, w, f))
  {
    hide FullPayloads, DeltaPayloads, Arrived, FeedAll, PathsPending, SeqBound, OthersBehave, P.Sound, ToldStands, Coherent,
      NothingElse, SinkState.AfterPublish, SinkState.Succeeds, OwnSession, StoreState.Current;
    var c, who, ix, now, q := OwnChannel(w), setup.who, w.sys.registry.index, w.sys.clock, w.sink.seqNo;
    var ps := SentPrefix(setup, w, f);
    if w.sink.Full(f.at) {
      FullFails(c, ix, now, who, q, w.told, f.snap, w.sink.epoch + 1, ps);
    } else {
      DeltaFails(c, ix, now, who, q, w.told, f.snap, ps);
    }
  }

  lemma OwnSendsBounded(w: World, f: Findings, instance: string)
    requires w.own.Some? && w.own.value in w.sys.sessions && SeqBound(w.sys.store, instance, w.sink.seqNo)
    requires w.sink.connected
    ensures SeqBound(Arrived(w, f).store, instance, w.sink.AfterPublish(f.snap, f.at, f.room).seqNo)
  {
    hide SinkState.Payloads, SinkState.Full, Feed, SeqBound;
    var es, q' := w.sink.SentBy(f.snap, f.at, f.room), w.sink.AfterPublish(f.snap, f.at, f.room).seqNo;
    assert |es| <= q' - w.sink.seqNo;
    forall e | e in es ensures e.sequence <= q' {
      var i :| 0 <= i < |es| && es[i] == e;
      assert e.sequence == w.sink.seqNo + i + 1;
    }
    FeedBound(OwnChannel(w), w.sys.registry.index, w.sys.clock, es, instance, w.sink.seqNo, q');
  }

  // ---------------------------------------------------------------- every step keeps the invariant

  lemma PendingIsLocal(mode: PathMode, w: World, w': World)
    requires w'.probes == w.probes && w'.prev == w.prev && w'.verdicts == w.verdicts
    ensures PathsPending(mode, w') == PathsPending(mode, w)
  {
  }

  lemma OthersAreLocal(who: Who, w: World, w': World)
    requires w'.sys.sessions == w.sys.sessions && w'.own == w.own
    ensures OthersBehave(who, w') == OthersBehave(who, w)
  {
  }

  lemma UsurpedStays(who: Who, w: World, f: Findings)
    requires OwnBehaves(who, w) && Usurped(who, w)
    ensures Arrived(w, f).session.open ==> OwnSession(Arrived(w, f).session, who)
    ensures Arrived(w, f).session.adopted && !Arrived(w, f).store.Current(Origin(who))
  {
    StaysAdopted(OwnChannel(w), w.sys.registry.index, w.sys.clock, w.sink.SentBy(f.snap, f.at, f.room));
    hide Feed;
  }

  /** What the sweep leaves of the world, in terms of what arrived. */
  lemma SweptParts(setup: Setup, w: World, f: Findings)
    requires w.own.Some? ==> w.own.value in w.sys.sessions
    ensures
      var w' := Swept(setup, w, f);
      && w'.prev == Retained(w.prev, f.snap.locals) && w'.verdicts == Reported(f.snap.paths)
      && w'.probes == ProbesAfter(setup.mode, w.probes, f.specs)
      && w'.told == ToldAfter(setup.who, w, f)
      && w'.sys.clock == w.sys.clock && w'.sys.registry == w.sys.registry && w'.sys.nextStream == w.sys.nextStream
      && (w.own.None? ==>
            w'.sys == w.sys && w'.own == None && w'.sink == w.sink.AfterPublish(f.snap, f.at, f.room))
      && (w.own.Some? ==>
            && w'.sys.store == Arrived(w, f).store
            && var sink' := w.sink.AfterPublish(f.snap, f.at, f.room);
               if w.sink.Succeeds(f.snap, f.at, f.room) && Arrived(w, f).session.open then
                 && w'.own == w.own && w'.sink == sink'
                 && w'.sys.sessions == w.sys.sessions[w.own.value := Arrived(w, f).session]
               else
                 && w'.own == None && w'.sink == sink'.(connected := false)
                 && w'.sys.sessions == w.sys.sessions - {w.own.value})
  {
    hide Feed, SinkState.Succeeds, SinkState.AfterPublish, SinkState.SentBy, Retained, Reported, ProbesAfter, ToldAfter;
  }

  lemma AfterPublishKeeps(k: SinkState, f: Findings)
    ensures
      var k' := k.AfterPublish(f.snap, f.at, f.room);
      && k'.nodeName == k.nodeName && k'.instanceID == k.instanceID && k'.connected == k.connected && k'.refresh == k.refresh
      && (k.Succeeds(f.snap, f.at, f.room) ==> !k'.needSnapshot)
      && (!k.connected ==> k' == k)
      && (k.Succeeds(f.snap, f.at, f.room) ==> k.connected)
  {
    hide FullPayloads, DeltaPayloads;
  }

  lemma SessionsStayGood(setup: Setup, w: World, f: Findings)
    requires Good(setup, w) && w.own.Some? && w.sink.Succeeds(f.snap, f.at, f.room) && Arrived(w, f).session.open
    requires !Usurped(setup.who, w) ==>
      OwnSession(Arrived(w, f).session, setup.who) && Arrived(w, f).session.adopted && !Arrived(w, f).session.inSnapshot
    ensures
      var w' := Swept(setup, w, f);
      && P.Sound(w'.sys) && OthersBehave(setup.who, w') && OwnBehaves(setup.who, w') && w'.own == w.own
  {
    hide Arrived, SinkState.AfterPublish, SinkState.Succeeds, ToldAfter, ToldStands, SeqBound, PathsPending, Retained, Reported,
      RegistryState.Valid, Coherent, NothingElse, BuffersOnNode, ProbesAfter, Swept;
    SweptParts(setup, w, f);
    AfterPublishKeeps(w.sink, f);
    if Usurped(setup.who, w) {
      UsurpedStays(setup.who, w, f);
    }
  }

  lemma BrokenOffStaysGood(setup: Setup, w: World, f: Findings)
    requires Good(setup, w) && w.own.Some? && !(w.sink.Succeeds(f.snap, f.at, f.room) && Arrived(w, f).session.open)
    ensures
      var w' := Swept(setup, w, f);
      && P.Sound(w'.sys) && OthersBehave(setup.who, w') && w'.own == None && !w'.sink.connected
  {
    hide Arrived, SinkState.AfterPublish, SinkState.Succeeds, ToldAfter, ToldStands, SeqBound, PathsPending, Retained, Reported,
      RegistryState.Valid, Coherent, NothingElse, BuffersOnNode, ProbesAfter, Swept;
    SweptParts(setup, w, f);
  }

  lemma ToldAfterHolds(setup: Setup, w: World, f: Findings)
    requires Good(setup, w) && Sweeps(setup.mode, w, f)
    ensures ToldStands(Swept(setup, w, f).sys.store, setup.who, ToldAfter(setup.who, w, f))
    ensures SeqBound(Swept(setup, w, f).sys.store, setup.who.instance, w.sink.AfterPublish(f.snap, f.at, f.room).seqNo)
  {
    hide Arrived, SinkState.AfterPublish, SinkState.Succeeds, ToldStands, SeqBound, PathsPending, Retained, Reported, ProbesAfter,
      RegistryState.Valid, Coherent, NothingElse, OthersBehave, Sweeps, P.Sound, Swept, ToldByFull, ToldByDeltas, OwnSession;
    SweptParts(setup, w, f);
    AfterPublishKeeps(w.sink, f);
    if w.own.Some? {
      OwnSendsBounded(w, f, setup.who.instance);
      if Lands(setup.who, w, f) {
        PublishLands(setup, w, f);
      } else {
        PublishFails(setup, w, f);
      }
    }
  }

  lemma PublishKeeps(setup: Setup, w: World, f: Findings)
    requires Good(setup, w) && Sweeps(setup.mode, w, f)
    ensures Good(setup, Swept(setup, w, f))
    ensures Lands(setup.who, w, f) ==>
      var w' := Swept(setup, w, f);
      w'.own == w.own && InStep(setup.who, w')
  {
    hide Arrived, SinkState.AfterPublish, SinkState.Succeeds, ToldStands, SeqBound, Retained, Reported, ToldAfter, ProbesAfter,
      Coherent, NothingElse, OthersBehave, Sweeps, P.Sound, Swept, OwnSession, Tuned, PathsPending, Follows;
    var who, w' := setup.who, Swept(setup, w, f);
    SweepFollows(setup.mode, w, f);
    SweptParts(setup, w, f);
    AfterPublishKeeps(w.sink, f);
    ToldAfterHolds(setup, w, f);
    PendingIsLocal(setup.mode, w.(prev := w'.prev, probes := w'.probes, verdicts := w'.verdicts), w');
    if w.own.Some? {
      if Lands(who, w, f) {
        PublishLands(setup, w, f);
        TunedIsReady(Arrived(w, f), who, w.sink.AfterPublish(f.snap, f.at, f.room).seqNo);
      } else if Usurped(who, w) {
        UsurpedStays(who, w, f);
      }
      if w.sink.Succeeds(f.snap, f.at, f.room) && Arrived(w, f).session.open {
        SessionsStayGood(setup, w, f);
      } else {
        BrokenOffStaysGood(setup, w, f);
      }
    } else {
      OthersAreLocal(who, w, w');
    }
  }

  lemma EmptyStoreHoldsNothing(ttl: int, instance: string, q: nat)
    ensures SeqBound(EmptyStore.(ttl := ttl), instance, q)
  {
  }

  lemma ConnectKeeps(setup: Setup, w: World, auth: Option<string>)
    requires Good(setup, w) && w.own.None? && auth in {None, Some(setup.who.node)}
    ensures Good(setup, Connected(w, auth))
  {
    NewSessionIsClean(auth);
    hide SeqBound, ToldStands, Coherent, NothingElse, RegistryState.Valid, BuffersOnNode, P.SessionSound, StoreState.Current,
      PathsPending;
    PendingIsLocal(setup.mode, w, Connected(w, auth));
  }

  lemma DisconnectKeeps(setup: Setup, w: World)
    requires Good(setup, w)
    ensures Good(setup, Broken(w))
  {
    hide SeqBound, ToldStands, Coherent, NothingElse, RegistryState.Valid, BuffersOnNode, P.SessionSound, PathsPending,
      StoreState.Current;
    PendingIsLocal(setup.mode, w, Broken(w));
  }

  lemma RestartKeeps(setup: Setup, w: World)
    requires Good(setup, w)
    ensures Good(setup, Restarted(w))
  {
    EmptyStoreHoldsNothing(w.sys.store.ttl, setup.who.instance, w.sink.seqNo);
    hide SeqBound, Coherent, NothingElse, RegistryState.Valid, EmptyStore, PathsPending;
    PendingIsLocal(setup.mode, w, Restarted(w));
  }

  lemma ResyncKeeps(setup: Setup, w: World)
    requires Good(setup, w)
    ensures Good(setup, w.(sink := w.sink.(needSnapshot := true)))
  {
    hide SeqBound, ToldStands, Coherent, NothingElse, P.Sound, BuffersOnNode, PathsPending, OwnSession;
    PendingIsLocal(setup.mode, w, w.(sink := w.sink.(needSnapshot := true)));
  }

  lemma ProbeKeeps(setup: Setup, w: World, k: Key, success: bool)
    requires Good(setup, w)
    ensures Good(setup, w.(probes := w.probes.WithSample(k, success)))
  {
    hide SeqBound, ToldStands, Coherent, NothingElse, BuffersOnNode, OwnSession, P.Sound, ManagerState.WithSample;
    if setup.mode.PathICMP? {
      forall j {
        PR.StepKeepsVerdict(w.probes, PR.Sample(k, success), j);
      }
    }
  }

  // ---------------------------------------------------------------- what happens elsewhere

  lemma SweepKeepsEvidence(st: StoreState, now: int, s: Subject)
    ensures P.EvidenceAt(st.AfterSweep(now), s.kind, s.key) == P.EvidenceAt(st, s.kind, s.key)
  {
  }

  lemma PruneKeepsEvidence(st: StoreState, now: int, s: Subject)
    requires P.EvidenceAt(st, s.kind, s.key).Some?
    ensures P.EvidenceAt(st.AfterPrune(now), s.kind, s.key) == P.EvidenceAt(st, s.kind, s.key) <==> !Outlived(st, s, now)
  {
  }

  /**
   Whatever happens elsewhere, the store's evidence on a subject the agent has told of
   stays as it was exactly when the event does not lose it.
   */
  lemma LosesIff(who: Who, w: World, e: P.Event, sys': P.System, s: Subject)
    requires P.Sound(w.sys) && ToldStands(w.sys.store, who, w.told) && s in w.told
    requires Around(who, w, e) && P.Next(w.sys, e, sys')
    ensures P.EvidenceAt(sys'.store, s.kind, s.key) == P.EvidenceAt(w.sys.store, s.kind, s.key) <==> !Loses(w.sys, e, s)
  {
    assert Holds(w.sys.store, who, s, w.told[s]);
    hide Handle, Admit, RegistryState.Valid, MarkAll, DropDead, Touches, P.EvidenceAt, Outlived, StoreState.AfterSweep,
      StoreState.AfterPrune;
    match e {
      case Deliver(i, env) =>
        OthersAdmission(w.sys.sessions[i], w.sys.store, env, who);
        TouchedIff(w.sys.sessions[i], w.sys.store, w.sys.registry.index, env, w.sys.clock, s.kind, s.key);
      case Sweep => SweepKeepsEvidence(w.sys.store, w.sys.clock, s);
      case Prune => PruneKeepsEvidence(w.sys.store, w.sys.clock, s);
      case _ =>
    }
  }

  lemma AroundKeepsTold(who: Who, w: World, e: P.Event, sys': P.System)
    requires P.Sound(w.sys) && ToldStands(w.sys.store, who, w.told)
    requires Around(who, w, e) && P.Next(w.sys, e, sys')
    ensures ToldStands(sys'.store, who, Surviving(w, e))
  {
    hide P.Sound, P.Next, Around, Loses, P.EvidenceAt;
    forall s | s in Surviving(w, e) ensures Holds(sys'.store, who, s, w.told[s]) {
      LosesIff(who, w, e, sys', s);
    }
  }

  /** Nobody else gives the agent's node back to it. */
  lemma AroundAuthority(who: Who, w: World, e: P.Event, sys': P.System)
    requires P.Sound(w.sys) && Around(who, w, e) && P.Next(w.sys, e, sys')
    ensures sys'.store.Current(Origin(who)) <==>
      Authoritative(who, w)
      && !(e.Deliver? && TakesOver(w.sys.sessions[e.stream], w.sys.store, e.env, who.node))
  {
    hide Handle, Admit, RegistryState.Valid, MarkAll, DropDead, TakesOver;
    if e.Deliver? {
      OthersAuthority(w.sys.sessions[e.stream], w.sys.store, w.sys.registry.index, e.env, w.sys.clock, who);
    }
  }

  lemma AroundFilesElsewhere(who: Who, w: World, e: P.Event, sys': P.System, k: Key)
    requires P.Sound(w.sys) && OthersBehave(who, w) && Around(who, w, e) && P.Next(w.sys, e, sys')
    requires sys'.store.Current(Origin(who)) && HeldLocally(sys'.store, who.node, k)
    ensures HeldLocally(w.sys.store, who.node, k)
  {
    hide Handle, RegistryState.Valid, BuffersOnNode, StoreState.Current;
    if e.Deliver? {
      OthersFileElsewhere(w.sys.sessions[e.stream], w.sys.store, w.sys.registry.index, e.env, w.sys.clock, who, LocalKind, k);
    }
  }

  lemma CoherentPart(told: Told, told': Told, prev: Memory, verdicts: Verdicts)
    requires Coherent(told, prev, verdicts) && forall s :: s in told' ==> s in told && told'[s] == told[s]
    ensures Coherent(told', prev, verdicts)
  {
    forall s ensures CoherentAt(told', prev, verdicts, s) {
      assert CoherentAt(told, prev, verdicts, s);
    }
  }

  lemma OthersIdentity(s: Session, st: StoreState, ix: Index, env: Envelope, now: int, who: Who)
    requires OthersStream(s, env, who)
    ensures var s' := Handle(s, st, ix, env, now).session; s'.adopted ==> s'.instance != who.instance
  {
    hide LocalFrom, PathFrom;
  }

  lemma DeliveryKeepsOthers(who: Who, w: World, i: nat, env: Envelope)
    requires P.Sound(w.sys) && OthersBehave(who, w)
    requires i in w.sys.sessions && Some(i) != w.own && OthersStream(w.sys.sessions[i], env, who)
    ensures
      var sys' := P.Delivered(w.sys, i, env);
      && OthersBehave(who, w.(sys := sys'))
      && (forall j :: j in w.sys.sessions && j != i ==> j in sys'.sessions && sys'.sessions[j] == w.sys.sessions[j])
  {
    hide Handle, BuffersOnNode, BuffersAllowed, RegistryState.Valid, OthersStream;
    TurnKeepsBuffers(w.sys.sessions[i], w.sys.store, w.sys.registry.index, env, w.sys.clock);
    OthersIdentity(w.sys.sessions[i], w.sys.store, w.sys.registry.index, env, w.sys.clock, who);
  }

  lemma AroundKeepsOthers(who: Who, w: World, e: P.Event, sys': P.System)
    requires P.Sound(w.sys) && OthersBehave(who, w) && Around(who, w, e) && P.Next(w.sys, e, sys')
    requires w.own.Some? ==> w.own.value in w.sys.sessions
    ensures P.Sound(sys') && OthersBehave(who, w.(sys := sys', told := Surviving(w, e)))
    ensures w.own.Some? ==> w.own.value in sys'.sessions && sys'.sessions[w.own.value] == w.sys.sessions[w.own.value]
  {
    hide BuffersOnNode, RegistryState.Valid, OthersStream, P.Delivered, StoreState.AfterSweep, StoreState.AfterPrune, NewSession,
      P.SessionSound, Surviving;
    assert w.sys.nextStream !in w.sys.sessions;
    hide P.Sound;
    P.StepKeepsSound(w.sys, e, sys');
    match e {
      case Open(auth) => NewSessionIsClean(auth);
      case Deliver(i, env) => DeliveryKeepsOthers(who, w, i, env);
      case _ =>
    }
  }

  lemma OthersNeverWriteFor(who: Who, w: World, e: P.Event, sys': P.System)
    requires Around(who, w, e)
    ensures e.Deliver? ==>
      forall ev :: P.Rewrites(w.sys, e.stream, e.env, sys', ev) ==> ev.origin.agentInstance != who.instance
  {
    if e.Deliver? {
      OthersAdmission(w.sys.sessions[e.stream], w.sys.store, e.env, who);
    }
    hide Admit, P.Heard, TakesOver;
  }

  lemma AroundKeepsBound(who: Who, w: World, e: P.Event, sys': P.System, q: nat)
    requires P.Sound(w.sys) && Around(who, w, e) && P.Next(w.sys, e, sys') && SeqBound(w.sys.store, who.instance, q)
    ensures SeqBound(sys'.store, who.instance, q)
  {
    hide Handle, RegistryState.Valid, P.Sound, P.Next, P.Rewrites, Around;
    var st' := sys'.store;
    OthersNeverWriteFor(who, w, e, sys');
    forall k | k in st'.local
      ensures st'.local[k].origin.agentInstance == who.instance ==> st'.local[k].origin.sequence <= q
    {
      P.StepProvenance(w.sys, e, sys', LocalKind, k);
    }
    forall k | k in st'.path
      ensures st'.path[k].origin.agentInstance == who.instance ==> st'.path[k].origin.sequence <= q
    {
      P.StepProvenance(w.sys, e, sys', PathKind, k);
    }
  }

  lemma OwnStays(who: Who, w: World, w': World)
    requires OwnBehaves(who, w) && w'.own == w.own && w'.sink == w.sink
    requires w.own.Some? ==>
      && w.own.value in w.sys.sessions && w.own.value in w'.sys.sessions
      && w'.sys.sessions[w.own.value] == w.sys.sessions[w.own.value]
      && (Authoritative(who, w') ==> Authoritative(who, w))
    ensures OwnBehaves(who, w')
  {
    hide OwnSession;
  }

  lemma OwnIsThere(who: Who, w: World)
    requires OwnBehaves(who, w)
    ensures w.own.Some? ==> w.own.value in w.sys.sessions
  {
  }

  lemma AroundKeepsFaith(who: Who, w: World, e: P.Event, sys': P.System)
    requires P.Sound(w.sys) && OthersBehave(who, w) && Around(who, w, e) && P.Next(w.sys, e, sys')
    requires sys'.store.Current(Origin(who)) && Faithful(who, w)
    ensures Faithful(who, w.(sys := sys', told := Surviving(w, e)))
  {
    hide P.Sound, OthersBehave, Around, P.Next, HeldLocally, Coherent, Loses, StoreState.Current;
    CoherentPart(w.told, Surviving(w, e), w.prev, w.verdicts);
    forall k | HeldLocally(sys'.store, who.node, k) ensures k in w.prev {
      AroundFilesElsewhere(who, w, e, sys', k);
    }
  }

  lemma AroundKeeps(setup: Setup, w: World, e: P.Event, sys': P.System)
    requires Good(setup, w) && Around(setup.who, w, e) && P.Next(w.sys, e, sys')
    ensures Good(setup, w.(sys := sys', told := Surviving(w, e)))
  {
    hide P.Sound, P.Next, Around, OthersBehave, OwnBehaves, SeqBound, ToldStands, Faithful, StoreState.Current, Surviving,
      TakesOver;
    var who, w' := setup.who, w.(sys := sys', told := Surviving(w, e));
    OwnIsThere(who, w);
    AroundKeepsOthers(who, w, e, sys');
    AroundKeepsBound(who, w, e, sys', w.sink.seqNo);
    AroundKeepsTold(who, w, e, sys');
    AroundAuthority(who, w, e, sys');
    OwnStays(who, w, w');
    PendingIsLocal(setup.mode, w, w');
    if InStep(who, w') {
      AroundKeepsFaith(who, w, e, sys');
    }
  }

  // ---------------------------------------------------------------- over every run

  lemma StepKeeps(setup: Setup, w: World, e: Event, w': World)
    requires Good(setup, w) && Step(setup, w, e, w')
    ensures Good(setup, w')
  {
    hide Good, Sweeps, Around, P.Next, Swept, Connected, Broken, Restarted, Surviving;
    match e {
      case Connect(auth) => ConnectKeeps(setup, w, auth);
      case Disconnect => DisconnectKeeps(setup, w);
      case Resync => ResyncKeeps(setup, w);
      case Restart => RestartKeeps(setup, w);
      case ProbeResult(k, success) => ProbeKeeps(setup, w, k, success);
      case SweepAndPublish(f) => PublishKeeps(setup, w, f);
      case Elsewhere(x) => AroundKeeps(setup, w, x, w'.sys);
    }
  }

  lemma StartIsGood(setup: Setup, w: World)
    requires Start(setup, w)
    ensures Good(setup, w)
  {
    hide SeqBound, BuffersOnNode, P.Sound;
  }

  lemma {:induction false} RunGood(setup: Setup, r: History, n: nat)
    requires IsHistory(setup, r) && n < |r.worlds|
    ensures Good(setup, r.worlds[n])
  {
    hide Good, Step, Start;
    if n > 0 {
      RunGood(setup, r, n - 1);
      assert StepAt(setup, r, n - 1);
      StepKeeps(setup, r.worlds[n - 1], r.events[n - 1], r.worlds[n]);
    } else {
      StartIsGood(setup, r.worlds[0]);
    }
  }

  /** Over every run, whatever the agent has told and the store has not lost stands there as the agent's, verdict and time. */
  lemma ToldIsHeld(setup: Setup, r: History, n: nat, s: Subject)
    requires IsHistory(setup, r) && n < |r.worlds| && s in r.worlds[n].told
    ensures Holds(r.worlds[n].sys.store, setup.who, s, r.worlds[n].told[s])
  {
    hide Step, Start, Holds, P.Sound, OthersBehave, OwnBehaves, SeqBound, PathsPending, Faithful;
    RunGood(setup, r, n);
  }

  ghost predicate Agrees(who: Who, w: World) {
    LocalsAgree(w.sys.store, who.node, w.prev) && PathsAgree(w.sys.store, who.node, w.verdicts)
  }

  lemma FaithfulAgrees(setup: Setup, w: World)
    requires Good(setup, w) && InStep(setup.who, w)
    ensures Coherent(w.told, w.prev, w.verdicts) && NothingElse(w.sys.store, setup.who.node, w.prev)
    ensures Whole(w.told, w.prev, w.verdicts) ==> Agrees(setup.who, w)
  {
    hide P.Sound, OthersBehave, OwnBehaves, SeqBound, PathsPending, ToldStands, Coherent, NothingElse, Whole, LocalsAgree, PathsAgree,
      InStep;
    if Whole(w.told, w.prev, w.verdicts) {
      WholeAgrees(w.sys.store, setup.who, w.told, w.prev, w.verdicts);
    }
  }

  /**
   Over every run, while the agent is in step with the controller, what it has told is
   what it stands by now, the store holds nothing else for its node, and if it has told
   everything the two agree in full.
   */
  lemma AgreementLasts(setup: Setup, r: History, n: nat)
    requires IsHistory(setup, r) && n < |r.worlds| && InStep(setup.who, r.worlds[n])
    ensures
      var w := r.worlds[n];
      && Coherent(w.told, w.prev, w.verdicts) && NothingElse(w.sys.store, setup.who.node, w.prev)
      && (Whole(w.told, w.prev, w.verdicts) ==> Agrees(setup.who, w))
  {
    hide Step, Start, Good, Agrees, Whole, Coherent, NothingElse;
    RunGood(setup, r, n);
    FaithfulAgrees(setup, r.worlds[n]);
  }

  lemma PathsOfOneKeyAgree(mode: PathMode, m: ManagerState, f: Findings, p: PathHealth, q: PathHealth)
    requires PathsFound(mode, m, f) && p in f.snap.paths && q in f.snap.paths && p.scopeID == q.scopeID
    ensures p.pathReady == q.pathReady
  {
    hide ManagerState.WithTargets;
  }

  /** The store's picture of the node is that of these findings. */
  ghost predicate Mirrors(st: StoreState, node: string, snap: Snapshot) {
    && (forall id :: HeldLocally(st, node, id) <==> id in Live(snap.locals))
    && (forall id :: id in Live(snap.locals) ==>
          && LastFor(snap.locals, LocalKey, id).Some?
          && st.local[id].report.Ready() == LastFor(snap.locals, LocalKey, id).value.Ready())
    && (forall p :: p in snap.paths ==>
          p.scopeID in st.path && st.path[p.scopeID].report.pathReady == p.pathReady)
  }

  lemma AgreementMirrors(setup: Setup, w: World, f: Findings, st: StoreState)
    requires PathsFound(setup.mode, w.probes, f)
    requires LocalsAgree(st, setup.who.node, Retained(w.prev, f.snap.locals))
    requires PathsAgree(st, setup.who.node, Reported(f.snap.paths))
    ensures Mirrors(st, setup.who.node, f.snap)
  {
    hide Reported, Remembered, ChangedBy, Live, PathsFound, LastFor;
    var node, snap := setup.who.node, f.snap;
    forall id ensures HeldLocally(st, node, id) <==> id in Live(snap.locals)
      ensures id in Live(snap.locals) ==>
        && LastFor(snap.locals, LocalKey, id).Some?
        && st.local[id].report.Ready() == LastFor(snap.locals, LocalKey, id).value.Ready()
    {
      assert LocalAgrees(st, node, Retained(w.prev, snap.locals), id);
      SweepMeaning(w.prev, snap.locals, id);
    }
    forall p | p in snap.paths
      ensures p.scopeID in st.path && st.path[p.scopeID].report.pathReady == p.pathReady
    {
      assert PathAgrees(st, node, Reported(snap.paths), p.scopeID);
      LastVerdict(snap.paths, p.scopeID);
      var q :| q in snap.paths && q.scopeID == p.scopeID && q.pathReady == Reported(snap.paths)[p.scopeID];
      PathsOfOneKeyAgree(setup.mode, w.probes, f, p, q);
    }
  }

  lemma GoodSystem(setup: Setup, w: World)
    requires Good(setup, w)
    ensures P.Sound(w.sys)
  {
  }

  lemma GoodParts(setup: Setup, w: World)
    requires Good(setup, w)
    ensures w.own.Some? ==> w.own.value in w.sys.sessions
    ensures PathsPending(setup.mode, w) && ToldStands(w.sys.store, setup.who, w.told)
  {
  }

  /** The store speaks for this sweep: nothing else is held for the node, and what was told of it is its last verdict. */
  ghost predicate Speaks(w: World, who: Who, snap: Snapshot) {
    && (forall k :: HeldLocally(w.sys.store, who.node, k) ==> k in Live(snap.locals))
    && (forall s :: s in w.told && Saying(snap, s).Some? ==>
          Holds(w.sys.store, who, s, w.told[s]) && w.told[s].verdict == Saying(snap, s).value)
  }

  lemma LandedSpeaks(setup: Setup, w: World, f: Findings)
    requires Good(setup, w) && Sweeps(setup.mode, w, f) && Lands(setup.who, w, f)
    ensures Speaks(Swept(setup, w, f), setup.who, f.snap)
  {
    hide Good, Sweeps, Lands, Swept, Arrived, Holds, Saying, HeldLocally, Retained, Reported, ToldAfter, Live, InStep, Whole,
      SinkState.AfterPublish, ProbesAfter;
    var who, w' := setup.who, Swept(setup, w, f);
    GoodParts(setup, w);
    SweptParts(setup, w, f);
    PublishKeeps(setup, w, f);
    GoodParts(setup, w');
    FaithfulAgrees(setup, w');
    forall k | HeldLocally(w'.sys.store, who.node, k) ensures k in Live(f.snap.locals) {
      SayingMeaning(w.prev, f.snap, Subject(LocalKind, k));
    }
    forall s | s in w'.told && Saying(f.snap, s).Some?
      ensures Holds(w'.sys.store, who, s, w'.told[s]) && w'.told[s].verdict == Saying(f.snap, s).value
    {
      SayingMeaning(w.prev, f.snap, s);
      assert CoherentAt(w'.told, w'.prev, w'.verdicts, s);
    }
  }

  /** Deltas go out only on an adopted stream that owes no snapshot. */
  lemma OwedIsFull(setup: Setup, w: World, f: Findings)
    requires Good(setup, w) && w.own.Some? && !Usurped(setup.who, w) && !w.sink.Full(f.at)
    ensures InStep(setup.who, w)
  {
  }

  /** Which of a sweep's statements stand after a publish that got through. */
  lemma LandedTells(who: Who, w: World, f: Findings, s: Subject)
    requires Lands(who, w, f) && Saying(f.snap, s).Some?
    requires s.kind == LocalKind ==> s.key !in f.snap.retired
    ensures
      s in ToldAfter(who, w, f) <==>
        if w.sink.Full(f.at) || s.key in f.snap.changed then Heeded(w.sys.registry.index, who.node, f.snap, s) else s in w.told
  {
    hide Saying, Heeded, ToldByFull, ToldByDeltas, SinkState.Succeeds, Usurped;
    ToldByFullAt(w.sys.registry.index, who.node, f.snap, w.sys.clock, s);
    ToldByDeltasAt(w.told, w.sys.registry.index, who.node, f.snap, w.sys.clock, s);
  }

  lemma SaidIsNotRetired(mode: PathMode, w: World, f: Findings, s: Subject)
    requires Sweeps(mode, w, f) && Saying(f.snap, s).Some? && s.kind == LocalKind
    ensures s.key !in f.snap.retired
  {
    SayingMeaning(w.prev, f.snap, s);
    hide Retained, Reported, PathsFound, ChangedIn, Live;
  }

  lemma LandedWhole(setup: Setup, w: World, f: Findings)
    requires Sweeps(setup.mode, w, f) && PathsPending(setup.mode, w) && Lands(setup.who, w, f)
    requires Matches(w.sys.registry.index, setup.who.node, f.snap)
    requires w.sink.Full(f.at) || Whole(w.told, w.prev, w.verdicts)
    ensures Whole(ToldAfter(setup.who, w, f), Retained(w.prev, f.snap.locals), Reported(f.snap.paths))
  {
    hide Sweeps, PathsPending, Matches, Whole, Follows, Retained, Reported, ToldByFull, ToldByDeltas, SinkState.Succeeds, Usurped;
    SweepFollows(setup.mode, w, f);
    if w.sink.Full(f.at) {
      FullIsWhole(w.sys.registry.index, setup.who.node, f.snap, w.sys.clock, w.prev);
    } else {
      DeltasStayWhole(w.told, w.sys.registry.index, setup.who.node, f.snap, w.sys.clock, w.prev, w.verdicts);
    }
  }

  lemma PathsOfSweep(mode: PathMode, w: World, f: Findings)
    requires Sweeps(mode, w, f)
    ensures PathsFound(mode, w.probes, f)
  {
  }

  lemma PublishMirrors(setup: Setup, w: World, f: Findings)
    requires Good(setup, w) && Sweeps(setup.mode, w, f) && Lands(setup.who, w, f)
    requires Matches(w.sys.registry.index, setup.who.node, f.snap)
    requires w.sink.Full(f.at) || Whole(w.told, w.prev, w.verdicts)
    ensures Mirrors(Swept(setup, w, f).sys.store, setup.who.node, f.snap)
  {
    hide Good, Sweeps, Lands, Swept, Matches, Whole, Retained, Reported, Mirrors, InStep, LocalsAgree, PathsAgree,
      SinkState.AfterPublish, ToldAfter, Arrived, ProbesAfter;
    var w' := Swept(setup, w, f);
    GoodParts(setup, w);
    SweptParts(setup, w, f);
    PublishKeeps(setup, w, f);
    LandedWhole(setup, w, f);
    FaithfulAgrees(setup, w');
    PathsOfSweep(setup.mode, w, f);
    AgreementMirrors(setup, w, f, w'.sys.store);
  }

  lemma ToldIsAfter(setup: Setup, w: World, f: Findings)
    requires w.own.Some? ==> w.own.value in w.sys.sessions
    ensures Swept(setup, w, f).told == ToldAfter(setup.who, w, f)
  {
    hide Swept, ToldAfter;
    SweptParts(setup, w, f);
  }

  /**
   Over every run, after a publish that got through, subject by subject: nothing is held
   for the node that the sweep did not observe; of each statement of the sweep the store
   holds the last verdict, exactly if the registry takes it, or it needed no repeating and
   had been told; and if the registry takes all of it, and the publish was a snapshot or
   all had been told, the store's picture of the node is the sweep's.
   */
  lemma ControllerAgrees(setup: Setup, r: History, n: nat)
    requires IsHistory(setup, r) && n < |r.events| && r.events[n].SweepAndPublish?
    requires Lands(setup.who, r.worlds[n], r.events[n].f)
    ensures
      var w, f, w' := r.worlds[n], r.events[n].f, r.worlds[n + 1];
      var ix := w.sys.registry.index;
      && Speaks(w', setup.who, f.snap)
      && (forall s :: Saying(f.snap, s).Some? ==>
            (s in w'.told <==>
              if w.sink.Full(f.at) || s.key in f.snap.changed then Heeded(ix, setup.who.node, f.snap, s) else s in w.told))
      && (Matches(ix, setup.who.node, f.snap) && (w.sink.Full(f.at) || Whole(w.told, w.prev, w.verdicts)) ==>
            Mirrors(w'.sys.store, setup.who.node, f.snap))
  {
    hide Start, Good, Sweeps, Lands, Swept, Speaks, Mirrors, Saying, Heeded, Matches, Whole, ToldAfter, SinkState.Full;
    var w, f := r.worlds[n], r.events[n].f;
    RunGood(setup, r, n);
    assert StepAt(setup, r, n);
    LandedSpeaks(setup, w, f);
    GoodParts(setup, w);
    ToldIsAfter(setup, w, f);
    forall s | Saying(f.snap, s).Some?
      ensures s in r.worlds[n + 1].told <==>
        if w.sink.Full(f.at) || s.key in f.snap.changed then Heeded(w.sys.registry.index, setup.who.node, f.snap, s) else s in w.told
    {
      if s.kind == LocalKind {
        SaidIsNotRetired(setup.mode, w, f, s);
      }
      LandedTells(setup.who, w, f, s);
    }
    if Matches(w.sys.registry.index, setup.who.node, f.snap) && (w.sink.Full(f.at) || Whole(w.told, w.prev, w.verdicts)) {
      PublishMirrors(setup, w, f);
    }
  }
}
