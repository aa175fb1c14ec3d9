/**
 The controller as a state machine: several agent streams, registry changes, expiry
 sweeps, prunes and the clock, interleaved at will. One event is one atomic step; an
 envelope is one event.
 */
module Protocol {
  import opened Ordering
  import opened HealthModel
  import opened Messages
  import opened Store
  import opened RegistryIndex
  import opened Server

  /** Streams are numbered in order of opening, so a number never means two streams. */
  datatype System = System(
    clock: int, store: StoreState, registry: RegistryState, sessions: map<nat, Session>, nextStream: nat)

  datatype Event =
    | Tick(to: int)
    | Open(auth: Option<string>)
    | Close(stream: nat)
    | Deliver(stream: nat, env: Envelope)
    | SetService(key: ServiceKey, atts: seq<Attachment>, scope: ProbeScope)
    | RemoveService(key: ServiceKey)
    | Sweep
    | Prune

  ghost predicate Init(s: System) {
    && s.store == EmptyStore.(ttl := s.store.ttl)
    && s.registry == RegistryState(map[], EmptyIndex)
    && s.sessions == map[] && s.nextStream == 0
  }

  function Turn(s: System, stream: nat, env: Envelope): Outcome
    requires stream in s.sessions
  {
    Handle(s.sessions[stream], s.store, s.registry.index, env, s.clock)
  }

  function Delivered(s: System, stream: nat, env: Envelope): System
    requires stream in s.sessions
  {
    var out := Turn(s, stream, env);
    s.(store := out.store,
       sessions := if out.session.open then s.sessions[stream := out.session] else s.sessions - {stream})
  }

  /** The stream's variables once the envelope has been admitted. */
  function Admitted(s: System, stream: nat, env: Envelope): Session
    requires stream in s.sessions
  {
    Admit(s.sessions[stream], s.store, env).session
  }

  /** The stream is adopted for (node, instance), and the envelope claims that instance. */
  predicate SpeaksFor(s: System, stream: nat, env: Envelope, node: string, instance: string)
    requires stream in s.sessions
  {
    && Admitted(s, stream, env).adopted
    && Admitted(s, stream, env).node == node
    && Admitted(s, stream, env).instance == instance
    && env.agentInstanceId == instance
  }

  /** Rebuilding the index leaves it free which of several same-ID attachments it keeps. */
  ghost predicate Rebuilt(s: System, table: ServiceTable, s': System) {
    s'.registry.table == table && s'.registry.Valid() && s' == s.(registry := s'.registry)
  }

  ghost predicate Next(s: System, e: Event, s': System) {
    match e
    case Tick(to) => s.clock <= to && s' == s.(clock := to)
    case Open(auth) =>
      s' == s.(sessions := s.sessions[s.nextStream := NewSession(auth)], nextStream := s.nextStream + 1)
    case Close(stream) => stream in s.sessions && s' == s.(sessions := s.sessions - {stream})
    case Deliver(stream, env) => stream in s.sessions && s' == Delivered(s, stream, env)
    case SetService(key, atts, scope) => Rebuilt(s, s.registry.table[key := ServiceEntry(atts, scope)], s')
    case RemoveService(key) => Rebuilt(s, s.registry.table - {key}, s')
    case Sweep => s' == s.(store := s.store.AfterSweep(s.clock))
    case Prune => s' == s.(store := s.store.AfterPrune(s.clock))
  }

  datatype Run = Run(states: seq<System>, events: seq<Event>)

  ghost predicate StepAt(r: Run, i: int)
    requires |r.states| == |r.events| + 1 && 0 <= i < |r.events|
  {
    Next(r.states[i], r.events[i], r.states[i + 1])
  }

  ghost predicate IsRun(r: Run) {
    && |r.states| == |r.events| + 1
    && Init(r.states[0])
    && forall i :: 0 <= i < |r.events| ==> StepAt(r, i)
  }

  lemma StepOf(r: Run, i: nat)
    requires IsRun(r) && i < |r.events|
    ensures Next(r.states[i], r.events[i], r.states[i + 1])
  {
    hide Next, Init;
    assert StepAt(r, i);
  }

  lemma StartsEmpty(r: Run)
    requires IsRun(r)
    ensures r.states[0].sessions == map[]
    ensures r.states[0].store == EmptyStore.(ttl := r.states[0].store.ttl)
  {
    hide Next;
  }

  // ---------------------------------------------------------------- reports of either kind

  datatype Report = LocalReport(local: LocalHealth) | PathReport(path: PathHealth) {
    function Kind(): Kind {
      if LocalReport? then LocalKind else PathKind
    }

    function Key(): Key {
      match this
      case LocalReport(l) => l.attachmentID
      case PathReport(p) => p.scopeID
    }

    function Node(): string {
      match this
      case LocalReport(l) => l.nodeName
      case PathReport(p) => p.nodeName
    }

    predicate Positive() {
      match this
      case LocalReport(l) => l.Ready()
      case PathReport(p) => p.pathReady
    }
  }

  datatype Evidence = Evidence(report: Report, origin: ReportOrigin, acceptedAt: int)

  /** What the store holds under a key, the expiry mark aside. */
  function EvidenceAt(st: StoreState, kind: Kind, k: Key): Option<Evidence> {
    match kind
    case LocalKind =>
      if k in st.local
      then Some(Evidence(LocalReport(st.local[k].report), st.local[k].origin, st.local[k].acceptedAt))
      else None
    case PathKind =>
      if k in st.path
      then Some(Evidence(PathReport(st.path[k].report), st.path[k].origin, st.path[k].acceptedAt))
      else None
  }

  predicate MarkedExpired(st: StoreState, kind: Kind, k: Key) {
    match kind
    case LocalKind => k in st.local && st.local[k].expired
    case PathKind => k in st.path && st.path[k].expired
  }

  /** The report an envelope carries, if the registry lets this node make it. */
  function Heard(ix: Index, node: string, env: Envelope): Option<Report> {
    match env.payload
    case Local(m) => (match LocalFrom(ix, node, m) case None => None case Some(r) => Some(LocalReport(r)))
    case Path(m) => (match PathFrom(ix, node, m) case None => None case Some(r) => Some(PathReport(r)))
    case _ => None
  }

  predicate Allows(ix: Index, node: string, kind: Kind, k: Key) {
    match kind
    case LocalKind => AllowsLocal(ix, node, k)
    case PathKind => AllowsPath(ix, node, k)
  }

  lemma HeardIsAllowed(ix: Index, node: string, env: Envelope)
    ensures Heard(ix, node, env).Some? ==>
      var rep := Heard(ix, node, env).value;
      Allows(ix, node, rep.Kind(), rep.Key())
  {
  }

  predicate InBuffer(s: Session, rep: Report) {
    match rep
    case LocalReport(l) => l in s.bufLocal
    case PathReport(p) => p in s.bufPath
  }

  // ---------------------------------------------------------------- what every step keeps

  ghost predicate SessionSound(s: Session) {
    && s.open
    && (!s.adopted ==> !s.inSnapshot && s.bufLocal == [] && s.bufPath == [])
    && (s.auth.Some? && !s.adopted ==> s.node == s.auth.value)
  }

  ghost predicate Sound(s: System) {
    && s.registry.Valid()
    && forall i :: i in s.sessions ==> i < s.nextStream && SessionSound(s.sessions[i])
  }

  lemma TurnKeepsSession(s: Session, st: StoreState, ix: Index, env: Envelope, now: int)
    requires SessionSound(s)
    ensures var s' := Handle(s, st, ix, env, now).session; s'.open ==> SessionSound(s')
  {
  }

  lemma StepKeepsSound(s: System, e: Event, s': System)
    requires Sound(s) && Next(s, e, s')
    ensures Sound(s')
  {
    if e.Deliver? {
      TurnKeepsSession(s.sessions[e.stream], s.store, s.registry.index, e.env, s.clock);
    }
    hide RegistryState.Valid, Handle;
  }

  lemma {:induction false} RunSound(r: Run, n: nat)
    requires IsRun(r) && n < |r.states|
    ensures Sound(r.states[n])
  {
    if n > 0 {
      hide Next, Init, Sound;
      RunSound(r, n - 1);
      StepOf(r, n - 1);
      StepKeepsSound(r.states[n - 1], r.events[n - 1], r.states[n]);
    }
  }

  /** What an envelope does to the store, once its stream is admitted. */
  datatype Effect = Nothing | Commit | Forget(id: Key) | Take(report: Report)

  function EffectOf(a: Session, ix: Index, env: Envelope): Effect {
    if !a.open || env.agentInstanceId != a.instance then Nothing
    else
      match env.payload
      case SnapshotEnd(e) => if a.inSnapshot && e == a.epoch then Commit else Nothing
      case Retired(id) => Forget(id)
      case _ =>
        match Heard(ix, a.node, env)
        case None => Nothing
        case Some(rep) => if a.inSnapshot then Nothing else Take(rep)
  }

  function Effected(a: Session, st: StoreState, o: ReportOrigin, eff: Effect, now: int): StoreState {
    match eff
    case Nothing => st
    case Commit => st.AfterSnapshot(o, a.bufLocal, a.bufPath, now)
    case Forget(id) => st.AfterForget(id)
    case Take(LocalReport(l)) => st.AfterLocal(o, l, now)
    case Take(PathReport(p)) => st.AfterPath(o, p, now)
  }

  /** One turn's effect on the store alone. */
  function StoreAfter(s: Session, st: StoreState, ix: Index, env: Envelope, now: int): StoreState {
    var a := Admit(s, st, env);
    Effected(a.session, a.store, a.session.Origin(env.sequence), EffectOf(a.session, ix, env), now)
  }

  lemma RefusedLeaves(st: StoreState, o: ReportOrigin, now: int)
    ensures forall l :: st.LocalResult(o, l) != Accepted ==> st.AfterLocal(o, l, now) == st
    ensures forall p :: st.PathResult(o, p) != Accepted ==> st.AfterPath(o, p, now) == st
    ensures !st.Current(o) ==> forall ls, ps :: st.AfterSnapshot(o, ls, ps, now) == st
  {
    hide PutAll, DropNode;
  }

  lemma DispatchStore(a: Session, st: StoreState, ix: Index, env: Envelope, now: int)
    requires a.open && env.agentInstanceId == a.instance
    ensures Dispatch(a, st, ix, env, now).store == Effected(a, st, a.Origin(env.sequence), EffectOf(a, ix, env), now)
  {
    hide LocalFrom, PathFrom, LocalOwners, PathOwners, OwnersOfLocals, OwnersOfPaths, StoreState.AfterSnapshot,
      StoreState.AfterLocal, StoreState.AfterPath, StoreState.AfterForget, StoreState.LocalResult, StoreState.PathResult,
      StoreState.Current;
    RefusedLeaves(st, a.Origin(env.sequence), now);
  }

  lemma NothingDoesNothing(a: Session, st: StoreState, o: ReportOrigin, now: int)
    ensures Effected(a, st, o, Nothing, now) == st
  {
  }

  lemma CountersDoNotMatter(a: Session, a1: Session, st: StoreState, ix: Index, env: Envelope, now: int)
    requires a1 == a.(lastSeq := a1.lastSeq, since := a1.since)
    ensures a1.Origin(env.sequence) == a.Origin(env.sequence) && EffectOf(a1, ix, env) == EffectOf(a, ix, env)
    ensures forall o, eff :: Effected(a1, st, o, eff, now) == Effected(a, st, o, eff, now)
  {
    hide Heard, StoreState.AfterSnapshot, StoreState.AfterLocal, StoreState.AfterPath, StoreState.AfterForget;
  }

  lemma TurnStore(s: Session, st: StoreState, ix: Index, env: Envelope, now: int)
    ensures Handle(s, st, ix, env, now).store == StoreAfter(s, st, ix, env, now)
  {
    hide Dispatch, Effected, Heard;
    var a := Admit(s, st, env);
    if a.session.open && env.agentInstanceId == a.session.instance {
      var a1 := a.session.(lastSeq := env.sequence, since := a.session.since + 1);
      DispatchStore(a1, a.store, ix, env, now);
      CountersDoNotMatter(a.session, a1, a.store, ix, env, now);
    } else {
      assert Effected(a.session, a.store, a.session.Origin(env.sequence), Nothing, now) == a.store by {
        NothingDoesNothing(a.session, a.store, a.session.Origin(env.sequence), now);
      }
    }
  }

  lemma StepKeepsTime(s: System, e: Event, s': System)
    requires Next(s, e, s')
    ensures s.clock <= s'.clock && s.store.ttl == s'.store.ttl
  {
    if e.Deliver? {
      TurnStore(s.sessions[e.stream], s.store, s.registry.index, e.env, s.clock);
    }
    hide RegistryState.Valid, Handle, LocalFrom, PathFrom, MarkAll, DropDead;
  }

  lemma {:induction false} ClockMonotone(r: Run, i: nat, j: nat)
    requires IsRun(r) && i <= j < |r.states|
    ensures r.states[i].clock <= r.states[j].clock && r.states[i].store.ttl == r.states[j].store.ttl
  {
    hide Next, Init;
    if i < j {
      ClockMonotone(r, i, j - 1);
      StepOf(r, j - 1);
      StepKeepsTime(r.states[j - 1], r.events[j - 1], r.states[j]);
    }
  }

  // ---------------------------------------------------------------- where evidence comes from

  /** This turn wrote rep: its stream is authoritative and rep was just heard or buffered. */
  ghost predicate Writes(s: Session, st: StoreState, ix: Index, env: Envelope, rep: Report) {
    var a := Admit(s, st, env);
    && a.session.adopted && env.agentInstanceId == a.session.instance
    && a.store.Current(a.session.Origin(env.sequence))
    && (Heard(ix, a.session.node, env) == Some(rep) || InBuffer(a.session, rep))
  }

  /** st' keeps what st holds under k, expiry mark included. */
  ghost predicate Kept(st: StoreState, st': StoreState, kind: Kind, k: Key) {
    && EvidenceAt(st', kind, k) == EvidenceAt(st, kind, k)
    && MarkedExpired(st', kind, k) == MarkedExpired(st, kind, k)
  }

  /** st' holds, unmarked, rep under its key, accepted now from o. */
  ghost predicate Written(st': StoreState, kind: Kind, k: Key, rep: Report, o: ReportOrigin, now: int) {
    && EvidenceAt(st', kind, k) == Some(Evidence(rep, o, now)) && !MarkedExpired(st', kind, k)
    && rep.Kind() == kind && rep.Key() == k
  }

  lemma SnapshotProvenance(s: Session, st: StoreState, o: ReportOrigin, now: int, kind: Kind, k: Key)
    ensures
      var st' := st.AfterSnapshot(o, s.bufLocal, s.bufPath, now);
      var ev := EvidenceAt(st', kind, k);
      ev.Some? ==>
        || Kept(st, st', kind, k)
        || (st.Current(o) && InBuffer(s, ev.value.report) && Written(st', kind, k, ev.value.report, o, now))
  {
    PutAllAt(DropNode(st.local, LocalNode, o.nodeName), LocalKey, s.bufLocal, o, now, k);
    PutAllAt(DropNode(st.path, PathNode, o.nodeName), PathReportKey, s.bufPath, o, now, k);
    var i := LastForMeaning(s.bufLocal, LocalKey, k);
    var j := LastForMeaning(s.bufPath, PathReportKey, k);
  }

  lemma DeltaProvenance(st: StoreState, o: ReportOrigin, rep: Report, now: int, kind: Kind, k: Key)
    ensures
      var st' := match rep case LocalReport(l) => st.AfterLocal(o, l, now) case PathReport(p) => st.AfterPath(o, p, now);
      Kept(st, st', kind, k) || (st.Current(o) && Written(st', kind, k, rep, o, now))
  {
  }

  lemma ForgetProvenance(st: StoreState, p: Payload, kind: Kind, k: Key)
    ensures p.Retired? ==>
      var st' := st.AfterForget(p.attachmentId);
      EvidenceAt(st', kind, k).Some? ==> Kept(st, st', kind, k)
  {
  }

  /** What an effect leaves under a key was there before, or is a report it was entitled to write. */
  lemma EffectProvenance(a: Session, st: StoreState, o: ReportOrigin, eff: Effect, now: int, kind: Kind, k: Key)
    ensures
      var st' := Effected(a, st, o, eff, now);
      var ev := EvidenceAt(st', kind, k);
      ev.Some? ==>
        || Kept(st, st', kind, k)
        || (&& st.Current(o) && Written(st', kind, k, ev.value.report, o, now)
            && (eff == Take(ev.value.report) || (eff == Commit && InBuffer(a, ev.value.report))))
  {
    hide EvidenceAt, MarkedExpired, StoreState.AfterSnapshot, StoreState.AfterLocal, StoreState.AfterPath, StoreState.AfterForget,
      StoreState.Current, InBuffer;
    match eff {
      case Commit => SnapshotProvenance(a, st, o, now, kind, k);
      case Forget(id) => ForgetProvenance(st, Retired(id), kind, k);
      case Take(rep) => DeltaProvenance(st, o, rep, now, kind, k);
      case Nothing =>
    }
  }

  lemma AdmissionKeeps(s: Session, st: StoreState, env: Envelope, kind: Kind, k: Key)
    ensures Kept(st, Admit(s, st, env).store, kind, k)
    ensures s.open && Admit(s, st, env).session.open ==> Admit(s, st, env).session.adopted
  {
  }

  lemma TakesWhatIsHeard(a: Session, ix: Index, env: Envelope, rep: Report)
    ensures EffectOf(a, ix, env) == Take(rep) ==> Heard(ix, a.node, env) == Some(rep)
    ensures EffectOf(a, ix, env) != Nothing ==> a.open && env.agentInstanceId == a.instance
  {
    hide Heard;
  }

  /** A turn keeps a key's evidence, drops it, or replaces it with a report it is entitled to write. */
  lemma TurnProvenance(s: Session, st: StoreState, ix: Index, env: Envelope, now: int, kind: Kind, k: Key)
    requires s.open
    ensures
      var st' := Handle(s, st, ix, env, now).store;
      var ev := EvidenceAt(st', kind, k);
      ev.Some? ==>
        || Kept(st, st', kind, k)
        || (&& Writes(s, st, ix, env, ev.value.report)
            && Written(st', kind, k, ev.value.report, Admit(s, st, env).session.Origin(env.sequence), now))
  {
    hide Handle, Admit, EffectOf, Effected, Heard, InBuffer, Written, EvidenceAt, MarkedExpired, StoreState.Current;
    var a := Admit(s, st, env);
    TurnStore(s, st, ix, env, now);
    AdmissionKeeps(s, st, env, kind, k);
    var eff, o := EffectOf(a.session, ix, env), a.session.Origin(env.sequence);
    EffectProvenance(a.session, a.store, o, eff, now, kind, k);
    var ev := EvidenceAt(Handle(s, st, ix, env, now).store, kind, k);
    if ev.Some? {
      TakesWhatIsHeard(a.session, ix, env, ev.value.report);
    }
  }

  /** A turn's buffers hold nothing but what they held and what was just heard. */
  lemma TurnBuffers(s: Session, st: StoreState, ix: Index, env: Envelope, now: int, rep: Report)
    requires SessionSound(s)
    ensures
      var s' := Handle(s, st, ix, env, now).session;
      InBuffer(s', rep) ==>
        && s'.adopted && Admit(s, st, env).session.adopted
        && s'.node == Admit(s, st, env).session.node && s'.instance == Admit(s, st, env).session.instance
        && (|| (s.adopted && s.node == s'.node && s.instance == s'.instance && InBuffer(s, rep))
            || (env.agentInstanceId == s'.instance && Heard(ix, s'.node, env) == Some(rep)))
  {
    hide LocalFrom, PathFrom, LocalOwners, PathOwners, OwnersOfLocals, OwnersOfPaths, StoreState.AfterSnapshot,
      StoreState.AfterLocal, StoreState.AfterPath, StoreState.Current;
  }

  lemma NewSessionHoldsNothing(auth: Option<string>)
    ensures forall rep :: !InBuffer(NewSession(auth), rep)
  {
  }

  /** What a stream holds buffered it held before, under the same identity, or has just heard. */
  lemma BufferStep(s: System, e: Event, s': System, stream: nat, rep: Report)
    requires Sound(s) && Next(s, e, s')
    requires stream in s'.sessions && InBuffer(s'.sessions[stream], rep)
    ensures
      var node, inst := s'.sessions[stream].node, s'.sessions[stream].instance;
      || (&& stream in s.sessions && InBuffer(s.sessions[stream], rep)
          && s.sessions[stream].node == node && s.sessions[stream].instance == inst)
      || (&& e.Deliver? && e.stream == stream && stream in s.sessions && SpeaksFor(s, stream, e.env, node, inst)
          && Heard(s.registry.index, node, e.env) == Some(rep))
  {
    hide RegistryState.Valid, Handle, Heard, InBuffer;
    match e {
      case Open(auth) => NewSessionHoldsNothing(auth);
      case Deliver(i, env) =>
        if i == stream {
          TurnBuffers(s.sessions[stream], s.store, s.registry.index, env, s.clock, rep);
        }
      case _ =>
    }
  }

  /** The stream is entitled to the report it wrote: authoritative, and it heard the report now or has it buffered. */
  ghost predicate Rewrites(s: System, stream: nat, env: Envelope, s': System, ev: Evidence)
    requires stream in s.sessions
  {
    var a := Admitted(s, stream, env);
    && SpeaksFor(s, stream, env, a.node, a.instance)
    && a.node in s'.store.nodeInstance && s'.store.nodeInstance[a.node] == a.instance
    && ev.origin == ReportOrigin(a.node, a.instance, env.sequence) && ev.acceptedAt == s.clock
    && (Heard(s.registry.index, a.node, env) == Some(ev.report)
        || (s.sessions[stream].adopted && InBuffer(s.sessions[stream], ev.report)
            && s.sessions[stream].node == a.node && s.sessions[stream].instance == a.instance))
  }

  /** Only admission moves authority. */
  lemma TurnAuthority(s: Session, st: StoreState, ix: Index, env: Envelope, now: int)
    requires SessionSound(s)
    ensures Handle(s, st, ix, env, now).store.nodeInstance == Admit(s, st, env).store.nodeInstance
    ensures forall rep :: InBuffer(Admit(s, st, env).session, rep) ==> s.adopted && Admit(s, st, env).session == s && InBuffer(s, rep)
  {
    TurnStore(s, st, ix, env, now);
    hide Handle, Heard, PutAll, DropNode;
  }

  /** A step keeps a key's evidence, drops it, or an authoritative stream writes it anew. */
  lemma StepProvenance(s: System, e: Event, s': System, kind: Kind, k: Key)
    requires Sound(s) && Next(s, e, s')
    ensures
      var ev := EvidenceAt(s'.store, kind, k);
      ev.Some? ==>
        || (EvidenceAt(s.store, kind, k) == ev && (MarkedExpired(s.store, kind, k) ==> MarkedExpired(s'.store, kind, k)))
        || (e.Deliver? && e.stream in s.sessions && Rewrites(s, e.stream, e.env, s', ev.value)
            && !MarkedExpired(s'.store, kind, k) && ev.value.report.Kind() == kind && ev.value.report.Key() == k)
  {
    if e.Deliver? {
      TurnProvenance(s.sessions[e.stream], s.store, s.registry.index, e.env, s.clock, kind, k);
      TurnAuthority(s.sessions[e.stream], s.store, s.registry.index, e.env, s.clock);
    }
    hide RegistryState.Valid, Handle, Heard, Admit;
  }

  // ---------------------------------------------------------------- acceptance, exactly

  /** A registry-matching delta of the authoritative instance, outside a bracket. */
  predicate LiveDelta(s: Session, st: StoreState, ix: Index, env: Envelope) {
    var a := Admit(s, st, env);
    && a.session.open && a.session.adopted && a.session.instance == env.agentInstanceId && !a.session.inSnapshot
    && a.store.Current(a.session.Origin(env.sequence))
    && Heard(ix, a.session.node, env).Some?
  }

  function Answer(st: StoreState, o: ReportOrigin, rep: Report): AcceptResult {
    match rep
    case LocalReport(l) => st.LocalResult(o, l)
    case PathReport(p) => st.PathResult(o, p)
  }

  /** The stream has a report for the key in its buffers. */
  predicate Collects(s: Session, kind: Kind, k: Key) {
    match kind
    case LocalKind => exists i :: 0 <= i < |s.bufLocal| && s.bufLocal[i].attachmentID == k
    case PathKind => exists i :: 0 <= i < |s.bufPath| && s.bufPath[i].scopeID == k
  }

  /** The turn is a SnapshotEnd that commits. */
  predicate CommitTurn(s: Session, st: StoreState, env: Envelope) {
    var a := Admit(s, st, env);
    && a.session.open && env.agentInstanceId == a.session.instance
    && env.payload.SnapshotEnd? && a.session.inSnapshot && env.payload.endEpoch == a.session.epoch
    && a.store.Current(a.session.Origin(env.sequence))
  }

  /** The turn accepts a report under this key: as a delta, or in a committing snapshot. */
  predicate Accepts(s: Session, st: StoreState, ix: Index, env: Envelope, kind: Kind, k: Key) {
    var a := Admit(s, st, env);
    || (CommitTurn(s, st, env) && Collects(a.session, kind, k))
    || (LiveDelta(s, st, ix, env)
        && var rep := Heard(ix, a.session.node, env).value;
           rep.Kind() == kind && rep.Key() == k && Answer(a.store, a.session.Origin(env.sequence), rep) == Accepted)
  }

  lemma CollectsLast(s: Session, kind: Kind, k: Key)
    ensures Collects(s, kind, k) <==>
      match kind
      case LocalKind => LastFor(s.bufLocal, LocalKey, k).Some?
      case PathKind => LastFor(s.bufPath, PathReportKey, k).Some?
  {
    var i := LastForMeaning(s.bufLocal, LocalKey, k);
    var j := LastForMeaning(s.bufPath, PathReportKey, k);
    hide LastFor;
    forall x | 0 <= x < |s.bufLocal| ensures s.bufLocal[x] in s.bufLocal {
    }
    forall x | 0 <= x < |s.bufPath| ensures s.bufPath[x] in s.bufPath {
    }
  }

  /** The key's evidence was accepted just now from o, and is unmarked. */
  predicate AcceptedNow(st: StoreState, kind: Kind, k: Key, o: ReportOrigin, now: int) {
    var ev := EvidenceAt(st, kind, k);
    ev.Some? && ev.value.origin == o && ev.value.acceptedAt == now && !MarkedExpired(st, kind, k)
  }

  lemma CommitAccepts(s: Session, st: StoreState, o: ReportOrigin, now: int, kind: Kind, k: Key)
    requires st.Current(o)
    ensures
      var st' := st.AfterSnapshot(o, s.bufLocal, s.bufPath, now);
      if Collects(s, kind, k) then AcceptedNow(st', kind, k, o, now)
      else EvidenceAt(st', kind, k).Some? ==> Kept(st, st', kind, k)
  {
    PutAllAt(DropNode(st.local, LocalNode, o.nodeName), LocalKey, s.bufLocal, o, now, k);
    PutAllAt(DropNode(st.path, PathNode, o.nodeName), PathReportKey, s.bufPath, o, now, k);
    CollectsLast(s, kind, k);
    hide PutAll, LastFor, Collects;
  }

  lemma DeltaAccepts(st: StoreState, o: ReportOrigin, rep: Report, now: int, kind: Kind, k: Key)
    ensures
      var st' := match rep case LocalReport(l) => st.AfterLocal(o, l, now) case PathReport(p) => st.AfterPath(o, p, now);
      if rep.Kind() == kind && rep.Key() == k && Answer(st, o, rep) == Accepted then AcceptedNow(st', kind, k, o, now)
      else Kept(st, st', kind, k)
  {
  }

  lemma NotCurrentDoesNothing(s: Session, st: StoreState, o: ReportOrigin, now: int)
    requires !st.Current(o)
    ensures st.AfterSnapshot(o, s.bufLocal, s.bufPath, now) == st
  {
  }

  lemma StaleIsNotAccepted(st: StoreState, o: ReportOrigin, rep: Report)
    ensures !st.Current(o) ==> Answer(st, o, rep) == StaleInstance
  {
  }

  /** The effect accepts a report under the key. */
  predicate EffectAccepts(a: Session, st: StoreState, o: ReportOrigin, eff: Effect, kind: Kind, k: Key) {
    match eff
    case Commit => st.Current(o) && Collects(a, kind, k)
    case Take(rep) => rep.Kind() == kind && rep.Key() == k && Answer(st, o, rep) == Accepted
    case _ => false
  }

  lemma EffectRenews(a: Session, st: StoreState, o: ReportOrigin, eff: Effect, now: int, kind: Kind, k: Key)
    ensures
      var st' := Effected(a, st, o, eff, now);
      if EffectAccepts(a, st, o, eff, kind, k) then AcceptedNow(st', kind, k, o, now)
      else EvidenceAt(st', kind, k).Some? ==> Kept(st, st', kind, k)
  {
    hide EvidenceAt, MarkedExpired, AcceptedNow, Answer, Collects, StoreState.AfterSnapshot, StoreState.AfterLocal,
      StoreState.AfterPath, StoreState.AfterForget, StoreState.Current;
    match eff {
      case Commit =>
        if st.Current(o) {
          CommitAccepts(a, st, o, now, kind, k);
        } else {
          NotCurrentDoesNothing(a, st, o, now);
        }
      case Forget(id) => ForgetProvenance(st, Retired(id), kind, k);
      case Take(rep) => DeltaAccepts(st, o, rep, now, kind, k);
      case Nothing =>
    }
  }

  lemma OnlyReportsAreHeard(ix: Index, node: string, env: Envelope)
    ensures Heard(ix, node, env).Some? ==> env.payload.Local? || env.payload.Path?
  {
  }

  lemma AcceptsByEffect(s: Session, st: StoreState, ix: Index, env: Envelope, kind: Kind, k: Key)
    requires SessionSound(s)
    ensures
      var a := Admit(s, st, env);
      Accepts(s, st, ix, env, kind, k) <==>
        EffectAccepts(a.session, a.store, a.session.Origin(env.sequence), EffectOf(a.session, ix, env), kind, k)
  {
    hide Heard, Collects, Answer, StoreState.Current, Admit;
    AdmissionKeeps(s, st, env, kind, k);
    var a := Admit(s, st, env);
    if Heard(ix, a.session.node, env).Some? {
      StaleIsNotAccepted(a.store, a.session.Origin(env.sequence), Heard(ix, a.session.node, env).value);
      OnlyReportsAreHeard(ix, a.session.node, env);
    }
  }

  /** A turn renews the evidence under a key exactly when it accepts a report there; otherwise it keeps or drops it. */
  lemma TurnAccepts(s: Session, st: StoreState, ix: Index, env: Envelope, now: int, kind: Kind, k: Key)
    requires SessionSound(s)
    ensures
      var st', o := Handle(s, st, ix, env, now).store, Admit(s, st, env).session.Origin(env.sequence);
      if Accepts(s, st, ix, env, kind, k) then AcceptedNow(st', kind, k, o, now)
      else EvidenceAt(st', kind, k).Some? ==> Kept(st, st', kind, k)
  {
    hide Handle, Admit, EffectOf, Effected, EffectAccepts, Accepts, AcceptedNow, EvidenceAt, MarkedExpired;
    var a := Admit(s, st, env);
    TurnStore(s, st, ix, env, now);
    AdmissionKeeps(s, st, env, kind, k);
    AcceptsByEffect(s, st, ix, env, kind, k);
    EffectRenews(a.session, a.store, a.session.Origin(env.sequence), EffectOf(a.session, ix, env), now, kind, k);
  }
}
