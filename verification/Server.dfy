/**
 One agent stream on the controller side (internal/controller/health_server.go).

 `Session` holds Sync's local variables and `Handle` one turn of its loop: what the
 next envelope does to them and to the store, whom it notifies and what it
 acknowledges. The class `Stream` performs the turn in place, loops included, and is
 proved equal to `Handle`.
 */
module Server {
  import opened Ordering
  import opened HealthModel
  import opened Messages
  import opened Store
  import opened RegistryIndex

  const ACK_EVERY: nat := 32

  datatype Session = Session(
    auth: Option<string>,      // the authenticated node, when producer authentication is on
    node: string, instance: string, adopted: bool,
    inSnapshot: bool, epoch: nat, bufLocal: seq<LocalHealth>, bufPath: seq<PathHealth>,
    since: nat, lastSeq: nat,
    open: bool)
  {
    function Origin(sequence: nat): ReportOrigin {
      ReportOrigin(node, instance, sequence)
    }
  }

  function NewSession(auth: Option<string>): Session {
    Session(auth, auth.GetOr(""), "", false, false, 0, [], [], 0, 0, true)
  }

  datatype Outcome = Outcome(session: Session, store: StoreState, notified: set<ServiceKey>, acks: seq<Ack>)

  // ---------------------------------------------------------------- validating a report

  /** The registry lets this node speak for this attachment. */
  predicate AllowsLocal(ix: Index, node: string, id: Key) {
    id in ix.attachments && ix.attachments[id].nodeName in {"", node}
  }

  predicate AllowsPath(ix: Index, node: string, pk: Key) {
    pk in ix.pathOwners && ix.OnNode(pk, node)
  }

  function LocalFrom(ix: Index, node: string, m: LocalMsg): Option<LocalHealth> {
    if m.attachmentId !in ix.attachments then None
    else
      var att := ix.attachments[m.attachmentId];
      if att.ip != m.ip || att.iface != m.interfaceName || att.nad != m.nad then None
      else if att.nodeName != "" && att.nodeName != node then None
      else
        Some(LocalHealth(
          m.attachmentId, m.podUid, m.namespace, m.podName, m.nad, m.interfaceName, m.ip, node,
          m.interfaceExists, m.addressPresent, m.linkUsable, m.observedAtUnixNano))
  }

  function PathFrom(ix: Index, node: string, m: PathMsg): Option<PathHealth> {
    if m.scopeId !in ix.pathOwners then None
    else if !ix.OnNode(m.scopeId, node) then None
    else
      Some(PathHealth(
        if m.scope == NodeScope then Node else Endpoint,
        m.scopeId, node, m.nad, m.target, m.pathReady, m.observedAtUnixNano))
  }

  /** The registry knows the attachment as this observation has it, and lets the node speak for it. */
  predicate Known(ix: Index, node: string, r: LocalHealth) {
    && AllowsLocal(ix, node, r.attachmentID)
    && var a := ix.attachments[r.attachmentID];
       (a.ip == r.ip && a.iface == r.iface && a.nad == r.nad)
  }

  /**
   An observation arrives as it was made, under the stream's node, exactly when the registry
   knows its id with that address, interface and network, on that node or on none yet.
   */
  lemma LocalRoundTrip(ix: Index, node: string, r: LocalHealth)
    ensures LocalFrom(ix, node, ToLocalPB(r)) == if Known(ix, node, r) then Some(r.(nodeName := node)) else None
    ensures Known(ix, node, r) <==>
      && r.attachmentID in ix.attachments
      && var a := ix.attachments[r.attachmentID];
         a.ip == r.ip && a.iface == r.iface && a.nad == r.nad && (a.nodeName == "" || a.nodeName == node)
    ensures ToLocalPB(r).localReady <==> r.interfaceExists && r.addressPresent && r.linkUsable
  {
  }

  /** A path report arrives with its node replaced by the stream's, exactly when that node may speak for the key. */
  lemma PathRoundTrip(ix: Index, node: string, r: PathHealth)
    ensures PathFrom(ix, node, ToPathPB(r)) == if AllowsPath(ix, node, r.scopeID) then Some(r.(nodeName := node)) else None
    ensures AllowsPath(ix, node, r.scopeID) <==>
      && r.scopeID in ix.pathOwners && r.scopeID in ix.pathNodes
      && |ix.pathNodes[r.scopeID]| == 1 && node in ix.pathNodes[r.scopeID]
    ensures ToPathPB(r).scope == match r.scope case Node => NodeScope case Endpoint => EndpointScope
  {
  }

  // ---------------------------------------------------------------- notification

  function LocalOwners(ix: Index, id: Key): set<ServiceKey> {
    if id in ix.attachments then set s | s in OwnersAt(ix.attOwners, id) else {}
  }

  function PathOwners(ix: Index, pk: Key): set<ServiceKey> {
    set s | s in OwnersAt(ix.pathOwners, pk)
  }

  function OwnersOfLocals(ix: Index, rs: seq<LocalHealth>): (ss: set<ServiceKey>)
    ensures forall i :: 0 <= i < |rs| ==> LocalOwners(ix, rs[i].attachmentID) <= ss
    ensures forall s :: s in ss ==> exists i :: 0 <= i < |rs| && s in LocalOwners(ix, rs[i].attachmentID)
  {
    if rs == [] then {}
    else OwnersOfLocals(ix, rs[..|rs| - 1]) + LocalOwners(ix, rs[|rs| - 1].attachmentID)
  }

  function OwnersOfPaths(ix: Index, rs: seq<PathHealth>): (ss: set<ServiceKey>)
    ensures forall i :: 0 <= i < |rs| ==> PathOwners(ix, rs[i].scopeID) <= ss
    ensures forall s :: s in ss ==> exists i :: 0 <= i < |rs| && s in PathOwners(ix, rs[i].scopeID)
  {
    if rs == [] then {}
    else OwnersOfPaths(ix, rs[..|rs| - 1]) + PathOwners(ix, rs[|rs| - 1].scopeID)
  }

  // ---------------------------------------------------------------- one turn of the loop

  /** The first envelope fixes the stream's node and instance and adopts the instance. */
  function Admit(s: Session, st: StoreState, env: Envelope): Outcome {
    if s.adopted then Outcome(s, st, {}, [])
    else if env.agentInstanceId == "" then Outcome(s.(open := false), st, {}, [])
    else if s.auth.None? && env.nodeName == "" then
      Outcome(s.(instance := env.agentInstanceId, open := false), st, {}, [])
    else
      var node := if s.auth.Some? then s.node else env.nodeName;
      Outcome(s.(node := node, instance := env.agentInstanceId, adopted := true, since := 0),
              st.Adopt(node, env.agentInstanceId), {}, [Ack(s.lastSeq, true, NewStream)])
  }

  /** Falling out of the switch: acknowledge once enough messages have gone by. */
  function Settle(s: Session, st: StoreState, notified: set<ServiceKey>): Outcome {
    if s.since >= ACK_EVERY then Outcome(s.(since := 0), st, notified, [Ack(s.lastSeq, false, NoReason)])
    else Outcome(s, st, notified, [])
  }

  function EndTurn(s: Session, st: StoreState, ix: Index, sequence: nat, epoch: nat, now: int): Outcome {
    if !s.inSnapshot || epoch != s.epoch then
      Outcome(s.(inSnapshot := false, since := 0), st, {}, [Ack(s.lastSeq, true, SnapshotMismatch)])
    else if !st.Current(s.Origin(sequence)) then
      Outcome(s.(inSnapshot := false, since := 0, open := false), st, {}, [Ack(s.lastSeq, true, Superseded)])
    else
      Outcome(s.(inSnapshot := false, since := 0), st.AfterSnapshot(s.Origin(sequence), s.bufLocal, s.bufPath, now),
              OwnersOfLocals(ix, s.bufLocal) + OwnersOfPaths(ix, s.bufPath), [Ack(s.lastSeq, false, NoReason)])
  }

  function LocalDelta(s: Session, st: StoreState, ix: Index, sequence: nat, r: LocalHealth, now: int): Outcome {
    match st.LocalResult(s.Origin(sequence), r)
    case StaleInstance => Outcome(s.(since := 0, open := false), st, {}, [Ack(s.lastSeq, true, Superseded)])
    case OutOfOrder => Outcome(s, st, {}, [])
    case Accepted => Settle(s, st.AfterLocal(s.Origin(sequence), r, now), LocalOwners(ix, r.attachmentID))
  }

  function LocalTurn(s: Session, st: StoreState, ix: Index, sequence: nat, m: LocalMsg, now: int): Outcome {
    match LocalFrom(ix, s.node, m)
    case None => Outcome(s.(since := 0), st, {}, [Ack(s.lastSeq, false, UnknownAttachment)])
    case Some(r) =>
      if s.inSnapshot then Outcome(s.(bufLocal := s.bufLocal + [r]), st, {}, [])
      else LocalDelta(s, st, ix, sequence, r, now)
  }

  function PathDelta(s: Session, st: StoreState, ix: Index, sequence: nat, r: PathHealth, now: int): Outcome {
    match st.PathResult(s.Origin(sequence), r)
    case StaleInstance => Outcome(s.(since := 0, open := false), st, {}, [Ack(s.lastSeq, true, Superseded)])
    case OutOfOrder => Outcome(s, st, {}, [])
    case Accepted => Settle(s, st.AfterPath(s.Origin(sequence), r, now), PathOwners(ix, r.scopeID))
  }

  function PathTurn(s: Session, st: StoreState, ix: Index, sequence: nat, m: PathMsg, now: int): Outcome {
    match PathFrom(ix, s.node, m)
    case None => Outcome(s.(since := 0), st, {}, [Ack(s.lastSeq, false, UnknownPathKey)])
    case Some(r) =>
      if s.inSnapshot then Outcome(s.(bufPath := s.bufPath + [r]), st, {}, [])
      else PathDelta(s, st, ix, sequence, r, now)
  }

  function Dispatch(s: Session, st: StoreState, ix: Index, env: Envelope, now: int): Outcome {
    match env.payload
    case SnapshotBegin(epoch, _, _) =>
      Settle(s.(inSnapshot := true, epoch := epoch, bufLocal := [], bufPath := []), st, {})
    case SnapshotEnd(epoch) => EndTurn(s, st, ix, env.sequence, epoch, now)
    case Local(m) => LocalTurn(s, st, ix, env.sequence, m, now)
    case Path(m) => PathTurn(s, st, ix, env.sequence, m, now)
    case Retired(id) => Settle(s, st.AfterForget(id), LocalOwners(ix, id))
    case Empty => Settle(s, st, {})
  }

  function Handle(s: Session, st: StoreState, ix: Index, env: Envelope, now: int): Outcome {
    var a := Admit(s, st, env);
    if !a.session.open || env.agentInstanceId != a.session.instance then a
    else
      var out := Dispatch(a.session.(lastSeq := env.sequence, since := a.session.since + 1), a.store, ix, env, now);
      out.(acks := a.acks + out.acks)
  }

  // ---------------------------------------------------------------- acknowledgements that cannot be sent

  /** The same, on a stream that takes only `room` more acknowledgements: the first that fails ends it. */
  function Cut(out: Outcome, room: nat): Outcome {
    if |out.acks| <= room then out
    else Outcome(out.session.(open := false), out.store, out.notified, out.acks[..room])
  }

  function HandleCut(s: Session, st: StoreState, ix: Index, env: Envelope, now: int, room: nat): Outcome {
    var a := Cut(Admit(s, st, env), room);
    if !a.session.open || env.agentInstanceId != a.session.instance then a
    else
      var out := Dispatch(a.session.(lastSeq := env.sequence, since := a.session.since + 1), a.store, ix, env, now);
      var cut := Cut(out, room - |a.acks|);
      cut.(acks := a.acks + cut.acks)
  }

  lemma OneAckATurn(a: Session, st: StoreState, ix: Index, env: Envelope, now: int)
    ensures |Dispatch(a, st, ix, env, now).acks| <= 1
    ensures env.payload.Empty? ==> Dispatch(a, st, ix, env, now).store == st && Dispatch(a, st, ix, env, now).notified == {}
  {
    hide LocalFrom, PathFrom, LocalOwners, PathOwners, OwnersOfLocals, OwnersOfPaths, StoreState.AfterSnapshot,
      StoreState.AfterLocal, StoreState.AfterPath, StoreState.AfterForget, StoreState.LocalResult, StoreState.PathResult,
      StoreState.Current;
  }

  /**
   A turn whose acknowledgements all go out is Handle. One in which a send fails ends the
   stream, and moved store and Services as the whole turn does; if it failed on
   admission, as the turn of an empty envelope.
   */
  lemma CutMeaning(s: Session, st: StoreState, ix: Index, env: Envelope, now: int, room: nat)
    ensures
      var whole, hello, cut :=
        Handle(s, st, ix, env, now), Handle(s, st, ix, env.(payload := Empty), now), HandleCut(s, st, ix, env, now, room);
      && (|whole.acks| <= room ==> cut == whole)
      && (|whole.acks| > room ==>
            && !cut.session.open && cut.acks == whole.acks[..room]
            && if s.adopted || room > 0 then cut.store == whole.store && cut.notified == whole.notified
               else cut.store == hello.store && cut.notified == hello.notified)
  {
    hide Dispatch;
    var a := Admit(s, st, env);
    var a1 := a.session.(lastSeq := env.sequence, since := a.session.since + 1);
    OneAckATurn(a1, a.store, ix, env, now);
    OneAckATurn(a1, a.store, ix, env.(payload := Empty), now);
  }

  // ---------------------------------------------------------------- what acknowledgements say, and do not

  lemma LocalFromKeepsID(ix: Index, node: string, m: LocalMsg)
    ensures LocalFrom(ix, node, m).Some? ==> LocalFrom(ix, node, m).value.attachmentID == m.attachmentId
  {
  }

  lemma PathFromKeepsID(ix: Index, node: string, m: PathMsg)
    ensures PathFrom(ix, node, m).Some? ==> PathFrom(ix, node, m).value.scopeID == m.scopeId
  {
  }

  /** The counts a SnapshotBegin announces are never looked at, so a truncated snapshot commits like a whole one. */
  lemma ExpectedCountsAreIgnored(s: Session, st: StoreState, ix: Index, env: Envelope, now: int, locals: nat, paths: nat)
    requires env.payload.SnapshotBegin?
    ensures Handle(s, st, ix, env.(payload := SnapshotBegin(env.payload.beginEpoch, locals, paths)), now)
         == Handle(s, st, ix, env, now)
  {
  }

  /** Past admission an acknowledgement repeats the envelope's own number, be it lower than the one before. */
  lemma AckCarriesLastSequence(s: Session, st: StoreState, ix: Index, env: Envelope, now: int)
    requires s.adopted
    ensures forall a :: a in Handle(s, st, ix, env, now).acks ==>
      a.acceptedSequence == env.sequence && a.reason != NewStream
  {
    hide LocalFrom, PathFrom, LocalOwners, PathOwners, OwnersOfLocals, OwnersOfPaths, StoreState.AfterSnapshot;
  }

  /** The turn of a report buffered in a bracket sends no acknowledgement, however many have gone by. */
  lemma BufferedIsUnacknowledged(s: Session, st: StoreState, ix: Index, env: Envelope, now: int)
    requires s.open && s.adopted && s.inSnapshot && env.agentInstanceId == s.instance
    requires match env.payload
             case Local(m) => LocalFrom(ix, s.node, m).Some?
             case Path(m) => PathFrom(ix, s.node, m).Some?
             case _ => false
    ensures Handle(s, st, ix, env, now).acks == [] && Handle(s, st, ix, env, now).session.since == s.since + 1
  {
    hide LocalFrom, PathFrom;
  }

  /** The report goes into the open bracket. */
  predicate Buffers(s: Session, ix: Index, env: Envelope) {
    s.inSnapshot && match env.payload
      case Local(m) => LocalFrom(ix, s.node, m).Some?
      case Path(m) => PathFrom(ix, s.node, m).Some?
      case _ => false
  }

  /** The report is a delta at or below a number its own process has already used for that key. */
  predicate RefusedAsOld(s: Session, st: StoreState, ix: Index, env: Envelope) {
    !s.inSnapshot && st.Current(s.Origin(env.sequence)) && match env.payload
      case Local(m) => LocalFrom(ix, s.node, m).Some? && Refuses(st.local, m.attachmentId, s.Origin(env.sequence))
      case Path(m) => PathFrom(ix, s.node, m).Some? && Refuses(st.path, m.scopeId, s.Origin(env.sequence))
      case _ => false
  }

  /** The turns that leave acknowledging to a later one. */
  predicate HeldBack(s: Session, st: StoreState, ix: Index, env: Envelope) {
    Buffers(s, ix, env) || RefusedAsOld(s, st, ix, env)
  }

  /** The envelope is taken without a word of its own: a Begin, a Retired, an Empty, or an accepted delta. */
  predicate TakenQuietly(s: Session, st: StoreState, ix: Index, env: Envelope) {
    match env.payload
    case SnapshotBegin(_, _, _) => true
    case SnapshotEnd(_) => false
    case Local(m) =>
      !s.inSnapshot && LocalFrom(ix, s.node, m).Some?
      && st.Current(s.Origin(env.sequence)) && !Refuses(st.local, m.attachmentId, s.Origin(env.sequence))
    case Path(m) =>
      !s.inSnapshot && PathFrom(ix, s.node, m).Some?
      && st.Current(s.Origin(env.sequence)) && !Refuses(st.path, m.scopeId, s.Origin(env.sequence))
    case Retired(_) => true
    case Empty => true
  }

  /**
   When an acknowledgement is owed. The 32nd envelope since the last one draws one with
   its own number, unless its report is buffered or refused as old; before that an
   envelope taken quietly draws none. Whatever is not taken quietly nor held back is
   answered at once, and the count starts over exactly when something is sent.
   */
  lemma AcksAreDue(s: Session, st: StoreState, ix: Index, env: Envelope, now: int)
    requires s.open && s.adopted && env.agentInstanceId == s.instance
    ensures
      var out := Handle(s, st, ix, env, now);
      && (HeldBack(s, st, ix, env) ==> out.acks == [])
      && (TakenQuietly(s, st, ix, env) ==> out.acks == if s.since + 1 >= 32 then [Ack(env.sequence, false, NoReason)] else [])
      && (!HeldBack(s, st, ix, env) && !TakenQuietly(s, st, ix, env) ==>
            |out.acks| == 1 && out.acks[0].acceptedSequence == env.sequence)
      && out.session.since == (if out.acks == [] then s.since + 1 else 0)
  {
    hide LocalFrom, PathFrom, LocalOwners, PathOwners, OwnersOfLocals, OwnersOfPaths, StoreState.AfterSnapshot,
      StoreState.AfterLocal, StoreState.AfterPath, StoreState.AfterForget, Refuses;
    if env.payload.Local? {
      LocalFromKeepsID(ix, s.node, env.payload.local);
    } else if env.payload.Path? {
      PathFromKeepsID(ix, s.node, env.payload.path);
    }
  }

  lemma DispatchKeepsIdentity(a: Session, st: StoreState, ix: Index, env: Envelope, now: int)
    ensures
      var out := Dispatch(a, st, ix, env, now);
      && out.session.adopted == a.adopted && out.session.node == a.node && out.session.instance == a.instance
      && out.session.lastSeq == a.lastSeq
  {
    hide LocalFrom, PathFrom, LocalOwners, PathOwners, OwnersOfLocals, OwnersOfPaths, StoreState.AfterSnapshot,
      StoreState.AfterLocal, StoreState.AfterPath, StoreState.AfterForget, StoreState.LocalResult, StoreState.PathResult,
      StoreState.Current;
  }

  lemma DispatchKeepsAuthorities(a: Session, st: StoreState, ix: Index, env: Envelope, now: int)
    ensures Dispatch(a, st, ix, env, now).store.nodeInstance == st.nodeInstance
  {
    hide LocalFrom, PathFrom, LocalOwners, PathOwners, OwnersOfLocals, OwnersOfPaths, PutAll, DropNode, Offer, Refuses;
  }

  /**
   Admission. The first envelope must name a process, and a node unless the stream is
   authenticated; the stream then speaks for that process on the authenticated node, or
   on the node named, that process becomes the node's authority, and a resync is asked for.
   */
  lemma AdmissionMeaning(auth: Option<string>, st: StoreState, ix: Index, env: Envelope, now: int)
    ensures
      var out := Handle(NewSession(auth), st, ix, env, now);
      var node := if auth.Some? then auth.value else env.nodeName;
      if env.agentInstanceId == "" || (auth.None? && env.nodeName == "") then
        !out.session.open && !out.session.adopted && out.store == st && out.notified == {} && out.acks == []
      else
        && out.session.adopted && out.session.node == node && out.session.instance == env.agentInstanceId
        && out.store.nodeInstance == st.nodeInstance[node := env.agentInstanceId]
        && out.acks != [] && out.acks[0] == Ack(0, true, NewStream)
        && out.session.lastSeq == env.sequence
  {
    hide Dispatch;
    var a := Admit(NewSession(auth), st, env);
    var a1 := a.session.(lastSeq := env.sequence, since := a.session.since + 1);
    DispatchKeepsIdentity(a1, a.store, ix, env, now);
    DispatchKeepsAuthorities(a1, a.store, ix, env, now);
  }

  /** The envelope shows that another process has taken the node over. */
  predicate ShowsSuperseded(s: Session, st: StoreState, ix: Index, env: Envelope) {
    !st.Current(s.Origin(env.sequence)) && match env.payload
      case SnapshotEnd(e) => s.inSnapshot && e == s.epoch
      case Local(m) => !s.inSnapshot && LocalFrom(ix, s.node, m).Some?
      case Path(m) => !s.inSnapshot && PathFrom(ix, s.node, m).Some?
      case _ => false
  }

  /**
   Past admission a turn ends the stream exactly when its envelope shows the process to be
   superseded, and an envelope naming another process is passed over.
   */
  lemma StreamEndsIff(s: Session, st: StoreState, ix: Index, env: Envelope, now: int)
    requires s.open && s.adopted
    ensures env.agentInstanceId != s.instance ==> Handle(s, st, ix, env, now) == Outcome(s, st, {}, [])
    ensures env.agentInstanceId == s.instance ==>
      (!Handle(s, st, ix, env, now).session.open <==> ShowsSuperseded(s, st, ix, env))
  {
    hide LocalFrom, PathFrom, LocalOwners, PathOwners, OwnersOfLocals, OwnersOfPaths, StoreState.AfterSnapshot,
      StoreState.AfterLocal, StoreState.AfterPath, StoreState.AfterForget;
  }

  /** The envelope ends a bracket wrongly, or shows the stream to be superseded. */
  predicate AsksResync(s: Session, st: StoreState, ix: Index, env: Envelope) {
    var current := st.Current(s.Origin(env.sequence));
    match env.payload
    case SnapshotEnd(e) => !s.inSnapshot || e != s.epoch || !current
    case Local(m) => LocalFrom(ix, s.node, m).Some? && !s.inSnapshot && !current
    case Path(m) => PathFrom(ix, s.node, m).Some? && !s.inSnapshot && !current
    case _ => false
  }

  predicate IsUnknown(s: Session, ix: Index, env: Envelope) {
    match env.payload
    case Local(m) => LocalFrom(ix, s.node, m).None?
    case Path(m) => PathFrom(ix, s.node, m).None?
    case _ => false
  }

  /**
   Past admission, when a resync is asked for. A report on something unknown is not such a
   time: it is acknowledged as unknown, changes nothing, and asks for nothing.
   */
  lemma ResyncIff(s: Session, st: StoreState, ix: Index, env: Envelope, now: int)
    requires s.open && s.adopted && env.agentInstanceId == s.instance
    ensures
      var out := Handle(s, st, ix, env, now);
      && ((exists a :: a in out.acks && a.resyncRequired) <==> AsksResync(s, st, ix, env))
      && (IsUnknown(s, ix, env) ==>
            out.store == st && out.notified == {} && |out.acks| == 1
            && out.acks[0].reason in {UnknownAttachment, UnknownPathKey} && !out.acks[0].resyncRequired)
  {
    hide LocalFrom, PathFrom, LocalOwners, PathOwners, OwnersOfLocals, OwnersOfPaths, StoreState.AfterSnapshot;
    var out := Handle(s, st, ix, env, now);
    assert |out.acks| <= 1 && (|out.acks| == 1 ==> out.acks[0] in out.acks);
  }

  // ---------------------------------------------------------------- the loop as the source runs it

  lemma RefusedLocalLeaves(st: StoreState, o: ReportOrigin, r: LocalHealth, now: int)
    ensures st.LocalResult(o, r) != Accepted ==> st.AfterLocal(o, r, now) == st
  {
  }

  lemma RefusedPathLeaves(st: StoreState, o: ReportOrigin, r: PathHealth, now: int)
    ensures st.PathResult(o, r) != Accepted ==> st.AfterPath(o, r, now) == st
  {
  }

  class Stream {
    const auth: Option<string>
    const store: HealthStore
    const registry: Registry
    var node: string
    var instance: string
    var adopted: bool
    var inSnapshot: bool
    var epoch: nat
    var bufLocal: seq<LocalHealth>
    var bufPath: seq<PathHealth>
    var since: nat
    var lastSeq: nat
    var open: bool
    var room: nat   // how many more acknowledgements the stream will take

    function State(): Session
      reads this
    {
      Session(auth, node, instance, adopted, inSnapshot, epoch, bufLocal, bufPath, since, lastSeq, open)
    }

    constructor (store: HealthStore, registry: Registry, auth: Option<string>, room: nat)
      ensures State() == NewSession(auth) && this.room == room
      ensures this.store == store && this.registry == registry
    {
      this.store, this.registry, this.auth := store, registry, auth;
      node, instance, adopted := auth.GetOr(""), "", false;
      inSnapshot, epoch, bufLocal, bufPath := false, 0, [], [];
      since, lastSeq, open, this.room := 0, 0, true, room;
    }

    /** The outcome of a step that found the room given: what it should be, cut at the first acknowledgement that fails. */
    predicate Performed(out: Outcome, found: nat, notified: set<ServiceKey>, acks: seq<Ack>)
      reads this, store
    {
      Outcome(State(), store.State(), notified, acks) == Cut(out, found) && room == found - |acks|
    }

    /** A send that fails ends the stream. */
    method SendAck(resync: bool, reason: AckReason, ghost notified: set<ServiceKey>) returns (acks: seq<Ack>)
      modifies this`since, this`room, this`open
      ensures
        Performed(Outcome(old(State()).(since := 0), old(store.State()), notified, [Ack(lastSeq, resync, reason)]),
                  old(room), notified, acks)
    {
      since, acks := 0, [];
      if room > 0 {
        room, acks := room - 1, [Ack(lastSeq, resync, reason)];
      } else {
        open := false;
      }
    }

    lemma NothingSent(notified: set<ServiceKey>)
      ensures Performed(Outcome(State(), store.State(), notified, []), room, notified, [])
    {
    }

    /** The top of the loop: the first envelope has the stream adopted, or ends it. */
    method Adoption(env: Envelope) returns (acks: seq<Ack>)
      requires open
      modifies this, store
      ensures Performed(Admit(old(State()), old(store.State()), env), old(room), {}, acks)
    {
      hide Performed;
      acks := [];
      if !adopted {
        if env.agentInstanceId == "" {
          open := false;
          NothingSent({});
          return;
        }
        instance := env.agentInstanceId;
        if auth.None? {
          if env.nodeName == "" {
            open := false;
            NothingSent({});
            return;
          }
          node := env.nodeName;
        }
        var prev := store.AdoptInstance(node, instance);
        adopted := true;
        acks := SendAck(true, NewStream, {});
      } else {
        NothingSent({});
      }
    }

    /** One envelope, from the top of the loop to its bottom. */
    method Receive(env: Envelope, now: int) returns (notified: set<ServiceKey>, acks: seq<Ack>)
      requires open && registry.Valid()
      modifies this, store
      ensures Outcome(State(), store.State(), notified, acks)
           == HandleCut(old(State()), old(store.State()), registry.State().index, env, now, old(room))
      ensures room == old(room) - |acks|
    {
      hide Dispatch, Admit, Indexes, Owns, Claims;
      acks := Adoption(env);
      notified := {};
      if !open || env.agentInstanceId != instance {
        return;
      }
      lastSeq, since := env.sequence, since + 1;
      var more: seq<Ack>;
      notified, more := Switch(env, now);
      acks := acks + more;
    }

    method Switch(env: Envelope, now: int) returns (notified: set<ServiceKey>, acks: seq<Ack>)
      requires registry.Valid()
      modifies this, store
      ensures Performed(Dispatch(old(State()), old(store.State()), registry.State().index, env, now), old(room), notified, acks)
    {
      hide EndTurn, LocalTurn, PathTurn, Settle, Performed, Indexes, Owns, Claims;
      notified, acks := {}, [];
      match env.payload {
        case SnapshotBegin(e, _, _) =>
          inSnapshot, epoch := true, e;
          bufLocal, bufPath := [], [];
        case SnapshotEnd(e) =>
          notified, acks := OnSnapshotEnd(env.sequence, e, now);
          return;
        case Local(m) =>
          notified, acks := OnLocal(env.sequence, m, now);
          return;
        case Path(m) =>
          notified, acks := OnPath(env.sequence, m, now);
          return;
        case Retired(id) =>
          store.ForgetLocal(id);
          var att, owners := registry.Attachment(id);
          if att.Some? {
            notified := Notify(owners);
          }
        case Empty =>
      }
      acks := AckIfDue(notified);
    }

    /** The bottom of the loop, whoever was notified before. */
    method AckIfDue(ghost notified: set<ServiceKey>) returns (acks: seq<Ack>)
      modifies this`since, this`room, this`open
      ensures Performed(Settle(old(State()), old(store.State()), notified), old(room), notified, acks)
    {
      acks := [];
      if since >= ACK_EVERY {
        acks := SendAck(false, NoReason, notified);
      }
    }

    method OnSnapshotEnd(sequence: nat, e: nat, now: int) returns (notified: set<ServiceKey>, acks: seq<Ack>)
      requires registry.Valid()
      modifies this, store
      ensures Performed(EndTurn(old(State()), old(store.State()), registry.State().index, sequence, e, now), old(room), notified, acks)
    {
      hide Performed, Settle, Indexes, Owns, Claims;
      if !inSnapshot || e != epoch {
        inSnapshot := false;
        acks := SendAck(true, SnapshotMismatch, {});
        return {}, acks;
      }
      inSnapshot := false;
      var res := store.ApplySnapshot(ReportOrigin(node, instance, sequence), bufLocal, bufPath, now);
      if res == StaleInstance {
        open := false;
        acks := SendAck(true, Superseded, {});
        return {}, acks;
      }
      notified := NotifyAll(bufLocal, bufPath);
      acks := SendAck(false, NoReason, notified);
    }

    /** localFrom: checks the report against the registry and converts it. */
    method FromLocal(m: LocalMsg) returns (r: Option<LocalHealth>, owners: seq<ServiceKey>)
      requires registry.Valid()
      ensures r == LocalFrom(registry.State().index, node, m)
      ensures r.Some? ==>
        r.value.attachmentID == m.attachmentId && (set s | s in owners) == LocalOwners(registry.State().index, m.attachmentId)
    {
      hide Indexes, Owns, Claims;
      var att: Option<Attachment>;
      att, owners := registry.Attachment(m.attachmentId);
      if att.None? || att.value.ip != m.ip || att.value.iface != m.interfaceName || att.value.nad != m.nad {
        return None, [];
      }
      if att.value.nodeName != "" && att.value.nodeName != node {
        return None, [];
      }
      r := Some(LocalHealth(
        m.attachmentId, m.podUid, m.namespace, m.podName, m.nad, m.interfaceName, m.ip, node,
        m.interfaceExists, m.addressPresent, m.linkUsable, m.observedAtUnixNano));
    }

    /** pathFrom: the reporting node must own the domain it reports for. */
    method FromPath(m: PathMsg) returns (r: Option<PathHealth>, owners: seq<ServiceKey>)
      requires registry.Valid()
      ensures r == PathFrom(registry.State().index, node, m)
      ensures r.Some? ==>
        r.value.scopeID == m.scopeId && (set s | s in owners) == PathOwners(registry.State().index, m.scopeId)
    {
      hide Indexes, Owns, Claims;
      var known: bool;
      owners, known := registry.PathKey(m.scopeId);
      if !known {
        return None, [];
      }
      var onNode := registry.PathKeyOnNode(m.scopeId, node);
      if !onNode {
        return None, [];
      }
      r := Some(PathHealth(
        if m.scope == NodeScope then Node else Endpoint,
        m.scopeId, node, m.nad, m.target, m.pathReady, m.observedAtUnixNano));
    }

    /** A report outside a bracket. */
    method TakeLocal(sequence: nat, r: LocalHealth, owners: seq<ServiceKey>, now: int) returns (notified: set<ServiceKey>, acks: seq<Ack>)
      requires registry.Valid() && (set s | s in owners) == LocalOwners(registry.State().index, r.attachmentID)
      modifies this, store
      ensures Performed(LocalDelta(old(State()), old(store.State()), registry.State().index, sequence, r, now), old(room), notified, acks)
    {
      hide Performed, Settle, Indexes, Owns, Claims, LocalOwners, StoreState.LocalResult, StoreState.AfterLocal;
      notified, acks := {}, [];
      RefusedLocalLeaves(store.State(), ReportOrigin(node, instance, sequence), r, now);
      var res := store.AcceptLocal(ReportOrigin(node, instance, sequence), r, now);
      if res == StaleInstance {
        open := false;
        acks := SendAck(true, Superseded, {});
        return {}, acks;
      }
      if res == OutOfOrder {
        NothingSent(notified);
        return;
      }
      notified := Notify(owners);
      acks := AckIfDue(notified);
    }

    method OnLocal(sequence: nat, m: LocalMsg, now: int) returns (notified: set<ServiceKey>, acks: seq<Ack>)
      requires registry.Valid()
      modifies this, store
      ensures Performed(LocalTurn(old(State()), old(store.State()), registry.State().index, sequence, m, now), old(room), notified, acks)
    {
      hide Performed, LocalDelta, Indexes, Owns, Claims, LocalFrom, LocalOwners;
      notified, acks := {}, [];
      var rep, owners := FromLocal(m);
      if rep.None? {
        acks := SendAck(false, UnknownAttachment, {});
        return {}, acks;
      }
      var r := rep.value;
      if inSnapshot {
        bufLocal := bufLocal + [r];
        NothingSent(notified);
        return;
      }
      notified, acks := TakeLocal(sequence, r, owners, now);
    }

    /** A report outside a bracket. */
    method TakePath(sequence: nat, r: PathHealth, owners: seq<ServiceKey>, now: int) returns (notified: set<ServiceKey>, acks: seq<Ack>)
      requires registry.Valid() && (set s | s in owners) == PathOwners(registry.State().index, r.scopeID)
      modifies this, store
      ensures Performed(PathDelta(old(State()), old(store.State()), registry.State().index, sequence, r, now), old(room), notified, acks)
    {
      hide Performed, Settle, Indexes, Owns, Claims, PathOwners, StoreState.PathResult, StoreState.AfterPath;
      notified, acks := {}, [];
      RefusedPathLeaves(store.State(), ReportOrigin(node, instance, sequence), r, now);
      var res := store.AcceptPath(ReportOrigin(node, instance, sequence), r, now);
      if res == StaleInstance {
        open := false;
        acks := SendAck(true, Superseded, {});
        return {}, acks;
      }
      if res == OutOfOrder {
        NothingSent(notified);
        return;
      }
      notified := Notify(owners);
      acks := AckIfDue(notified);
    }

    method OnPath(sequence: nat, m: PathMsg, now: int) returns (notified: set<ServiceKey>, acks: seq<Ack>)
      requires registry.Valid()
      modifies this, store
      ensures Performed(PathTurn(old(State()), old(store.State()), registry.State().index, sequence, m, now), old(room), notified, acks)
    {
      hide Performed, PathDelta, Indexes, Owns, Claims, PathFrom, PathOwners;
      notified, acks := {}, [];
      var rep, owners := FromPath(m);
      if rep.None? {
        acks := SendAck(false, UnknownPathKey, {});
        return {}, acks;
      }
      var r := rep.value;
      if inSnapshot {
        bufPath := bufPath + [r];
        NothingSent(notified);
        return;
      }
      notified, acks := TakePath(sequence, r, owners, now);
    }

    /** Notify's calls, collected as the set of Services enqueued. */
    method Notify(owners: seq<ServiceKey>) returns (notified: set<ServiceKey>)
      ensures notified == set s | s in owners
    {
      notified := {};
      for i := 0 to |owners|
        invariant notified == set s | s in owners[..i]
      {
        notified := notified + {owners[i]};
      }
    }

    method NotifyAll(locals: seq<LocalHealth>, paths: seq<PathHealth>) returns (seen: set<ServiceKey>)
      requires registry.Valid()
      ensures seen == OwnersOfLocals(registry.State().index, locals) + OwnersOfPaths(registry.State().index, paths)
    {
      hide Indexes, Owns, Claims;
      ghost var ix := registry.State().index;
      seen := {};
      for i := 0 to |locals|
        invariant seen == OwnersOfLocals(ix, locals[..i])
      {
        var att, owners := registry.Attachment(locals[i].attachmentID);
        if att.Some? {
          var more := Notify(owners);
          seen := seen + more;
        }
        assert locals[..i + 1][..i] == locals[..i];
      }
      assert locals[..|locals|] == locals;
      ghost var fromLocals := seen;
      for i := 0 to |paths|
        invariant seen == fromLocals + OwnersOfPaths(ix, paths[..i])
      {
        var owners, known := registry.PathKey(paths[i].scopeID);
        if known {
          var more := Notify(owners);
          seen := seen + more;
        }
        assert paths[..i + 1][..i] == paths[..i];
      }
      assert paths[..|paths|] == paths;
    }
  }
}
