/** Which Services hear about a change of readiness. */
module Notification {
  import opened HealthModel
  import opened Messages
  import opened Store
  import opened Readiness
  import opened RegistryIndex
  import opened Server
  import opened Protocol

  function ReadyNow(c: Claim, st: StoreState, now: int): bool {
    ComputeReady(c.att, c.scope, st, now).ready
  }

  /** The envelope commits the snapshot the stream has open. */
  predicate Commits(s: System, stream: nat, env: Envelope)
    requires stream in s.sessions
  {
    CommitTurn(s.sessions[stream], s.store, env)
  }

  /** The stream's snapshot reports local state for the claim's attachment, or path state under its path key. */
  predicate Mentions(a: Session, c: Claim) {
    || (exists i :: 0 <= i < |a.bufLocal| && a.bufLocal[i].attachmentID == c.id)
    || (exists i :: 0 <= i < |a.bufPath| && a.bufPath[i].scopeID == c.pathKey)
  }

  lemma ClaimKeys(r: RegistryState, c: Claim)
    requires c in Claims(r.table)
    ensures c.id == c.att.ID() && c.pathKey == c.att.PathKey(c.scope)
  {
  }

  /** Owner lists name exactly the claiming Services. */
  lemma OwnersAreClaimants(r: RegistryState, c: Claim)
    requires r.Valid() && c in Claims(r.table)
    ensures c.service in LocalOwners(r.index, c.id) && c.service in PathOwners(r.index, c.pathKey)
  {
    AttachmentKnown(r.index, Claims(r.table), c.id);
    assert Owns(Claims(r.table), ClaimID, c.service, c.id) && Owns(Claims(r.table), ClaimPath, c.service, c.pathKey);
  }

  lemma OwnerHasClaim(r: RegistryState, s: ServiceKey, k: Key)
    requires r.Valid()
    ensures s in LocalOwners(r.index, k) ==> exists c :: c in Claims(r.table) && c.service == s && c.id == k
    ensures s in PathOwners(r.index, k) ==> exists c :: c in Claims(r.table) && c.service == s && c.pathKey == k
  {
    AttachmentKnown(r.index, Claims(r.table), k);
    hide Claims, AttachmentsExact, NodesExact, NoDuplicates;
    if s in LocalOwners(r.index, k) {
      assert Owns(Claims(r.table), ClaimID, s, k);
    }
    if s in PathOwners(r.index, k) {
      assert Owns(Claims(r.table), ClaimPath, s, k);
    }
  }

  /** The turn takes in something about the claim: an accepted delta, a retirement, or a commit that reports on it. */
  predicate Concerns(s: Session, st: StoreState, ix: Index, env: Envelope, c: Claim) {
    match env.payload
    case Local(m) => TakenQuietly(s, st, ix, env) && c.id == m.attachmentId
    case Path(m) => TakenQuietly(s, st, ix, env) && c.pathKey == m.scopeId
    case Retired(id) => c.id == id
    case SnapshotEnd(e) => s.inSnapshot && e == s.epoch && st.Current(s.Origin(env.sequence)) && Mentions(s, c)
    case _ => false
  }

  /** A commit notifies exactly the Services with some claim the snapshot mentions. */
  lemma CommitNotifies(r: RegistryState, a: Session, s: ServiceKey)
    requires r.Valid()
    ensures s in OwnersOfLocals(r.index, a.bufLocal) + OwnersOfPaths(r.index, a.bufPath)
      <==> exists d :: d in Claims(r.table) && d.service == s && Mentions(a, d)
  {
    hide RegistryState.Valid, Claims, LocalOwners, PathOwners;
    if s in OwnersOfLocals(r.index, a.bufLocal) {
      var i :| 0 <= i < |a.bufLocal| && s in LocalOwners(r.index, a.bufLocal[i].attachmentID);
      OwnerHasClaim(r, s, a.bufLocal[i].attachmentID);
    }
    if s in OwnersOfPaths(r.index, a.bufPath) {
      var i :| 0 <= i < |a.bufPath| && s in PathOwners(r.index, a.bufPath[i].scopeID);
      OwnerHasClaim(r, s, a.bufPath[i].scopeID);
    }
    if d :| d in Claims(r.table) && d.service == s && Mentions(a, d) {
      OwnersAreClaimants(r, d);
    }
  }

  lemma NamedOwners(r: RegistryState, key: Key, k: ServiceKey)
    requires r.Valid()
    ensures k in LocalOwners(r.index, key) <==> exists c :: c in Claims(r.table) && c.service == k && c.id == key
    ensures k in PathOwners(r.index, key) <==> exists c :: c in Claims(r.table) && c.service == k && c.pathKey == key
  {
    hide Claims, LocalOwners, PathOwners, RegistryState.Valid;
    OwnerHasClaim(r, k, key);
    if c :| c in Claims(r.table) && c.service == k && c.id == key {
      OwnersAreClaimants(r, c);
    }
    if c :| c in Claims(r.table) && c.service == k && c.pathKey == key {
      OwnersAreClaimants(r, c);
    }
  }

  /** Past admission a turn notifies a Service exactly when it takes in something about a claim of that Service. */
  lemma NotifiedIff(r: RegistryState, s: Session, st: StoreState, env: Envelope, now: int, k: ServiceKey)
    requires r.Valid() && s.open && s.adopted && env.agentInstanceId == s.instance
    ensures k in Handle(s, st, r.index, env, now).notified <==>
      exists c :: c in Claims(r.table) && c.service == k && Concerns(s, st, r.index, env, c)
  {
    hide Claims, LocalOwners, PathOwners, OwnersOfLocals, OwnersOfPaths, RegistryState.Valid, Mentions, LocalFrom, PathFrom, Refuses,
      StoreState.Current, StoreState.AfterSnapshot, StoreState.AfterLocal, StoreState.AfterPath, StoreState.AfterForget;
    match env.payload {
      case Local(m) =>
        LocalFromKeepsID(r.index, s.node, m);
        NamedOwners(r, m.attachmentId, k);
      case Path(m) =>
        PathFromKeepsID(r.index, s.node, m);
        NamedOwners(r, m.scopeId, k);
      case Retired(id) => NamedOwners(r, id, k);
      case SnapshotEnd(_) => CommitNotifies(r, s, k);
      case _ =>
    }
  }

  /** Readiness of a claim depends on two entries only. */
  lemma ReadyReads(c: Claim, st: StoreState, st': StoreState, now: int)
    requires c.id == c.att.ID() && c.pathKey == c.att.PathKey(c.scope)
    requires st.ttl == st'.ttl
    requires EvidenceAt(st, LocalKind, c.id) == EvidenceAt(st', LocalKind, c.id)
    requires EvidenceAt(st, PathKind, c.pathKey) == EvidenceAt(st', PathKind, c.pathKey)
    ensures ReadyNow(c, st, now) == ReadyNow(c, st', now)
  {
    ReadyIsFiveTerms(c.att, c.scope, st, now);
    ReadyIsFiveTerms(c.att, c.scope, st', now);
    hide ComputeReady, Attachment.ID, Attachment.PathKey;
  }

  lemma LocalTurnNotifies(s: Session, st: StoreState, ix: Index, sequence: nat, m: LocalMsg, now: int, k: Key)
    ensures
      var out := LocalTurn(s, st, ix, sequence, m, now);
      && (EvidenceAt(out.store, LocalKind, k) != EvidenceAt(st, LocalKind, k) ==> out.notified == LocalOwners(ix, k))
      && EvidenceAt(out.store, PathKind, k) == EvidenceAt(st, PathKind, k)
  {
    hide LocalOwners;
  }

  lemma PathTurnNotifies(s: Session, st: StoreState, ix: Index, sequence: nat, m: PathMsg, now: int, k: Key)
    ensures
      var out := PathTurn(s, st, ix, sequence, m, now);
      && (EvidenceAt(out.store, PathKind, k) != EvidenceAt(st, PathKind, k) ==> out.notified == PathOwners(ix, k))
      && EvidenceAt(out.store, LocalKind, k) == EvidenceAt(st, LocalKind, k)
  {
    hide PathOwners, Index.OnNode;
  }

  lemma AdmitKeepsEvidenceAt(s: Session, st: StoreState, env: Envelope, k: Key)
    ensures forall kind :: EvidenceAt(Admit(s, st, env).store, kind, k) == EvidenceAt(st, kind, k)
  {
  }

  lemma ForgettingMoves(st: StoreState, p: Payload, k: Key)
    ensures p.Retired? && p.attachmentId != k ==> EvidenceAt(st.AfterForget(p.attachmentId), LocalKind, k) == EvidenceAt(st, LocalKind, k)
    ensures p.Retired? ==> EvidenceAt(st.AfterForget(p.attachmentId), PathKind, k) == EvidenceAt(st, PathKind, k)
  {
  }

  /** Outside a commit, whatever changes under a key notifies exactly that key's owners. */
  lemma ChangeNotifiesOwners(s: Session, st: StoreState, ix: Index, env: Envelope, now: int, k: Key)
    requires SessionSound(s) && !env.payload.SnapshotEnd?
    ensures
      var out := Handle(s, st, ix, env, now);
      && (EvidenceAt(out.store, LocalKind, k) != EvidenceAt(st, LocalKind, k) ==> out.notified == LocalOwners(ix, k))
      && (EvidenceAt(out.store, PathKind, k) != EvidenceAt(st, PathKind, k) ==> out.notified == PathOwners(ix, k))
  {
    hide LocalOwners, PathOwners, LocalTurn, PathTurn, EndTurn, EvidenceAt, StoreState.AfterForget;
    var a := Admit(s, st, env);
    AdmitKeepsEvidenceAt(s, st, env, k);
    ForgettingMoves(a.store, env.payload, k);
    var s1 := a.session.(lastSeq := env.sequence, since := a.session.since + 1);
    match env.payload {
      case Local(m) => LocalTurnNotifies(s1, a.store, ix, env.sequence, m, now, k);
      case Path(m) => PathTurnNotifies(s1, a.store, ix, env.sequence, m, now, k);
      case _ =>
    }
  }

  lemma EndOutcome(s: System, stream: nat, env: Envelope)
    requires Sound(s) && stream in s.sessions && env.payload.SnapshotEnd?
    ensures
      var out, a := Turn(s, stream, env), Admitted(s, stream, env);
      if Commits(s, stream, env) then
        && out.notified == OwnersOfLocals(s.registry.index, a.bufLocal) + OwnersOfPaths(s.registry.index, a.bufPath)
        && out.store == Admit(s.sessions[stream], s.store, env).store
             .AfterSnapshot(a.Origin(env.sequence), a.bufLocal, a.bufPath, s.clock)
      else
        && out.notified == {}
        && out.store == Admit(s.sessions[stream], s.store, env).store
  {
    hide RegistryState.Valid, OwnersOfLocals, OwnersOfPaths, StoreState.AfterSnapshot;
  }

  /** A commit cannot make anything ready that the snapshot does not mention. */
  lemma UnmentionedOnlyFades(st: StoreState, o: ReportOrigin, a: Session, c: Claim, now: int)
    requires c.id == c.att.ID() && c.pathKey == c.att.PathKey(c.scope) && !Mentions(a, c)
    ensures ReadyNow(c, st.AfterSnapshot(o, a.bufLocal, a.bufPath, now), now) ==> ReadyNow(c, st, now)
  {
    PutAllAt(DropNode(st.local, LocalNode, o.nodeName), LocalKey, a.bufLocal, o, now, c.id);
    PutAllAt(DropNode(st.path, PathNode, o.nodeName), PathReportKey, a.bufPath, o, now, c.pathKey);
    var i := LastForMeaning(a.bufLocal, LocalKey, c.id);
    var j := LastForMeaning(a.bufPath, PathReportKey, c.pathKey);
    ReadyIsFiveTerms(c.att, c.scope, st, now);
    ReadyIsFiveTerms(c.att, c.scope, st.AfterSnapshot(o, a.bufLocal, a.bufPath, now), now);
    hide ComputeReady, Attachment.ID, Attachment.PathKey;
  }

  lemma TurnKeepsTtl(s: Session, st: StoreState, ix: Index, env: Envelope, now: int)
    ensures Handle(s, st, ix, env, now).store.ttl == st.ttl
  {
    TurnStore(s, st, ix, env, now);
    hide Handle, Heard, PutAll, DropNode;
  }

  lemma AdmitKeepsEvidence(s: Session, st: StoreState, env: Envelope, c: Claim)
    ensures EvidenceAt(Admit(s, st, env).store, LocalKind, c.id) == EvidenceAt(st, LocalKind, c.id)
    ensures EvidenceAt(Admit(s, st, env).store, PathKind, c.pathKey) == EvidenceAt(st, PathKind, c.pathKey)
  {
  }

  /**
   Ready-flip notification. When an envelope flips a registered attachment's
   readiness, the claiming Service is notified exactly when the envelope is no
   committing SnapshotEnd, or the snapshot mentions something that Service claims.
   */
  lemma FlipIsNotified(s: System, stream: nat, env: Envelope, c: Claim)
    requires Sound(s) && stream in s.sessions && c in Claims(s.registry.table)
    requires ReadyNow(c, s.store, s.clock) != ReadyNow(c, Turn(s, stream, env).store, s.clock)
    ensures c.service in Turn(s, stream, env).notified <==>
      (Commits(s, stream, env) ==>
         exists d :: d in Claims(s.registry.table) && d.service == c.service && Mentions(Admitted(s, stream, env), d))
  {
    var out, a := Turn(s, stream, env), Admitted(s, stream, env);
    var sess, ix := s.sessions[stream], s.registry.index;
    ClaimKeys(s.registry, c);
    OwnersAreClaimants(s.registry, c);
    TurnKeepsTtl(sess, s.store, ix, env, s.clock);
    hide RegistryState.Valid, Claims, Handle, Admit, Mentions, ReadyNow, LocalOwners, PathOwners;
    if env.payload.SnapshotEnd? {
      EndOutcome(s, stream, env);
      CommitNotifies(s.registry, a, c.service);
      if !Commits(s, stream, env) {
        AdmitKeepsEvidence(sess, s.store, env, c);
        ReadyReads(c, s.store, out.store, s.clock);
      }
    } else {
      ChangeNotifiesOwners(sess, s.store, ix, env, s.clock, c.id);
      ChangeNotifiesOwners(sess, s.store, ix, env, s.clock, c.pathKey);
      if EvidenceAt(out.store, LocalKind, c.id) == EvidenceAt(s.store, LocalKind, c.id)
         && EvidenceAt(out.store, PathKind, c.pathKey) == EvidenceAt(s.store, PathKind, c.pathKey) {
        ReadyReads(c, s.store, out.store, s.clock);
      }
    }
  }

  lemma AdmitKeepsTtl(s: Session, st: StoreState, env: Envelope)
    ensures Admit(s, st, env).store.ttl == st.ttl
  {
  }

  /** Every flip to ready is notified, with no exception. */
  lemma BecomingReadyIsNotified(s: System, stream: nat, env: Envelope, c: Claim)
    requires Sound(s) && stream in s.sessions && c in Claims(s.registry.table)
    requires !ReadyNow(c, s.store, s.clock) && ReadyNow(c, Turn(s, stream, env).store, s.clock)
    ensures c.service in Turn(s, stream, env).notified
  {
    FlipIsNotified(s, stream, env, c);
    ClaimKeys(s.registry, c);
    var a := Admitted(s, stream, env);
    var st := Admit(s.sessions[stream], s.store, env).store;
    AdmitKeepsEvidence(s.sessions[stream], s.store, env, c);
    AdmitKeepsTtl(s.sessions[stream], s.store, env);
    hide RegistryState.Valid, Claims, Handle, Admit, ReadyNow, EvidenceAt;
    if Commits(s, stream, env) && !Mentions(a, c) {
      EndOutcome(s, stream, env);
      ReadyReads(c, s.store, st, s.clock);
      UnmentionedOnlyFades(st, a.Origin(env.sequence), a, c, s.clock);
    }
  }
}
