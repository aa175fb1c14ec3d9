/**
 What the streams of other processes can and cannot do to one agent's evidence, exactly.
 */
module Bystanders {
  import opened Ordering
  import opened HealthModel
  import opened Messages
  import opened Store
  import opened RegistryIndex
  import opened Server
  import opened Protocol
  import opened Delivery

  /** The registry places the attachment on this node by name. */
  predicate PlacedOn(ix: Index, node: string, id: Key) {
    id in ix.attachments && ix.attachments[id].nodeName == node
  }

  /** Only this node may speak for the key. */
  predicate OnlyFrom(ix: Index, node: string, kind: Kind, k: Key) {
    match kind
    case LocalKind => PlacedOn(ix, node, k)
    case PathKind => AllowsPath(ix, node, k)
  }

  lemma OnlyFromIsExclusive(ix: Index, node: string, other: string, kind: Kind, k: Key)
    requires node != "" && OnlyFrom(ix, node, kind, k) && Allows(ix, other, kind, k)
    ensures other == node
  {
    if kind == PathKind {
      OneAuthorityPerKey(ix, k, node, other);
    }
  }

  /** The evidence under k is a report of this node. */
  predicate HeldFor(st: StoreState, node: string, kind: Kind, k: Key) {
    EvidenceAt(st, kind, k).Some? && EvidenceAt(st, kind, k).value.report.Node() == node
  }

  // ---------------------------------------------------------------- buffers

  /** Everything buffered carries the stream's node. */
  ghost predicate BuffersOnNode(s: Session) {
    forall rep :: InBuffer(s, rep) ==> rep.Node() == s.node
  }

  /** And it is within that node's authority. */
  ghost predicate BuffersAllowed(s: Session, ix: Index) {
    forall rep :: InBuffer(s, rep) ==> Allows(ix, s.node, rep.Kind(), rep.Key())
  }

  lemma HeardCarriesNode(ix: Index, node: string, env: Envelope)
    ensures Heard(ix, node, env).Some? ==> Heard(ix, node, env).value.Node() == node
  {
  }

  lemma TurnKeepsBuffers(s: Session, st: StoreState, ix: Index, env: Envelope, now: int)
    requires SessionSound(s) && BuffersOnNode(s)
    ensures BuffersOnNode(Handle(s, st, ix, env, now).session)
    ensures BuffersAllowed(s, ix) ==> BuffersAllowed(Handle(s, st, ix, env, now).session, ix)
  {
    var s' := Handle(s, st, ix, env, now).session;
    hide Handle, Heard, InBuffer, Admit, Allows;
    forall rep | InBuffer(s', rep)
      ensures rep.Node() == s'.node
      ensures BuffersAllowed(s, ix) ==> Allows(ix, s'.node, rep.Kind(), rep.Key())
    {
      TurnBuffers(s, st, ix, env, now, rep);
      HeardIsAllowed(ix, s'.node, env);
      HeardCarriesNode(ix, s'.node, env);
    }
  }

  lemma NewSessionIsClean(auth: Option<string>)
    ensures SessionSound(NewSession(auth)) && BuffersOnNode(NewSession(auth)) && !NewSession(auth).adopted
    ensures forall ix :: BuffersAllowed(NewSession(auth), ix)
  {
  }

  // ---------------------------------------------------------------- what a turn does to one key, exactly

  /** The effect drops what is held under the key: it retires it, or replaces its node's evidence. */
  predicate Drops(a: Session, st: StoreState, o: ReportOrigin, eff: Effect, kind: Kind, k: Key) {
    match eff
    case Forget(id) => kind == LocalKind && id == k
    case Commit => st.Current(o) && HeldFor(st, o.nodeName, kind, k)
    case _ => false
  }

  lemma SnapshotDrops(s: Session, st: StoreState, o: ReportOrigin, now: int, kind: Kind, k: Key)
    requires EvidenceAt(st, kind, k).Some? && st.Current(o)
    ensures EvidenceAt(st.AfterSnapshot(o, s.bufLocal, s.bufPath, now), kind, k).None?
         <==> HeldFor(st, o.nodeName, kind, k) && !Collects(s, kind, k)
  {
    PutAllAt(DropNode(st.local, LocalNode, o.nodeName), LocalKey, s.bufLocal, o, now, k);
    PutAllAt(DropNode(st.path, PathNode, o.nodeName), PathReportKey, s.bufPath, o, now, k);
    CollectsLast(s, kind, k);
    hide PutAll, LastFor, Collects;
  }

  lemma DeltaDropsNothing(st: StoreState, o: ReportOrigin, rep: Report, now: int, kind: Kind, k: Key)
    requires EvidenceAt(st, kind, k).Some?
    ensures
      var st' := match rep case LocalReport(l) => st.AfterLocal(o, l, now) case PathReport(p) => st.AfterPath(o, p, now);
      EvidenceAt(st', kind, k).Some?
  {
  }

  lemma ForgetDrops(st: StoreState, id: Key, kind: Kind, k: Key)
    requires EvidenceAt(st, kind, k).Some?
    ensures EvidenceAt(st.AfterForget(id), kind, k).None? <==> kind == LocalKind && id == k
  {
  }

  lemma EffectDrops(a: Session, st: StoreState, o: ReportOrigin, eff: Effect, now: int, kind: Kind, k: Key)
    requires EvidenceAt(st, kind, k).Some?
    ensures EvidenceAt(Effected(a, st, o, eff, now), kind, k).None?
         <==> Drops(a, st, o, eff, kind, k) && !EffectAccepts(a, st, o, eff, kind, k)
  {
    hide EvidenceAt, HeldFor, Collects, Answer, StoreState.AfterSnapshot, StoreState.AfterLocal, StoreState.AfterPath,
      StoreState.AfterForget, StoreState.Current;
    match eff {
      case Commit =>
        if st.Current(o) {
          SnapshotDrops(a, st, o, now, kind, k);
        } else {
          NotCurrentDoesNothing(a, st, o, now);
        }
      case Forget(id) => ForgetDrops(st, id, kind, k);
      case Take(rep) => DeltaDropsNothing(st, o, rep, now, kind, k);
      case Nothing =>
    }
  }

  predicate TurnTakes(s: Session, st: StoreState, ix: Index, env: Envelope, kind: Kind, k: Key) {
    var a := Admit(s, st, env);
    EffectAccepts(a.session, a.store, a.session.Origin(env.sequence), EffectOf(a.session, ix, env), kind, k)
  }

  predicate TurnDrops(s: Session, st: StoreState, ix: Index, env: Envelope, kind: Kind, k: Key) {
    var a := Admit(s, st, env);
    Drops(a.session, a.store, a.session.Origin(env.sequence), EffectOf(a.session, ix, env), kind, k)
  }

  /** Evidence leaves the store in a turn exactly when it is retired, or when its own node's snapshot commits without it. */
  lemma LeavesIff(s: Session, st: StoreState, ix: Index, env: Envelope, now: int, kind: Kind, k: Key)
    requires EvidenceAt(st, kind, k).Some?
    ensures EvidenceAt(Handle(s, st, ix, env, now).store, kind, k).None?
         <==> TurnDrops(s, st, ix, env, kind, k) && !TurnTakes(s, st, ix, env, kind, k)
  {
    hide Handle, Admit, Effected, EffectOf, EvidenceAt, Drops, EffectAccepts;
    var a := Admit(s, st, env);
    TurnStore(s, st, ix, env, now);
    AdmissionKeeps(s, st, env, kind, k);
    EffectDrops(a.session, a.store, a.session.Origin(env.sequence), EffectOf(a.session, ix, env), now, kind, k);
  }

  /** The turn retires this attachment: the stream is admitted, the envelope is its own, and it names the id. */
  predicate Retires(s: Session, st: StoreState, env: Envelope, id: Key) {
    var a := Admit(s, st, env).session;
    a.open && env.agentInstanceId == a.instance && env.payload == Retired(id)
  }

  // ---------------------------------------------------------------- streams of other processes

  /** The stream is another process's, whatever node it speaks for. */
  predicate OthersStream(s: Session, env: Envelope, who: Who) {
    if s.adopted then s.instance != who.instance else env.agentInstanceId != who.instance
  }

  /** The envelope makes another process the authority for the node. */
  predicate TakesOver(s: Session, st: StoreState, env: Envelope, node: string) {
    !s.adopted && Admit(s, st, env).session.adopted && Admit(s, st, env).session.node == node
  }

  lemma OthersAdmission(s: Session, st: StoreState, env: Envelope, who: Who)
    requires OthersStream(s, env, who)
    ensures
      var a := Admit(s, st, env);
      && (a.session.adopted ==> a.session.instance != who.instance)
      && (a.store.Current(ReportOrigin(who.node, who.instance, 0)) <==>
            st.Current(ReportOrigin(who.node, who.instance, 0)) && !TakesOver(s, st, env, who.node))
  {
  }

  lemma OthersAuthority(s: Session, st: StoreState, ix: Index, env: Envelope, now: int, who: Who)
    requires SessionSound(s) && OthersStream(s, env, who)
    ensures Handle(s, st, ix, env, now).store.Current(ReportOrigin(who.node, who.instance, 0)) <==>
              st.Current(ReportOrigin(who.node, who.instance, 0)) && !TakesOver(s, st, env, who.node)
  {
    TurnAuthority(s, st, ix, env, now);
    OthersAdmission(s, st, env, who);
    hide Handle, Admit;
  }

  /** The turn does something to the key: takes a report for it, retires it, or replaces its node's evidence. */
  predicate Touches(s: Session, st: StoreState, ix: Index, env: Envelope, kind: Kind, k: Key) {
    TurnTakes(s, st, ix, env, kind, k) || TurnDrops(s, st, ix, env, kind, k)
  }

  lemma TakenIsFromHere(st: StoreState, kind: Kind, k: Key, o: ReportOrigin, now: int, before: Option<Evidence>)
    requires AcceptedNow(st, kind, k, o, now) && before.Some? && before.value.origin.agentInstance != o.agentInstance
    ensures EvidenceAt(st, kind, k) != before
  {
  }

  lemma TakingIsAdmitted(s: Session, st: StoreState, ix: Index, env: Envelope, kind: Kind, k: Key)
    requires TurnTakes(s, st, ix, env, kind, k)
    ensures Admit(s, st, env).session.open
  {
    hide Admit, Heard, Collects, Answer;
  }

  /** A turn of one process's stream moves what another process reported exactly when it touches it. */
  lemma TouchedIff(s: Session, st: StoreState, ix: Index, env: Envelope, now: int, kind: Kind, k: Key)
    requires SessionSound(s) && EvidenceAt(st, kind, k).Some?
    requires Admit(s, st, env).session.adopted ==>
      EvidenceAt(st, kind, k).value.origin.agentInstance != Admit(s, st, env).session.instance
    ensures
      EvidenceAt(Handle(s, st, ix, env, now).store, kind, k) == EvidenceAt(st, kind, k) <==> !Touches(s, st, ix, env, kind, k)
  {
    hide Handle, Admit, EvidenceAt, AcceptedNow, EffectAccepts, Drops, Accepts, EffectOf;
    var st', o := Handle(s, st, ix, env, now).store, Admit(s, st, env).session.Origin(env.sequence);
    TurnAccepts(s, st, ix, env, now, kind, k);
    AcceptsByEffect(s, st, ix, env, kind, k);
    LeavesIff(s, st, ix, env, now, kind, k);
    AdmissionKeeps(s, st, env, kind, k);
    if TurnTakes(s, st, ix, env, kind, k) {
      TakingIsAdmitted(s, st, ix, env, kind, k);
      TakenIsFromHere(st', kind, k, o, now, EvidenceAt(st, kind, k));
    }
  }

  lemma AdmitBuffers(s: Session, st: StoreState, env: Envelope, rep: Report)
    requires SessionSound(s) && InBuffer(Admit(s, st, env).session, rep)
    ensures Admit(s, st, env).session == s
  {
  }

  lemma CollectedIsIn(s: Session, kind: Kind, k: Key) returns (rep: Report)
    requires Collects(s, kind, k)
    ensures InBuffer(s, rep) && rep.Kind() == kind && rep.Key() == k
  {
    match kind {
      case LocalKind =>
        var i :| 0 <= i < |s.bufLocal| && s.bufLocal[i].attachmentID == k;
        rep := LocalReport(s.bufLocal[i]);
      case PathKind =>
        var i :| 0 <= i < |s.bufPath| && s.bufPath[i].scopeID == k;
        rep := PathReport(s.bufPath[i]);
    }
  }

  /** What a turn takes, the registry allows its node to say. */
  lemma TakenIsAllowed(s: Session, st: StoreState, ix: Index, env: Envelope, kind: Kind, k: Key)
    requires SessionSound(s) && BuffersAllowed(s, ix) && TurnTakes(s, st, ix, env, kind, k)
    ensures Allows(ix, Admit(s, st, env).session.node, kind, k)
  {
    hide Admit, Heard, InBuffer, Allows, Collects, Answer;
    var a := Admit(s, st, env).session;
    match EffectOf(a, ix, env) {
      case Commit =>
        var rep := CollectedIsIn(a, kind, k);
        AdmitBuffers(s, st, env, rep);
      case Take(rep) =>
        TakesWhatIsHeard(a, ix, env, rep);
        HeardIsAllowed(ix, a.node, env);
      case _ =>
    }
  }

  lemma TakenIsCurrent(s: Session, st: StoreState, ix: Index, env: Envelope, kind: Kind, k: Key)
    requires TurnTakes(s, st, ix, env, kind, k)
    ensures var a := Admit(s, st, env); a.store.Current(a.session.Origin(env.sequence))
  {
    hide Admit, Heard, Collects, StoreState.Current;
    var a := Admit(s, st, env);
    match EffectOf(a.session, ix, env) {
      case Take(rep) => StaleIsNotAccepted(a.store, a.session.Origin(env.sequence), rep);
      case _ =>
    }
  }

  /**
   What the node alone may speak for, another process can touch only by retiring it, as
   long as it has not taken the node over.
   */
  lemma OnlyRetirementTouches(s: Session, st: StoreState, ix: Index, env: Envelope, who: Who, kind: Kind, k: Key)
    requires SessionSound(s) && BuffersAllowed(s, ix) && OthersStream(s, env, who) && who.node != ""
    requires st.Current(ReportOrigin(who.node, who.instance, 0)) && !TakesOver(s, st, env, who.node)
    requires OnlyFrom(ix, who.node, kind, k) && HeldFor(st, who.node, kind, k)
    ensures Touches(s, st, ix, env, kind, k) <==> kind == LocalKind && Retires(s, st, env, k)
  {
    var a := Admit(s, st, env);
    OthersAdmission(s, st, env, who);
    AdmissionKeeps(s, st, env, kind, k);
    hide Admit, Heard, InBuffer, Allows, OnlyFrom, Collects, Answer, BuffersAllowed;
    if TurnTakes(s, st, ix, env, kind, k) {
      TakenIsAllowed(s, st, ix, env, kind, k);
      OnlyFromIsExclusive(ix, who.node, a.session.node, kind, k);
      TakenIsCurrent(s, st, ix, env, kind, k);
    }
  }

  /** While the agent is its node's authority, nobody else files anything under the node. */
  lemma OthersFileElsewhere(s: Session, st: StoreState, ix: Index, env: Envelope, now: int, who: Who, kind: Kind, k: Key)
    requires SessionSound(s) && BuffersOnNode(s) && OthersStream(s, env, who)
    requires Handle(s, st, ix, env, now).store.Current(ReportOrigin(who.node, who.instance, 0))
    ensures HeldFor(Handle(s, st, ix, env, now).store, who.node, kind, k) ==> Kept(st, Handle(s, st, ix, env, now).store, kind, k)
  {
    var st', a := Handle(s, st, ix, env, now).store, Admit(s, st, env);
    OthersAdmission(s, st, env, who);
    TurnAuthority(s, st, ix, env, now);
    TurnProvenance(s, st, ix, env, now, kind, k);
    HeardCarriesNode(ix, a.session.node, env);
    hide Handle, Admit, Heard, InBuffer, TakesOver;
    var ev := EvidenceAt(st', kind, k);
    if ev.Some? {
      if InBuffer(a.session, ev.value.report) {
        AdmitBuffers(s, st, env, ev.value.report);
      }
    }
  }
}
