/**
 Sequence numbers over whole runs: one process numbers its envelopes from a single
 counter and its streams deliver in order, so the controller never takes a report
 of that process for an old one.
 */
module Sequences {
  import opened Ordering
  import opened HealthModel
  import opened Messages
  import opened Store
  import opened RegistryIndex
  import opened Server
  import opened Protocol
  import opened Delivery

  predicate SpeaksAs(e: Event, instance: string) {
    e.Deliver? && e.env.agentInstanceId == instance
  }

  /** Envelopes claiming the instance are delivered, on whatever streams, in the order their numbers were drawn. */
  ghost predicate InOrder(r: Run, instance: string) {
    && (forall i :: 0 <= i < |r.events| && SpeaksAs(r.events[i], instance) ==> 0 < r.events[i].env.sequence)
    && (forall i, j :: 0 <= i < j < |r.events| && SpeaksAs(r.events[i], instance) && SpeaksAs(r.events[j], instance) ==>
          r.events[i].env.sequence < r.events[j].env.sequence)
  }

  function LastSent(es: seq<Event>, instance: string): nat {
    if es == [] then 0
    else if SpeaksAs(es[|es| - 1], instance) then es[|es| - 1].env.sequence
    else LastSent(es[..|es| - 1], instance)
  }

  lemma LastSentStep(es: seq<Event>, n: nat, instance: string)
    requires n < |es|
    ensures LastSent(es[..n + 1], instance)
         == if SpeaksAs(es[n], instance) then es[n].env.sequence else LastSent(es[..n], instance)
  {
    assert es[..n + 1][..n] == es[..n];
  }

  /** The last number processed came on some earlier envelope, if any claimed the instance at all. */
  lemma {:induction false} LastSentIsSent(es: seq<Event>, n: nat, instance: string) returns (i: int)
    requires n <= |es|
    ensures -1 <= i < n
    ensures i >= 0 ==> SpeaksAs(es[i], instance) && LastSent(es[..n], instance) == es[i].env.sequence
    ensures i < 0 ==> LastSent(es[..n], instance) == 0
  {
    if n == 0 {
      return -1;
    }
    LastSentStep(es, n - 1, instance);
    i := n - 1;
    if !SpeaksAs(es[n - 1], instance) {
      i := LastSentIsSent(es, n - 1, instance);
    }
  }

  lemma LastSentGrows(r: Run, n: nat, instance: string)
    requires 0 < n <= |r.events| && InOrder(r, instance)
    ensures LastSent(r.events[..n - 1], instance) <= LastSent(r.events[..n], instance)
    ensures SpeaksAs(r.events[n - 1], instance) ==>
      LastSent(r.events[..n - 1], instance) < r.events[n - 1].env.sequence == LastSent(r.events[..n], instance)
  {
    LastSentStep(r.events, n - 1, instance);
    var i := LastSentIsSent(r.events, n - 1, instance);
  }

  lemma StepBound(s: System, e: Event, s': System, instance: string, q: nat, q': nat)
    requires Sound(s) && Next(s, e, s') && SeqBound(s.store, instance, q) && q <= q'
    requires SpeaksAs(e, instance) ==> e.env.sequence <= q'
    ensures SeqBound(s'.store, instance, q')
  {
    hide Next, Sound, RegistryState.Valid;
    forall k | k in s'.store.local
      ensures s'.store.local[k].origin.agentInstance == instance ==> s'.store.local[k].origin.sequence <= q'
    {
      StepProvenance(s, e, s', LocalKind, k);
    }
    forall k | k in s'.store.path
      ensures s'.store.path[k].origin.agentInstance == instance ==> s'.store.path[k].origin.sequence <= q'
    {
      StepProvenance(s, e, s', PathKind, k);
    }
  }

  /** After any prefix, every stored entry of the instance carries at most the last number processed. */
  lemma {:induction false} EntriesBounded(r: Run, n: nat, instance: string)
    requires IsRun(r) && n < |r.states| && InOrder(r, instance)
    ensures SeqBound(r.states[n].store, instance, LastSent(r.events[..n], instance))
  {
    hide Next, Init, Sound, InOrder;
    StartsEmpty(r);
    if n > 0 {
      var s, e, s' := r.states[n - 1], r.events[n - 1], r.states[n];
      EntriesBounded(r, n - 1, instance);
      LastSentGrows(r, n, instance);
      RunSound(r, n - 1);
      StepOf(r, n - 1);
      StepBound(s, e, s', instance, LastSent(r.events[..n - 1], instance), LastSent(r.events[..n], instance));
    }
  }

  /** The delta was accepted, and its report is now the evidence under its key. */
  ghost predicate AcceptedDelta(s: Session, st: StoreState, ix: Index, env: Envelope, now: int, st': StoreState)
    requires LiveDelta(s, st, ix, env)
  {
    var a := Admit(s, st, env);
    var o, rep := a.session.Origin(env.sequence), Heard(ix, a.session.node, env).value;
    && Answer(a.store, o, rep) == Accepted
    && EvidenceAt(st', rep.Kind(), rep.Key()) == Some(Evidence(rep, o, now))
  }

  lemma NewNumberIsAccepted(s: Session, st: StoreState, ix: Index, env: Envelope, now: int, q: nat)
    requires LiveDelta(s, st, ix, env) && SeqBound(st, env.agentInstanceId, q) && q < env.sequence
    ensures AcceptedDelta(s, st, ix, env, now, Handle(s, st, ix, env, now).store)
  {
    TurnStore(s, st, ix, env, now);
    hide Handle, LocalFrom, PathFrom;
  }

  /**
   Whatever streams, registry changes, sweeps and prunes a run contains, a delta the
   registry accepts from the process's own stream is taken as long as its instance is
   authoritative: never refused as out of order.
   */
  lemma NeverOutOfOrder(r: Run, n: nat, instance: string)
    requires IsRun(r) && n < |r.events| && InOrder(r, instance)
    requires SpeaksAs(r.events[n], instance) && r.events[n].stream in r.states[n].sessions
    requires
      var s, e := r.states[n], r.events[n];
      LiveDelta(s.sessions[e.stream], s.store, s.registry.index, e.env)
    ensures
      var s, e := r.states[n], r.events[n];
      AcceptedDelta(s.sessions[e.stream], s.store, s.registry.index, e.env, s.clock, r.states[n + 1].store)
  {
    hide Init, InOrder, LastSent, LiveDelta, AcceptedDelta, Handle, SeqBound, RegistryState.Valid;
    var s, e := r.states[n], r.events[n];
    EntriesBounded(r, n, instance);
    LastSentGrows(r, n + 1, instance);
    StepOf(r, n);
    NewNumberIsAccepted(s.sessions[e.stream], s.store, s.registry.index, e.env, s.clock, LastSent(r.events[..n], instance));
  }

  // ---------------------------------------------------------------- when a stored number may fall

  /** Under k the same instance's evidence now carries a smaller number than before. */
  ghost predicate Falls(st: StoreState, st': StoreState, kind: Kind, k: Key) {
    var ev, ev' := EvidenceAt(st, kind, k), EvidenceAt(st', kind, k);
    && ev.Some? && ev'.Some?
    && ev'.value.origin.agentInstance == ev.value.origin.agentInstance
    && ev'.value.origin.sequence < ev.value.origin.sequence
  }

  lemma CommitFallsIff(s: Session, st: StoreState, o: ReportOrigin, now: int, kind: Kind, k: Key)
    requires st.Current(o)
    ensures
      var ev := EvidenceAt(st, kind, k);
      Falls(st, st.AfterSnapshot(o, s.bufLocal, s.bufPath, now), kind, k) <==>
        && Collects(s, kind, k) && ev.Some? && ev.value.origin.agentInstance == o.agentInstance
        && o.sequence < ev.value.origin.sequence
  {
    PutAllAt(DropNode(st.local, LocalNode, o.nodeName), LocalKey, s.bufLocal, o, now, k);
    PutAllAt(DropNode(st.path, PathNode, o.nodeName), PathReportKey, s.bufPath, o, now, k);
    CollectsLast(s, kind, k);
    hide PutAll, LastFor, Collects;
  }

  lemma DeltaNeverLowers(st: StoreState, o: ReportOrigin, rep: Report, now: int, kind: Kind, k: Key)
    ensures !Falls(st, match rep case LocalReport(l) => st.AfterLocal(o, l, now) case PathReport(p) => st.AfterPath(o, p, now), kind, k)
  {
  }

  /**
   Monotonicity of stored numbers, exactly: a turn lowers the number its own instance
   has stored under a key iff it commits a snapshot that names the key under a lower
   number. A delta never does.
   */
  lemma NumberFallsIff(s: Session, st: StoreState, ix: Index, env: Envelope, now: int, kind: Kind, k: Key)
    requires SessionSound(s)
    ensures
      var a := Admit(s, st, env).session;
      Falls(st, Handle(s, st, ix, env, now).store, kind, k) <==>
        && CommitTurn(s, st, env) && Collects(a, kind, k)
        && EvidenceAt(st, kind, k).Some?
        && EvidenceAt(st, kind, k).value.origin.agentInstance == a.instance
        && env.sequence < EvidenceAt(st, kind, k).value.origin.sequence
  {
    var a := Admit(s, st, env);
    var o := a.session.Origin(env.sequence);
    TurnStore(s, st, ix, env, now);
    hide Handle, Collects, Heard, StoreState.AfterSnapshot, StoreState.AfterLocal, StoreState.AfterPath;
    if a.store.Current(o) {
      CommitFallsIff(a.session, a.store, o, now, kind, k);
    } else {
      NotCurrentDoesNothing(a.session, a.store, o, now);
    }
    if Heard(ix, a.session.node, env).Some? {
      DeltaNeverLowers(a.store, o, Heard(ix, a.session.node, env).value, now, kind, k);
    }
  }

  lemma BoundAt(st: StoreState, instance: string, q: nat, kind: Kind, k: Key)
    requires SeqBound(st, instance, q) && EvidenceAt(st, kind, k).Some?
    requires EvidenceAt(st, kind, k).value.origin.agentInstance == instance
    ensures EvidenceAt(st, kind, k).value.origin.sequence <= q
  {
  }

  /** With envelopes delivered in the order of their numbers no stored number of the process ever falls. */
  lemma NumbersNeverFall(r: Run, n: nat, instance: string, kind: Kind, k: Key)
    requires IsRun(r) && n < |r.events| && InOrder(r, instance)
    requires EvidenceAt(r.states[n].store, kind, k).Some?
    requires EvidenceAt(r.states[n].store, kind, k).value.origin.agentInstance == instance
    ensures !Falls(r.states[n].store, r.states[n + 1].store, kind, k)
  {
    hide Next, Sound, Init, InOrder, SeqBound;
    var s, e, s' := r.states[n], r.events[n], r.states[n + 1];
    EntriesBounded(r, n, instance);
    LastSentGrows(r, n + 1, instance);
    BoundAt(s.store, instance, LastSent(r.events[..n], instance), kind, k);
    RunSound(r, n);
    StepOf(r, n);
    StepProvenance(s, e, s', kind, k);
  }
}
