/**
 When the agreement is whole. The registry knows what the agent observes and gives it to
 the agent's node alone, and nothing told is lost: then after every publish that gets
 through, snapshot or deltas, the controller's picture of the node is the sweep's. Of all
 that other processes can send, two things undo it, and exactly those two.
 */
module Settled {
  import opened Ordering
  import opened HealthModel
  import opened Messages
  import opened Store
  import opened RegistryIndex
  import opened Server
  import opened Sender
  import P = Protocol
  import opened Delivery
  import opened Encodings
  import opened Bystanders
  import opened Agreement

  // ---------------------------------------------------------------- what the registry has to give

  /** Everything told is the node's alone to speak of. */
  ghost predicate ToldAlone(who: Who, w: World) {
    forall s :: s in w.told ==> OnlyFrom(w.sys.registry.index, who.node, s.kind, s.key)
  }

  /** What other streams have buffered is theirs to say. */
  ghost predicate OthersAllowed(w: World) {
    forall i :: i in w.sys.sessions && Some(i) != w.own ==> BuffersAllowed(w.sys.sessions[i], w.sys.registry.index)
  }

  // ---------------------------------------------------------------- the two things others can do

  /** The event retires an attachment the agent remembers. */
  predicate TakesRemembered(w: World, e: P.Event) {
    && e.Deliver? && e.stream in w.sys.sessions
    && exists id :: id in w.prev && Retires(w.sys.sessions[e.stream], w.sys.store, e.env, id)
  }

  /** The event makes another process the authority for the agent's node. */
  predicate Usurps(who: Who, w: World, e: P.Event) {
    e.Deliver? && e.stream in w.sys.sessions && TakesOver(w.sys.sessions[e.stream], w.sys.store, e.env, who.node)
  }

  lemma HeldIsFor(st: StoreState, who: Who, s: Subject, word: Word)
    requires Holds(st, who, s, word)
    ensures HeldFor(st, who.node, s.kind, s.key) && P.EvidenceAt(st, s.kind, s.key).Some?
  {
  }

  lemma DeliveryLosesOnlyRetired(setup: Setup, w: World, e: P.Event, s: Subject)
    requires Good(setup, w) && Authoritative(setup.who, w) && ToldAlone(setup.who, w) && OthersAllowed(w)
    requires e.Deliver? && Around(setup.who, w, e) && !Usurps(setup.who, w, e) && s in w.told
    ensures Loses(w.sys, e, s) <==>
      s.kind == LocalKind && Retires(w.sys.sessions[e.stream], w.sys.store, e.env, s.key)
  {
    hide OthersBehave, OwnBehaves, SeqBound, PathsPending, InStep, Faithful, Holds, Touches, Retires, BuffersAllowed, OnlyFrom,
      RegistryState.Valid, TakesOver, P.SessionSound, P.EvidenceAt;
    HeldIsFor(w.sys.store, setup.who, s, w.told[s]);
    OnlyRetirementTouches(w.sys.sessions[e.stream], w.sys.store, w.sys.registry.index, e.env, setup.who, s.kind, s.key);
  }

  lemma ToldIsRemembered(w: World, s: Subject)
    requires Coherent(w.told, w.prev, w.verdicts) && s in w.told && s.kind == LocalKind
    ensures s.key in w.prev
  {
    assert CoherentAt(w.told, w.prev, w.verdicts, s);
  }

  /** Where nothing remembered is retired, an authoritative agent's words all survive a delivery. */
  lemma DeliveryKeepsTold(setup: Setup, w: World, e: P.Event)
    requires Good(setup, w) && InStep(setup.who, w) && ToldAlone(setup.who, w) && OthersAllowed(w)
    requires e.Deliver? && Around(setup.who, w, e) && !Usurps(setup.who, w, e) && !TakesRemembered(w, e)
    ensures Surviving(w, e) == w.told
  {
    hide Good, ToldAlone, OthersAllowed, Loses, Retires, Coherent, NothingElse, Whole, Agrees, Usurps;
    FaithfulAgrees(setup, w);
    forall s | s in w.told ensures !Loses(w.sys, e, s) {
      DeliveryLosesOnlyRetired(setup, w, e, s);
      if s.kind == LocalKind {
        ToldIsRemembered(w, s);
      }
    }
  }

  lemma RetiredIsGone(who: Who, w: World, e: P.Event, sys': P.System, id: Key)
    requires P.Sound(w.sys) && e.Deliver? && e.stream in w.sys.sessions && P.Next(w.sys, e, sys')
    requires Retires(w.sys.sessions[e.stream], w.sys.store, e.env, id)
    ensures id !in sys'.store.local
  {
    P.TurnStore(w.sys.sessions[e.stream], w.sys.store, w.sys.registry.index, e.env, w.sys.clock);
    hide Handle, Admit, RegistryState.Valid;
  }

  lemma GoneDisagrees(st: StoreState, node: string, prev: Memory, k: Key)
    requires k in prev && k !in st.local
    ensures !LocalsAgree(st, node, prev)
  {
    assert !LocalAgrees(st, node, prev, k);
  }

  lemma TakingDisagrees(setup: Setup, w: World, e: P.Event, sys': P.System)
    requires Good(setup, w) && P.Next(w.sys, e, sys') && TakesRemembered(w, e)
    ensures !Agrees(setup.who, w.(sys := sys'))
  {
    hide Good, P.Next, Retires, LocalsAgree, PathsAgree, P.Sound;
    GoodSystem(setup, w);
    var id :| id in w.prev && Retires(w.sys.sessions[e.stream], w.sys.store, e.env, id);
    RetiredIsGone(setup.who, w, e, sys', id);
    GoneDisagrees(sys'.store, setup.who.node, w.prev, id);
  }

  lemma DeliverIsNext(who: Who, w: World, i: nat, env: Envelope)
    requires Around(who, w, P.Deliver(i, env))
    ensures P.Next(w.sys, P.Deliver(i, env), P.Delivered(w.sys, i, env))
  {
    hide P.Delivered, OthersStream;
  }

  /** A delivery leaves the agent in step unless it has another process take the node over. */
  lemma DeliveryAuthority(setup: Setup, w: World, e: P.Event, sys': P.System)
    requires Good(setup, w) && e.Deliver? && Around(setup.who, w, e) && P.Next(w.sys, e, sys') && InStep(setup.who, w)
    ensures forall told :: InStep(setup.who, w.(sys := sys', told := told)) <==> !Usurps(setup.who, w, e)
  {
    hide Good, P.Sound, P.Next, OthersStream, StoreState.Current, TakesOver;
    GoodSystem(setup, w);
    AroundAuthority(setup.who, w, e, sys');
  }

  /**
   What an envelope of another process can do to an agreement that is whole, be it on any
   node: the agent stays in step and agreed with exactly unless the envelope retires an
   attachment it remembers, or is the one that takes its node over.
   */
  lemma OthersKeepAgreement(setup: Setup, w: World, i: nat, env: Envelope)
    requires Good(setup, w) && InStep(setup.who, w) && Whole(w.told, w.prev, w.verdicts)
    requires ToldAlone(setup.who, w) && OthersAllowed(w) && Around(setup.who, w, P.Deliver(i, env))
    ensures Agrees(setup.who, w)
    ensures
      var e, w' := P.Deliver(i, env), w.(sys := P.Delivered(w.sys, i, env));
      InStep(setup.who, w') && Agrees(setup.who, w') <==> !TakesRemembered(w, e) && !Usurps(setup.who, w, e)
  {
    var e, sys' := P.Deliver(i, env), P.Delivered(w.sys, i, env);
    hide Good, ToldAlone, OthersAllowed, P.Delivered, Whole, Agrees, Retires, P.Sound, Usurps, TakesRemembered, Around, OthersStream,
      InStep;
    DeliverIsNext(setup.who, w, i, env);
    hide P.Next;
    FaithfulAgrees(setup, w);
    DeliveryAuthority(setup, w, e, sys');
    if TakesRemembered(w, e) {
      TakingDisagrees(setup, w, e, sys');
    } else if !Usurps(setup.who, w, e) {
      DeliveryKeepsTold(setup, w, e);
      AroundKeeps(setup, w, e, sys');
      FaithfulAgrees(setup, w.(sys := sys', told := Surviving(w, e)));
    }
  }

  // ---------------------------------------------------------------- calm histories

  /**
   The step leaves a whole agreement whole: each sweep is of things the registry knows;
   no other process takes the node over or retires what is remembered; no prune reaches
   what was told; and registering or withdrawing a Service leaves what was told, and what
   other streams have buffered, where it was.
   */
  ghost predicate Calm(setup: Setup, w: World, e: Event, w': World) {
    match e
    case SweepAndPublish(f) => Matches(w.sys.registry.index, setup.who.node, f.snap)
    case Elsewhere(x) =>
      && !Usurps(setup.who, w, x)
      && (InStep(setup.who, w) ==> !TakesRemembered(w, x))
      && (InStep(setup.who, w) && x.Prune? ==> forall s :: s in w.told ==> !Outlived(w.sys.store, s, w.sys.clock))
      && (x.SetService? || x.RemoveService? ==> ToldAlone(setup.who, w') && OthersAllowed(w'))
    case _ => true
  }

  ghost predicate CalmAt(setup: Setup, r: History, i: int)
    requires |r.worlds| == |r.events| + 1 && 0 <= i < |r.events|
  {
    Calm(setup, r.worlds[i], r.events[i], r.worlds[i + 1])
  }

  ghost predicate IsCalm(setup: Setup, r: History, n: nat) {
    && |r.worlds| == |r.events| + 1 && n <= |r.events|
    && OthersAllowed(r.worlds[0])
    && forall i :: 0 <= i < n ==> CalmAt(setup, r, i)
  }

  ghost predicate Accord(who: Who, w: World) {
    && ToldAlone(who, w) && OthersAllowed(w)
    && !Usurped(who, w)
    && (InStep(who, w) ==> Whole(w.told, w.prev, w.verdicts))
  }

  lemma MatchedIsAlone(ix: Index, node: string, snap: Snapshot, s: Subject)
    requires Matches(ix, node, snap) && Saying(snap, s).Some?
    ensures OnlyFrom(ix, node, s.kind, s.key)
  {
    hide AllowsPath;
    match s.kind {
      case LocalKind =>
        var i := LastForMeaning(snap.locals, LocalKey, s.key);
        assert snap.locals[i] in snap.locals;
      case PathKind =>
        var j := LastForMeaning(snap.paths, PathReportKey, s.key);
        assert snap.paths[j] in snap.paths;
    }
  }

  lemma PublishKeepsAlone(who: Who, w: World, f: Findings, s: Subject)
    requires Matches(w.sys.registry.index, who.node, f.snap) && ToldAlone(who, w) && s in ToldAfter(who, w, f)
    ensures OnlyFrom(w.sys.registry.index, who.node, s.kind, s.key)
  {
    hide Saying, Heeded, ToldByFull, ToldByDeltas, Lands, OnlyFrom, Matches, SinkState.Full;
    ToldByFullAt(w.sys.registry.index, who.node, f.snap, w.sys.clock, s);
    ToldByDeltasAt(w.told, w.sys.registry.index, who.node, f.snap, w.sys.clock, s);
    if Saying(f.snap, s).Some? {
      MatchedIsAlone(w.sys.registry.index, who.node, f.snap, s);
    }
  }

  lemma OthersAllowedPart(w: World, w': World)
    requires OthersAllowed(w) && w'.sys.registry == w.sys.registry
    requires forall i :: i in w'.sys.sessions && Some(i) != w'.own ==>
      i in w.sys.sessions && Some(i) != w.own && w'.sys.sessions[i] == w.sys.sessions[i]
    ensures OthersAllowed(w')
  {
    hide BuffersAllowed;
  }

  lemma PublishKeepsAccord(setup: Setup, w: World, f: Findings)
    requires Good(setup, w) && Accord(setup.who, w) && Sweeps(setup.mode, w, f)
    requires Matches(w.sys.registry.index, setup.who.node, f.snap)
    ensures Accord(setup.who, Swept(setup, w, f))
  {
    hide Good, Sweeps, Matches, Swept, Arrived, ToldAfter, OnlyFrom, OthersAllowed, Whole, Retained, Reported, ProbesAfter,
      SinkState.AfterPublish, SinkState.Succeeds, StoreState.Current, SinkState.Full;
    var who, w' := setup.who, Swept(setup, w, f);
    GoodParts(setup, w);
    SweptParts(setup, w, f);
    AfterPublishKeeps(w.sink, f);
    PublishKeeps(setup, w, f);
    forall s | s in w'.told ensures OnlyFrom(w'.sys.registry.index, who.node, s.kind, s.key) {
      PublishKeepsAlone(who, w, f, s);
    }
    OthersAllowedPart(w, w');
    if Lands(who, w, f) {
      if !w.sink.Full(f.at) {
        OwedIsFull(setup, w, f);
      }
      LandedWhole(setup, w, f);
    }
  }

  lemma AroundKeepsAllowed(who: Who, w: World, e: P.Event, sys': P.System)
    requires P.Sound(w.sys) && OthersBehave(who, w) && OthersAllowed(w) && Around(who, w, e) && P.Next(w.sys, e, sys')
    requires !e.SetService? && !e.RemoveService?
    ensures OthersAllowed(w.(sys := sys', told := Surviving(w, e))) && sys'.registry == w.sys.registry
  {
    hide BuffersOnNode, BuffersAllowed, RegistryState.Valid, Handle, StoreState.AfterSweep, StoreState.AfterPrune, NewSession,
      P.SessionSound, Surviving;
    match e {
      case Open(auth) => NewSessionIsClean(auth);
      case Deliver(i, env) =>
        TurnKeepsBuffers(w.sys.sessions[i], w.sys.store, w.sys.registry.index, env, w.sys.clock);
      case _ =>
    }
  }

  lemma CalmKeepsTold(setup: Setup, w: World, e: P.Event, w': World)
    requires Good(setup, w) && InStep(setup.who, w) && ToldAlone(setup.who, w) && OthersAllowed(w)
    requires Around(setup.who, w, e) && Calm(setup, w, Elsewhere(e), w')
    ensures Surviving(w, e) == w.told
  {
    hide Good, InStep, ToldAlone, OthersAllowed, Around, Touches, Outlived, TakesRemembered, Usurps;
    if e.Deliver? {
      DeliveryKeepsTold(setup, w, e);
    }
  }

  lemma SurvivingWasTold(w: World, e: P.Event)
    ensures forall s :: s in Surviving(w, e) ==> s in w.told
  {
    hide Loses;
  }

  lemma SurvivingPart(who: Who, w: World, w': World)
    requires ToldAlone(who, w) && w'.sys.registry == w.sys.registry && forall s :: s in w'.told ==> s in w.told
    ensures ToldAlone(who, w')
  {
    hide OnlyFrom;
  }

  lemma GoodOthers(setup: Setup, w: World)
    requires Good(setup, w)
    ensures OthersBehave(setup.who, w) && (w.own.Some? ==> w.own.value in w.sys.sessions)
  {
  }

  lemma AroundKeepsAccord(setup: Setup, w: World, e: P.Event, w': World)
    requires Good(setup, w) && Accord(setup.who, w) && Step(setup, w, Elsewhere(e), w') && Calm(setup, w, Elsewhere(e), w')
    ensures Accord(setup.who, w')
  {
    hide Good, OthersStream, P.Next, OthersBehave, ToldAlone, OthersAllowed, Whole, Loses, StoreState.Current, TakesRemembered,
      TakesOver, Outlived, P.Sound, Surviving;
    GoodSystem(setup, w);
    AroundAuthority(setup.who, w, e, w'.sys);
    GoodOthers(setup, w);
    AroundKeepsOthers(setup.who, w, e, w'.sys);
    SurvivingWasTold(w, e);
    if !e.SetService? && !e.RemoveService? {
      AroundKeepsAllowed(setup.who, w, e, w'.sys);
      SurvivingPart(setup.who, w, w');
    }
    if InStep(setup.who, w) {
      CalmKeepsTold(setup, w, e, w');
    }
  }

  /** Connecting, disconnecting, restarts, resyncs and probes leave an accord as it was, or owe a snapshot. */
  lemma OwnKeepsAccord(setup: Setup, w: World, e: Event, w': World)
    requires Good(setup, w) && Accord(setup.who, w) && Step(setup, w, e, w') && !e.SweepAndPublish? && !e.Elsewhere?
    ensures Accord(setup.who, w')
  {
    hide OnlyFrom, BuffersAllowed, Whole, Coherent, NothingElse, SeqBound, PathsPending, ToldStands, P.SessionSound,
      RegistryState.Valid, BuffersOnNode, EmptyStore, OwnSession, StoreState.Current;
    match e {
      case Connect(auth) => NewSessionIsClean(auth);
      case _ =>
    }
  }

  lemma StepKeepsAccord(setup: Setup, w: World, e: Event, w': World)
    requires Good(setup, w) && Accord(setup.who, w) && Step(setup, w, e, w') && Calm(setup, w, e, w')
    ensures Accord(setup.who, w')
  {
    hide Good, Accord, Sweeps, Swept, Matches, Around, P.Next, Surviving, Connected, Broken, Restarted;
    match e {
      case SweepAndPublish(f) => PublishKeepsAccord(setup, w, f);
      case Elsewhere(x) => AroundKeepsAccord(setup, w, x, w');
      case _ => OwnKeepsAccord(setup, w, e, w');
    }
  }

  lemma {:induction false} CalmIsAccord(setup: Setup, r: History, n: nat)
    requires IsHistory(setup, r) && IsCalm(setup, r, n)
    ensures Accord(setup.who, r.worlds[n])
  {
    if n > 0 {
      hide Good, Accord, Step, Start, Calm;
      CalmIsAccord(setup, r, n - 1);
      RunGood(setup, r, n - 1);
      assert StepAt(setup, r, n - 1) && CalmAt(setup, r, n - 1);
      StepKeepsAccord(setup, r.worlds[n - 1], r.events[n - 1], r.worlds[n]);
    } else {
      hide Step;
    }
  }

  lemma OwnIsInStep(setup: Setup, w: World)
    requires Good(setup, w) && !Usurped(setup.who, w) && w.own.Some? && !w.sink.needSnapshot
    ensures InStep(setup.who, w)
  {
  }

  /** Through a calm history, whenever the agent's stream owes no snapshot, it has told everything and the two agree in full. */
  lemma CalmAgrees(setup: Setup, r: History, n: nat)
    requires IsHistory(setup, r) && IsCalm(setup, r, n)
    requires r.worlds[n].own.Some? && !r.worlds[n].sink.needSnapshot
    ensures InStep(setup.who, r.worlds[n]) && Agrees(setup.who, r.worlds[n])
  {
    RunGood(setup, r, n);
    CalmIsAccord(setup, r, n);
    OwnIsInStep(setup, r.worlds[n]);
    hide IsHistory, IsCalm, Good, Agrees, Whole, ToldAlone, OthersAllowed;
    FaithfulAgrees(setup, r.worlds[n]);
  }

  /**
   Through a calm history, right after a publish whose sends all went out, the store's
   local ids for the node are exactly the sweep's, each as ready as it was last observed,
   and every path state of the sweep is the store's: snapshot or deltas alike.
   */
  lemma CalmMirrors(setup: Setup, r: History, n: nat)
    requires IsHistory(setup, r) && IsCalm(setup, r, n) && n < |r.events| && r.events[n].SweepAndPublish?
    requires Matches(r.worlds[n].sys.registry.index, setup.who.node, r.events[n].f.snap)
    requires r.worlds[n].own.Some?
    requires var f := r.events[n].f; r.worlds[n].sink.Succeeds(f.snap, f.at, f.room)
    ensures Mirrors(r.worlds[n + 1].sys.store, setup.who.node, r.events[n].f.snap)
  {
    hide Start, Good, Step, SinkState.Succeeds, Mirrors, Matches, Speaks, Heeded, Saying, SinkState.Full, ToldAlone, OthersAllowed,
      Whole, CalmAt;
    RunGood(setup, r, n);
    CalmIsAccord(setup, r, n);
    var w, f := r.worlds[n], r.events[n].f;
    if !w.sink.Full(f.at) {
      OwedIsFull(setup, w, f);
    }
    ControllerAgrees(setup, r, n);
  }
}
