/**
 Snapshot brackets on one stream, whatever the rest of the system does meanwhile.

 Each input pairs an envelope with the store, the registry index and the clock the
 stream finds when it gets to it; these are unconstrained, so the results hold under
 every interleaving with other streams, registry changes, sweeps and prunes.
 */
module Bracket {
  import opened Ordering
  import opened HealthModel
  import opened Messages
  import opened Store
  import opened RegistryIndex
  import opened Server

  datatype Input = Input(env: Envelope, store: StoreState, index: Index, now: int)

  function Turn(s: Session, i: Input): Outcome {
    Handle(s, i.store, i.index, i.env, i.now)
  }

  /** The stream's variables after a run of envelopes; a closed stream stays closed. */
  function After(auth: Option<string>, ins: seq<Input>): Session {
    if ins == [] then NewSession(auth)
    else
      var s := After(auth, ins[..|ins| - 1]);
      if s.open then Turn(s, ins[|ins| - 1]).session else s
  }

  /** The first envelope settles which instance and node the stream speaks for. */
  function InstanceOf(ins: seq<Input>): string
    requires ins != []
  {
    ins[0].env.agentInstanceId
  }

  function NodeOf(auth: Option<string>, ins: seq<Input>): string
    requires ins != []
  {
    auth.GetOr(ins[0].env.nodeName)
  }

  predicate Speaks(e: Envelope, instance: string) {
    e.agentInstanceId == instance
  }

  predicate IsBegin(e: Envelope, instance: string) {
    Speaks(e, instance) && e.payload.SnapshotBegin?
  }

  predicate IsBoundary(e: Envelope, instance: string) {
    Speaks(e, instance) && (e.payload.SnapshotBegin? || e.payload.SnapshotEnd?)
  }

  /** Input b opened a bracket that is still open after all of ins. */
  predicate OpensBracket(ins: seq<Input>, instance: string, b: int) {
    && 0 <= b < |ins|
    && IsBegin(ins[b].env, instance)
    && forall j :: b < j < |ins| ==> !IsBoundary(ins[j].env, instance)
  }

  /** The registry-accepted local reports since input b, in order. */
  function LocalsSince(ins: seq<Input>, instance: string, node: string, b: int): seq<LocalHealth> {
    if |ins| <= b + 1 || ins == [] then []
    else
      var i := ins[|ins| - 1];
      var rest := LocalsSince(ins[..|ins| - 1], instance, node, b);
      if Speaks(i.env, instance) && i.env.payload.Local? && LocalFrom(i.index, node, i.env.payload.local).Some? then
        rest + [LocalFrom(i.index, node, i.env.payload.local).value]
      else rest
  }

  function PathsSince(ins: seq<Input>, instance: string, node: string, b: int): seq<PathHealth> {
    if |ins| <= b + 1 || ins == [] then []
    else
      var i := ins[|ins| - 1];
      var rest := PathsSince(ins[..|ins| - 1], instance, node, b);
      if Speaks(i.env, instance) && i.env.payload.Path? && PathFrom(i.index, node, i.env.payload.path).Some? then
        rest + [PathFrom(i.index, node, i.env.payload.path).value]
      else rest
  }

  lemma OnlyOneOpen(ins: seq<Input>, instance: string, b: int, c: int)
    requires OpensBracket(ins, instance, b) && OpensBracket(ins, instance, c)
    ensures b == c
  {
  }

  lemma OpensBracketSteps(ins: seq<Input>, instance: string, b: int)
    requires ins != []
    ensures OpensBracket(ins, instance, b) <==>
      if IsBoundary(ins[|ins| - 1].env, instance)
      then b == |ins| - 1 && IsBegin(ins[b].env, instance)
      else OpensBracket(ins[..|ins| - 1], instance, b)
  {
    var n := |ins| - 1;
    var init := ins[..n];
    if OpensBracket(init, instance, b) && !IsBoundary(ins[n].env, instance) {
      forall j | b < j < |ins| ensures !IsBoundary(ins[j].env, instance) {
        if j < n {
          assert ins[j] == init[j];
        }
      }
    }
    if OpensBracket(ins, instance, b) && b < n {
      forall j | b < j < n ensures !IsBoundary(init[j].env, instance) {
        assert ins[j] == init[j];
      }
    }
  }

  /** The bracket variables of a stream that speaks for (inst, node), before and after an envelope of its own. */
  ghost predicate BracketStep(s: Session, i: Input, inst: string, node: string, s': Session) {
    if IsBegin(i.env, inst) then
      s'.inSnapshot && s'.epoch == i.env.payload.beginEpoch && s'.bufLocal == [] && s'.bufPath == []
    else if IsBoundary(i.env, inst) then !s'.inSnapshot
    else
      && s'.inSnapshot == s.inSnapshot && s'.epoch == s.epoch
      && (s.inSnapshot ==>
            && s'.bufLocal == s.bufLocal +
                 (if Speaks(i.env, inst) && i.env.payload.Local? && LocalFrom(i.index, node, i.env.payload.local).Some?
                  then [LocalFrom(i.index, node, i.env.payload.local).value] else [])
            && s'.bufPath == s.bufPath +
                 (if Speaks(i.env, inst) && i.env.payload.Path? && PathFrom(i.index, node, i.env.payload.path).Some?
                  then [PathFrom(i.index, node, i.env.payload.path).value] else []))
  }

  lemma DispatchMeaning(a: Session, st: StoreState, i: Input, inst: string, node: string)
    requires Dispatch(a, st, i.index, i.env, i.now).session.open
    requires a.adopted && a.instance == inst && a.node == node && Speaks(i.env, inst)
    ensures
      var s' := Dispatch(a, st, i.index, i.env, i.now).session;
      && s'.adopted && s'.instance == inst && s'.node == node && s'.auth == a.auth
      && BracketStep(a, i, inst, node, s')
  {
    hide LocalFrom, PathFrom, LocalOwners, PathOwners, OwnersOfLocals, OwnersOfPaths, StoreState.AfterSnapshot,
      StoreState.AfterLocal, StoreState.AfterPath, StoreState.AfterForget, StoreState.LocalResult, StoreState.PathResult,
      StoreState.Current;
  }

  /** What one turn does to the bracket variables of a stream that stays open. */
  lemma TurnMeaning(s: Session, i: Input, inst: string, node: string)
    requires Turn(s, i).session.open
    requires s.adopted ==> s.instance == inst && s.node == node
    requires !s.adopted ==> i.env.agentInstanceId == inst && node == if s.auth.Some? then s.node else i.env.nodeName
    ensures
      var s' := Turn(s, i).session;
      && s'.adopted && s'.instance == inst && s'.node == node && s'.auth == s.auth
      && BracketStep(s, i, inst, node, s')
  {
    hide Dispatch, LocalFrom, PathFrom, StoreState.Adopt;
    var a := Admit(s, i.store, i.env);
    if i.env.agentInstanceId == a.session.instance && a.session.open {
      DispatchMeaning(a.session.(lastSeq := i.env.sequence, since := a.session.since + 1), a.store, i, inst, node);
    }
  }

  /**
   What the stream's variables mean after any run: it is inside a snapshot exactly
   when a bracket is open, and then its epoch and buffers are those of that bracket
   alone. Nothing from an abandoned or mismatched bracket is in them.
   */
  lemma {:induction false} SessionMeaning(auth: Option<string>, ins: seq<Input>)
    requires ins != [] && After(auth, ins).open
    ensures
      var s, inst, node := After(auth, ins), InstanceOf(ins), NodeOf(auth, ins);
      && s.adopted && s.instance == inst && s.node == node && s.auth == auth
      && (s.inSnapshot <==> exists b :: OpensBracket(ins, inst, b))
      && (forall b :: OpensBracket(ins, inst, b) ==>
            && ins[b].env.payload.SnapshotBegin?
            && s.epoch == ins[b].env.payload.beginEpoch
            && s.bufLocal == LocalsSince(ins, inst, node, b)
            && s.bufPath == PathsSince(ins, inst, node, b))
  {
    var n, inst, node := |ins| - 1, InstanceOf(ins), NodeOf(auth, ins);
    var init, i := ins[..n], ins[n];
    var before, s := After(auth, init), After(auth, ins);
    assert before.open;
    if n > 0 {
      SessionMeaning(auth, init);
    } else {
      assert init == [];
    }
    forall b ensures OpensBracket(ins, inst, b) <==>
      if IsBoundary(i.env, inst) then b == n && IsBegin(i.env, inst) else OpensBracket(init, inst, b)
    {
      OpensBracketSteps(ins, inst, b);
    }
    TurnMeaning(before, i, inst, node);
    if IsBegin(i.env, inst) {
      assert OpensBracket(ins, inst, n);
    } else if !IsBoundary(i.env, inst) && before.inSnapshot {
      var b :| OpensBracket(init, inst, b);
      assert OpensBracket(ins, inst, b);
    }
  }

  /**
   A SnapshotEnd replaces the node's evidence exactly when it closes, under its own
   epoch, the bracket open on the stream and the instance is still authoritative; it
   then commits exactly the reports accepted inside that bracket. Otherwise the
   store is left as it was.
   */
  lemma CommitIsExact(auth: Option<string>, ins: seq<Input>, i: Input)
    requires ins != [] && After(auth, ins).open
    requires Speaks(i.env, InstanceOf(ins)) && i.env.payload.SnapshotEnd?
    ensures
      var inst, node := InstanceOf(ins), NodeOf(auth, ins);
      var o := ReportOrigin(node, inst, i.env.sequence);
      && (forall b :: OpensBracket(ins, inst, b) && ins[b].env.payload.beginEpoch == i.env.payload.endEpoch
                      && i.store.Current(o) ==>
            Turn(After(auth, ins), i).store
              == i.store.AfterSnapshot(o, LocalsSince(ins, inst, node, b), PathsSince(ins, inst, node, b), i.now))
      && (!(exists b :: OpensBracket(ins, inst, b) && ins[b].env.payload.beginEpoch == i.env.payload.endEpoch)
          || !i.store.Current(o) ==>
            Turn(After(auth, ins), i).store == i.store)
  {
    SessionMeaning(auth, ins);
    var s, inst := After(auth, ins), InstanceOf(ins);
    if s.inSnapshot {
      var b :| OpensBracket(ins, inst, b);
      forall c | OpensBracket(ins, inst, c) ensures c == b {
        OnlyOneOpen(ins, inst, b, c);
      }
    }
  }

  /** Until its end a bracket leaves no mark: Begin, and Local and Path inside it, never touch the store. */
  lemma BracketIsInvisible(auth: Option<string>, ins: seq<Input>, i: Input)
    requires ins != [] && After(auth, ins).open
    requires i.env.payload.SnapshotBegin?
          || ((exists b :: OpensBracket(ins, InstanceOf(ins), b)) && (i.env.payload.Local? || i.env.payload.Path?))
    ensures Turn(After(auth, ins), i).store == i.store
    ensures Turn(After(auth, ins), i).notified == {}
  {
    SessionMeaning(auth, ins);
    hide LocalFrom, PathFrom;
  }

  /** Everything collected carries the stream's node, never one the agent claims. */
  lemma {:induction false} CollectedOnNode(ins: seq<Input>, instance: string, node: string, b: int)
    ensures forall r :: r in LocalsSince(ins, instance, node, b) ==> r.nodeName == node
    ensures forall r :: r in PathsSince(ins, instance, node, b) ==> r.nodeName == node
  {
    if |ins| > b + 1 && ins != [] {
      CollectedOnNode(ins[..|ins| - 1], instance, node, b);
    }
  }

  /**
   What a commit means for every key: the node's entries become the last report per
   key, all with one origin and one acceptance time; another node's entry survives
   untouched unless the snapshot itself names its key.
   */
  lemma SnapshotReplacesNode(st: StoreState, o: ReportOrigin, locals: seq<LocalHealth>, paths: seq<PathHealth>, now: int, k: Key)
    requires st.Current(o)
    ensures
      var st' := st.AfterSnapshot(o, locals, paths, now);
      var l, p := LastFor(locals, LocalKey, k), LastFor(paths, PathReportKey, k);
      && (l.Some? ==> k in st'.local && st'.local[k] == Entry(l.value, o, now, false))
      && (l.None? ==> (k in st'.local <==> k in st.local && st.local[k].report.nodeName != o.nodeName))
      && (l.None? && k in st'.local ==> st'.local[k] == st.local[k])
      && (p.Some? ==> k in st'.path && st'.path[k] == Entry(p.value, o, now, false))
      && (p.None? ==> (k in st'.path <==> k in st.path && st.path[k].report.nodeName != o.nodeName))
      && (p.None? && k in st'.path ==> st'.path[k] == st.path[k])
      && st'.nodeInstance == st.nodeInstance && st'.ttl == st.ttl
  {
    PutAllAt(DropNode(st.local, LocalNode, o.nodeName), LocalKey, locals, o, now, k);
    PutAllAt(DropNode(st.path, PathNode, o.nodeName), PathReportKey, paths, o, now, k);
  }

  // ---------------------------------------------------------------- truncated snapshots

  /** The bracket opened by input b took in fewer reports than its Begin announced. */
  predicate Short(ins: seq<Input>, instance: string, node: string, b: int)
    requires OpensBracket(ins, instance, b)
  {
    || |LocalsSince(ins, instance, node, b)| < ins[b].env.payload.expectedLocal
    || |PathsSince(ins, instance, node, b)| < ins[b].env.payload.expectedPath
  }

  /** The controller confirms the SnapshotEnd: it acknowledges its number and asks for no resync. */
  predicate Confirms(out: Outcome, sequence: nat) {
    Ack(sequence, false, NoReason) in out.acks
  }

  /** A SnapshotEnd is confirmed exactly when epoch and instance match; the announced counts play no part. */
  lemma ConfirmedIff(auth: Option<string>, ins: seq<Input>, i: Input)
    requires ins != [] && After(auth, ins).open
    requires Speaks(i.env, InstanceOf(ins)) && i.env.payload.SnapshotEnd?
    ensures
      var inst, o := InstanceOf(ins), ReportOrigin(NodeOf(auth, ins), InstanceOf(ins), i.env.sequence);
      Confirms(Turn(After(auth, ins), i), i.env.sequence) <==>
        exists b :: OpensBracket(ins, inst, b) && ins[b].env.payload.beginEpoch == i.env.payload.endEpoch && i.store.Current(o)
  {
    SessionMeaning(auth, ins);
    hide OpensBracket, LocalsSince, PathsSince, OwnersOfLocals, OwnersOfPaths, StoreState.AfterSnapshot;
  }

  /**
   Whether a truncated snapshot is noticed. One goes through, confirmed and committed
   as it stands, exactly when the open bracket is short and its End is otherwise good.
   */
  lemma TruncationUnnoticedIff(auth: Option<string>, ins: seq<Input>, i: Input, b: int)
    requires ins != [] && After(auth, ins).open
    requires Speaks(i.env, InstanceOf(ins)) && i.env.payload.SnapshotEnd?
    requires OpensBracket(ins, InstanceOf(ins), b)
    ensures
      var inst, node := InstanceOf(ins), NodeOf(auth, ins);
      var o, out := ReportOrigin(node, inst, i.env.sequence), Turn(After(auth, ins), i);
      (Short(ins, inst, node, b) && Confirms(out, i.env.sequence)
         && out.store == i.store.AfterSnapshot(o, LocalsSince(ins, inst, node, b), PathsSince(ins, inst, node, b), i.now))
      <==>
      (Short(ins, inst, node, b) && ins[b].env.payload.beginEpoch == i.env.payload.endEpoch && i.store.Current(o))
  {
    ConfirmedIff(auth, ins, i);
    CommitIsExact(auth, ins, i);
    forall c | OpensBracket(ins, InstanceOf(ins), c) ensures c == b {
      OnlyOneOpen(ins, InstanceOf(ins), b, c);
    }
    hide OpensBracket, LocalsSince, PathsSince, StoreState.AfterSnapshot, Turn, After;
  }

  // ---------------------------------------------------------------- acknowledgements owed

  /** Envelope j is the stream's, and its report was put into the bracket or refused as old. */
  predicate HeldBackAt(auth: Option<string>, ins: seq<Input>, j: int)
    requires 0 <= j < |ins|
  {
    Speaks(ins[j].env, InstanceOf(ins)) && HeldBack(After(auth, ins[..j]), ins[j].store, ins[j].index, ins[j].env)
  }

  /** What one turn does to the count of envelopes since the last acknowledgement. */
  lemma TurnCounts(s: Session, i: Input)
    requires s.open && s.adopted && Turn(s, i).session.open
    ensures var n := Turn(s, i).session.since;
      if Speaks(i.env, s.instance) then n == s.since + 1 || n == 0 else n == s.since
    ensures Turn(s, i).session.since >= 32 && Speaks(i.env, s.instance) ==> HeldBack(s, i.store, i.index, i.env)
  {
    hide Dispatch, HeldBack, TakenQuietly;
    if Speaks(i.env, s.instance) {
      AcksAreDue(s, i.store, i.index, i.env, i.now);
    }
  }

  lemma FirstTurnCounts(auth: Option<string>, i: Input)
    requires Turn(NewSession(auth), i).session.open
    ensures Turn(NewSession(auth), i).session.since <= 1
  {
    hide LocalFrom, PathFrom, LocalOwners, PathOwners, OwnersOfLocals, OwnersOfPaths, StoreState.AfterSnapshot;
  }

  /** Of an open stream, its last turn and the process it speaks for. */
  lemma LastTurn(auth: Option<string>, ins: seq<Input>)
    requires ins != [] && After(auth, ins).open
    ensures After(auth, ins[..|ins| - 1]).open
    ensures After(auth, ins) == Turn(After(auth, ins[..|ins| - 1]), ins[|ins| - 1]).session
    ensures |ins| > 1 ==>
      After(auth, ins[..|ins| - 1]).adopted && After(auth, ins[..|ins| - 1]).instance == InstanceOf(ins)
    ensures |ins| == 1 ==> After(auth, ins[..|ins| - 1]) == NewSession(auth)
  {
    hide Turn, OpensBracket, LocalsSince, PathsSince;
    if |ins| > 1 {
      SessionMeaning(auth, ins[..|ins| - 1]);
    }
  }

  /** The last of the stream's own envelopes left since at 32 or more. */
  lemma LastTurnOverdue(auth: Option<string>, ins: seq<Input>)
    requires ins != [] && After(auth, ins).open && After(auth, ins).since >= 32
    ensures |ins| > 1 && After(auth, ins[..|ins| - 1]).open
    ensures
      if Speaks(ins[|ins| - 1].env, InstanceOf(ins)) then
        HeldBackAt(auth, ins, |ins| - 1) && After(auth, ins[..|ins| - 1]).since == After(auth, ins).since - 1
      else After(auth, ins[..|ins| - 1]).since == After(auth, ins).since
  {
    hide Turn, HeldBack, After, NewSession;
    LastTurn(auth, ins);
    if |ins| == 1 {
      FirstTurnCounts(auth, ins[0]);
    } else {
      TurnCounts(After(auth, ins[..|ins| - 1]), ins[|ins| - 1]);
    }
  }

  lemma HeldBackEarlier(auth: Option<string>, ins: seq<Input>, n: int, j: int)
    requires 0 <= j < n <= |ins|
    ensures HeldBackAt(auth, ins[..n], j) <==> HeldBackAt(auth, ins, j)
  {
    hide After, HeldBack;
    assert ins[..n][..j] == ins[..j];
  }

  /**
   An acknowledgement is overdue, 32 envelopes or more after the last, only while reports
   are being held back: the stream's latest envelope was, with one fewer gone by before
   it, and so on down to 32.
   */
  lemma {:induction false} OverdueMeaning(auth: Option<string>, ins: seq<Input>) returns (j: int)
    requires ins != [] && After(auth, ins).open && After(auth, ins).since >= 32
    ensures 0 < j < |ins| && HeldBackAt(auth, ins, j)
    ensures After(auth, ins[..j]).since == After(auth, ins).since - 1
    ensures forall k :: j < k < |ins| ==> !Speaks(ins[k].env, InstanceOf(ins))
  {
    hide HeldBackAt, After, Speaks;
    j := |ins| - 1;
    LastTurnOverdue(auth, ins);
    if !Speaks(ins[j].env, InstanceOf(ins)) {
      var n, init := j, ins[..j];
      j := OverdueMeaning(auth, init);
      HeldBackEarlier(auth, ins, n, j);
      assert init[..j] == ins[..j];
      forall k | j < k < |ins| ensures !Speaks(ins[k].env, InstanceOf(ins)) {
        assert k < n ==> ins[k] == init[k];
      }
    }
  }

  // ---------------------------------------------------------------- acknowledged numbers

  /** The greatest number the stream has processed for its instance. */
  function Highest(ins: seq<Input>, instance: string): nat {
    if ins == [] then 0
    else
      var i, h := ins[|ins| - 1], Highest(ins[..|ins| - 1], instance);
      if Speaks(i.env, instance) && h < i.env.sequence then i.env.sequence else h
  }

  lemma {:induction false} HighestBounds(ins: seq<Input>, instance: string, q: nat)
    ensures Highest(ins, instance) <= q <==>
      forall j :: 0 <= j < |ins| && Speaks(ins[j].env, instance) ==> ins[j].env.sequence <= q
  {
    if ins != [] {
      var init := ins[..|ins| - 1];
      HighestBounds(init, instance, q);
      assert forall j :: 0 <= j < |init| ==> init[j] == ins[j];
    }
  }

  lemma TurnAcks(s: Session, i: Input)
    ensures forall a :: a in Turn(s, i).acks ==>
      if a.reason == NewStream then !s.adopted && a == Ack(s.lastSeq, true, NewStream)
      else a.acceptedSequence == i.env.sequence && i.env.agentInstanceId == Admit(s, i.store, i.env).session.instance
  {
    hide LocalFrom, PathFrom, LocalOwners, PathOwners, OwnersOfLocals, OwnersOfPaths, StoreState.AfterSnapshot;
  }

  /** The first envelope of a stream that is adopted draws Ack(0), which is no number it has processed, unless it is 0. */
  lemma AdmissionAcknowledgesNothing(auth: Option<string>, i: Input)
    requires Admit(NewSession(auth), i.store, i.env).session.adopted
    ensures
      var acks := Turn(NewSession(auth), i).acks;
      && acks != [] && acks[0] == Ack(0, true, NewStream)
      && (acks[0].acceptedSequence == Highest([i], i.env.agentInstanceId) <==> i.env.sequence == 0)
  {
    assert [i][..0] == [];
    hide LocalFrom, PathFrom, LocalOwners, PathOwners, OwnersOfLocals, OwnersOfPaths, StoreState.AfterSnapshot;
  }

  /** Two envelopes out of order make an acknowledgement fall below a number already processed. */
  lemma AckBelowHighest(st: StoreState, ix: Index, now: int)
    ensures
      var ins := [Input(Envelope("node", "agent", 5, Empty), st, ix, now)];
      var i := Input(Envelope("node", "agent", 3, SnapshotEnd(1)), st, ix, now);
      && After(None, ins).open
      && Turn(After(None, ins), i).acks == [Ack(3, true, SnapshotMismatch)]
      && Highest(ins + [i], "agent") == 5
  {
    var ins := [Input(Envelope("node", "agent", 5, Empty), st, ix, now)];
    var i := Input(Envelope("node", "agent", 3, SnapshotEnd(1)), st, ix, now);
    assert ins[..0] == [] && (ins + [i])[..1] == ins;
    assert After(None, ins) == Turn(NewSession(None), ins[0]).session;
    assert Highest(ins, "agent") == 5;
  }

  /**
   What an acknowledgement says about the numbers processed. The one sent on admission
   is always 0. Any other repeats the number of the envelope that drew it, which is the
   highest processed exactly when no earlier envelope of the instance carried a higher.
   */
  lemma AckIsHighestIff(auth: Option<string>, ins: seq<Input>, i: Input, a: Ack)
    requires After(auth, ins).open && a in Turn(After(auth, ins), i).acks
    ensures a.reason == NewStream ==> ins == [] && a == Ack(0, true, NewStream)
    ensures a.reason != NewStream ==>
      var all := ins + [i];
      && Speaks(i.env, InstanceOf(all)) && a.acceptedSequence == i.env.sequence
      && (a.acceptedSequence == Highest(all, InstanceOf(all)) <==>
            forall j :: 0 <= j < |ins| && Speaks(ins[j].env, InstanceOf(all)) ==> ins[j].env.sequence <= i.env.sequence)
  {
    if ins != [] {
      SessionMeaning(auth, ins);
    }
    TurnAcks(After(auth, ins), i);
    assert (ins + [i])[..|ins|] == ins;
    HighestBounds(ins, InstanceOf(ins + [i]), i.env.sequence);
  }
}
