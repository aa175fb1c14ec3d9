/**
 The two encodings of a sweep, and what the controller makes of them: which statements of
 the agent it has taken in, with what verdict and when. Where deltas keep a statement, a
 full snapshot would have made it too; what only a snapshot would restore is told exactly.
 */
module Encodings {
  import opened Ordering
  import opened HealthModel
  import opened Store
  import opened RegistryIndex
  import opened Server
  import opened Protocol
  import opened Sender
  import opened Bracket
  import opened Delivery

  // ---------------------------------------------------------------- what was told

  /** What a report can be about. */
  datatype Subject = Subject(kind: Kind, key: Key)

  /** A verdict the controller took in, and when. */
  datatype Word = Word(verdict: bool, at: int)

  /** The agent's last statement about each subject, where it was taken in and still stands. */
  type Told = map<Subject, Word>

  /** The store holds this word as the agent's. */
  predicate Holds(st: StoreState, who: Who, s: Subject, w: Word) {
    var ev := EvidenceAt(st, s.kind, s.key);
    && ev.Some?
    && ev.value.report.Node() == who.node && ev.value.origin.agentInstance == who.instance
    && ev.value.report.Positive() == w.verdict && ev.value.acceptedAt == w.at
  }

  ghost predicate ToldStands(st: StoreState, who: Who, told: Told) {
    forall s :: s in told ==> Holds(st, who, s, told[s])
  }

  predicate HeldLocally(st: StoreState, node: string, k: Key) {
    k in st.local && st.local[k].report.nodeName == node
  }

  // ---------------------------------------------------------------- what a sweep says

  type Verdicts = map<Key, bool>   // path key -> last reported path verdict

  function Reported(paths: seq<PathHealth>): Verdicts {
    if paths == [] then map[]
    else
      var p := paths[|paths| - 1];
      Reported(paths[..|paths| - 1])[p.scopeID := p.pathReady]
  }

  lemma {:induction false} ReportedMeaning(paths: seq<PathHealth>, k: Key)
    ensures
      var last := LastFor(paths, PathReportKey, k);
      && (k in Reported(paths) <==> last.Some?)
      && (last.Some? ==> Reported(paths)[k] == last.value.pathReady)
  {
    if paths != [] {
      ReportedMeaning(paths[..|paths| - 1], k);
    }
  }

  /** The sweep's last verdict on the subject. */
  function Saying(snap: Snapshot, s: Subject): Option<bool> {
    match s.kind
    case LocalKind =>
      (match LastFor(snap.locals, LocalKey, s.key)
       case None => None
       case Some(r) => Some(r.Ready()))
    case PathKind =>
      (match LastFor(snap.paths, PathReportKey, s.key)
       case None => None
       case Some(p) => Some(p.pathReady))
  }

  /** And the registry takes it from this node. */
  predicate Heeded(ix: Index, node: string, snap: Snapshot, s: Subject) {
    match s.kind
    case LocalKind =>
      (match LastFor(snap.locals, LocalKey, s.key)
       case None => false
       case Some(r) => Known(ix, node, r))
    case PathKind => Saying(snap, s).Some? && AllowsPath(ix, node, s.key)
  }

  function Subjects(snap: Snapshot): set<Subject> {
    (set r | r in snap.locals :: Subject(LocalKind, r.attachmentID)) + (set p | p in snap.paths :: Subject(PathKind, p.scopeID))
  }

  /** The deltas of the sweep speak of the subject. */
  predicate InDeltas(snap: Snapshot, s: Subject) {
    s.key in snap.changed || (s.kind == LocalKind && s.key in snap.retired)
  }

  // ---------------------------------------------------------------- what a publish adds to it

  /** After a full publish. */
  function FullWord(ix: Index, node: string, snap: Snapshot, now: int, s: Subject): Option<Word> {
    if Heeded(ix, node, snap, s) && Saying(snap, s).Some? then Some(Word(Saying(snap, s).value, now)) else None
  }

  /** After a publish of deltas over what had been told. */
  function DeltaWord(told: Told, ix: Index, node: string, snap: Snapshot, now: int, s: Subject): Option<Word> {
    if s.kind == LocalKind && s.key in snap.retired then None
    else if s.key in snap.changed && Saying(snap, s).Some? then FullWord(ix, node, snap, now, s)
    else if s in told then Some(told[s])
    else None
  }

  function ToldByFull(ix: Index, node: string, snap: Snapshot, now: int): Told {
    map s | s in Subjects(snap) && FullWord(ix, node, snap, now, s).Some? :: FullWord(ix, node, snap, now, s).value
  }

  function ToldByDeltas(told: Told, ix: Index, node: string, snap: Snapshot, now: int): Told {
    map s | s in told.Keys + Subjects(snap) && DeltaWord(told, ix, node, snap, now, s).Some? ::
      DeltaWord(told, ix, node, snap, now, s).value
  }

  /** What deltas that may not have arrived leave certain. */
  function Unspoken(told: Told, snap: Snapshot): Told {
    map s | s in told && !InDeltas(snap, s) :: told[s]
  }

  lemma SayingIsSubject(snap: Snapshot, s: Subject)
    ensures Saying(snap, s).Some? ==> s in Subjects(snap)
  {
    var i := LastForMeaning(snap.locals, LocalKey, s.key);
    var j := LastForMeaning(snap.paths, PathReportKey, s.key);
  }

  lemma ToldByFullAt(ix: Index, node: string, snap: Snapshot, now: int, s: Subject)
    ensures
      var told, w := ToldByFull(ix, node, snap, now), FullWord(ix, node, snap, now, s);
      (s in told <==> w.Some?) && (s in told ==> told[s] == w.value)
  {
    SayingIsSubject(snap, s);
    hide Saying, Heeded, Subjects;
  }

  lemma ToldByDeltasAt(told: Told, ix: Index, node: string, snap: Snapshot, now: int, s: Subject)
    ensures
      var told', w := ToldByDeltas(told, ix, node, snap, now), DeltaWord(told, ix, node, snap, now, s);
      (s in told' <==> w.Some?) && (s in told' ==> told'[s] == w.value)
  {
    SayingIsSubject(snap, s);
    hide Saying, Heeded, Subjects;
  }

  // ---------------------------------------------------------------- and the store bears it out

  lemma FullHolds(st: StoreState, ix: Index, who: Who, q: nat, now: int, snap: Snapshot, s: Subject)
    ensures
      var st' := st.Adopt(who.node, who.instance)
                   .AfterSnapshot(ReportOrigin(who.node, who.instance, q), TakenLocals(ix, who.node, snap.locals),
                                  TakenPaths(ix, who.node, snap.paths), now);
      && (FullWord(ix, who.node, snap, now, s).Some? ==> Holds(st', who, s, FullWord(ix, who.node, snap, now, s).value))
      && (HeldLocally(st', who.node, s.key) ==> Saying(snap, Subject(LocalKind, s.key)).Some?)
  {
    hide Known, AllowsPath, TakenLocals, TakenPaths, LastFor, StoreState.AfterSnapshot;
    var st0, o := st.Adopt(who.node, who.instance), ReportOrigin(who.node, who.instance, q);
    SnapshotReplacesNode(st0, o, TakenLocals(ix, who.node, snap.locals), TakenPaths(ix, who.node, snap.paths), now, s.key);
    TakenLocalsLast(ix, who.node, snap.locals, s.key);
    TakenPathsLast(ix, who.node, snap.paths, s.key);
  }

  /** A full publish: every statement the registry takes is the store's, and nothing unobserved is held for the node. */
  lemma FullTells(c: Channel, ix: Index, now: int, who: Who, q: nat, snap: Snapshot, e: nat)
    requires OwnStream(c, who) && SeqBound(c.store, who.instance, q)
    ensures
      var d := FeedAll(c, ix, now, who, q, FullPayloads(snap, e));
      && Tuned(d, who, q + |FullPayloads(snap, e)|)
      && ToldStands(d.store, who, ToldByFull(ix, who.node, snap, now))
      && (forall k :: HeldLocally(d.store, who.node, k) ==> Saying(snap, Subject(LocalKind, k)).Some?)
  {
    hide FeedAll, FullPayloads, OwnStream, Tuned, SeqBound, Saying, FullWord, Holds, HeldLocally, ToldByFull,
      StoreState.Adopt, StoreState.AfterSnapshot, TakenLocals, TakenPaths;
    SnapshotLands(c, ix, now, who, q, snap, e);
    var q' := q + |FullPayloads(snap, e)|;
    forall s | s in ToldByFull(ix, who.node, snap, now)
      ensures Holds(FeedAll(c, ix, now, who, q, FullPayloads(snap, e)).store, who, s, ToldByFull(ix, who.node, snap, now)[s])
    {
      ToldByFullAt(ix, who.node, snap, now, s);
      FullHolds(c.store, ix, who, q', now, snap, s);
    }
    forall k | HeldLocally(FeedAll(c, ix, now, who, q, FullPayloads(snap, e)).store, who.node, k)
      ensures Saying(snap, Subject(LocalKind, k)).Some?
    {
      FullHolds(c.store, ix, who, q', now, snap, Subject(LocalKind, k));
    }
  }

  lemma DeltaHolds(c: Channel, ix: Index, now: int, who: Who, q: nat, told: Told, snap: Snapshot, s: Subject)
    requires Tuned(c, who, q) && (s in told ==> Holds(c.store, who, s, told[s]))
    ensures
      var st', w := FeedAll(c, ix, now, who, q, DeltaPayloads(snap)).store, DeltaWord(told, ix, who.node, snap, now, s);
      && (w.Some? ==> Holds(st', who, s, w.value))
      && (HeldLocally(st', who.node, s.key) ==>
            Saying(snap, Subject(LocalKind, s.key)).Some?
            || (HeldLocally(c.store, who.node, s.key) && s.key !in snap.retired))
  {
    hide Known, AllowsPath, FeedAll, DeltaPayloads, Tuned, LastFor;
    DeltasLand(c, ix, now, who, q, snap, s.key);
  }

  /** A publish of deltas: what had been told and is not spoken of stands, what is spoken of is told anew or no longer. */
  lemma DeltaTells(c: Channel, ix: Index, now: int, who: Who, q: nat, told: Told, snap: Snapshot)
    requires Tuned(c, who, q) && ToldStands(c.store, who, told)
    ensures
      var d := FeedAll(c, ix, now, who, q, DeltaPayloads(snap));
      && Tuned(d, who, q + |DeltaPayloads(snap)|)
      && ToldStands(d.store, who, ToldByDeltas(told, ix, who.node, snap, now))
      && (forall k :: HeldLocally(d.store, who.node, k) ==>
            Saying(snap, Subject(LocalKind, k)).Some? || (HeldLocally(c.store, who.node, k) && k !in snap.retired))
  {
    hide FeedAll, DeltaPayloads, Tuned, Saying, DeltaWord, Holds, HeldLocally, ToldByDeltas;
    var d := FeedAll(c, ix, now, who, q, DeltaPayloads(snap));
    DeltasLand(c, ix, now, who, q, snap, Digest(""));
    forall s | s in ToldByDeltas(told, ix, who.node, snap, now)
      ensures Holds(d.store, who, s, ToldByDeltas(told, ix, who.node, snap, now)[s])
    {
      ToldByDeltasAt(told, ix, who.node, snap, now, s);
      DeltaHolds(c, ix, now, who, q, told, snap, s);
    }
    forall k | HeldLocally(d.store, who.node, k)
      ensures Saying(snap, Subject(LocalKind, k)).Some? || (HeldLocally(c.store, who.node, k) && k !in snap.retired)
    {
      DeltaHolds(c, ix, now, who, q, told, snap, Subject(LocalKind, k));
    }
  }

  // ---------------------------------------------------------------- told against remembered

  /** What was told is what the agent stands by. */
  predicate CoherentAt(told: Told, prev: Memory, verdicts: Verdicts, s: Subject) {
    s in told ==>
      match s.kind
      case LocalKind => s.key in prev && told[s].verdict == prev[s.key]
      case PathKind => s.key in verdicts ==> told[s].verdict == verdicts[s.key]
  }

  ghost predicate Coherent(told: Told, prev: Memory, verdicts: Verdicts) {
    forall s :: CoherentAt(told, prev, verdicts, s)
  }

  /** A sweep's findings, over what was remembered and reported before it. */
  ghost predicate Follows(prev: Memory, verdicts: Verdicts, snap: Snapshot) {
    && (forall id :: id in snap.retired <==> id in prev && id !in Live(snap.locals))
    && (forall id :: id in ChangedBy(prev, snap.locals) ==> id in snap.changed)
    && (forall k :: k in Reported(snap.paths) && k !in snap.changed ==>
          k in verdicts && verdicts[k] == Reported(snap.paths)[k])
  }

  lemma SayingMeaning(prev: Memory, snap: Snapshot, s: Subject)
    ensures s.kind == LocalKind ==>
      (Saying(snap, s).Some? <==> s.key in Live(snap.locals)) && (Saying(snap, s).Some? <==> s.key in Retained(prev, snap.locals))
    ensures s.kind == LocalKind && Saying(snap, s).Some? ==> Retained(prev, snap.locals)[s.key] == Saying(snap, s).value
    ensures s.kind == PathKind ==> (Saying(snap, s).Some? <==> s.key in Reported(snap.paths))
    ensures s.kind == PathKind && Saying(snap, s).Some? ==> Reported(snap.paths)[s.key] == Saying(snap, s).value
  {
    SweepMeaning(prev, snap.locals, s.key);
    ReportedMeaning(snap.paths, s.key);
    hide Remembered, ChangedBy, Reported, Live;
  }

  /** What a sweep does not mark as changed it found as it was remembered. */
  lemma UnchangedSaying(prev: Memory, verdicts: Verdicts, snap: Snapshot, s: Subject)
    requires Follows(prev, verdicts, snap) && Saying(snap, s).Some? && s.key !in snap.changed
    ensures s.kind == LocalKind ==> s.key in prev && prev[s.key] == Saying(snap, s).value
    ensures s.kind == PathKind ==> s.key in verdicts && verdicts[s.key] == Saying(snap, s).value
  {
    SweepMeaning(prev, snap.locals, s.key);
    ReportedMeaning(snap.paths, s.key);
    hide Remembered, ChangedBy, Reported, Live;
  }

  lemma FullCoheres(ix: Index, node: string, snap: Snapshot, now: int, prev: Memory)
    ensures Coherent(ToldByFull(ix, node, snap, now), Retained(prev, snap.locals), Reported(snap.paths))
  {
    hide Saying, Heeded, ToldByFull, Retained, Reported;
    var told := ToldByFull(ix, node, snap, now);
    forall s ensures CoherentAt(told, Retained(prev, snap.locals), Reported(snap.paths), s) {
      ToldByFullAt(ix, node, snap, now, s);
      SayingMeaning(prev, snap, s);
    }
  }

  lemma DeltasCohere(told: Told, ix: Index, node: string, snap: Snapshot, now: int, prev: Memory, verdicts: Verdicts)
    requires Follows(prev, verdicts, snap) && Coherent(told, prev, verdicts)
    ensures Coherent(ToldByDeltas(told, ix, node, snap, now), Retained(prev, snap.locals), Reported(snap.paths))
  {
    hide Saying, Heeded, ToldByDeltas, Retained, Reported, ChangedBy, Live;
    var told' := ToldByDeltas(told, ix, node, snap, now);
    forall s ensures CoherentAt(told', Retained(prev, snap.locals), Reported(snap.paths), s) {
      ToldByDeltasAt(told, ix, node, snap, now, s);
      SayingMeaning(prev, snap, s);
      assert CoherentAt(told, prev, verdicts, s);
      if Saying(snap, s).Some? && s.key !in snap.changed {
        UnchangedSaying(prev, verdicts, snap, s);
      }
    }
  }

  /** Nothing is held for the node but what the agent remembers. */
  ghost predicate NothingElse(st: StoreState, node: string, prev: Memory) {
    forall k :: HeldLocally(st, node, k) ==> k in prev
  }

  // ---------------------------------------------------------------- the whole picture

  /** Everything the agent stands by has been told. */
  ghost predicate Whole(told: Told, prev: Memory, verdicts: Verdicts) {
    && (forall k :: k in prev ==> Subject(LocalKind, k) in told)
    && (forall k :: k in verdicts ==> Subject(PathKind, k) in told)
  }

  ghost predicate LocalAgrees(st: StoreState, node: string, prev: Memory, k: Key) {
    && (HeldLocally(st, node, k) <==> k in prev)
    && (k in prev ==> st.local[k].report.Ready() == prev[k])
  }

  /** The store's local ids for the node are exactly those the agent remembers, with the agent's verdicts. */
  ghost predicate LocalsAgree(st: StoreState, node: string, prev: Memory) {
    forall k :: LocalAgrees(st, node, prev, k)
  }

  ghost predicate PathAgrees(st: StoreState, node: string, verdicts: Verdicts, k: Key) {
    k in verdicts ==>
      k in st.path && st.path[k].report.pathReady == verdicts[k] && st.path[k].report.nodeName == node
  }

  /** Every path verdict the agent stands by is the store's verdict, filed under the agent's node. */
  ghost predicate PathsAgree(st: StoreState, node: string, verdicts: Verdicts) {
    forall k :: PathAgrees(st, node, verdicts, k)
  }

  /** Once everything has been told, the store agrees with the agent in full. */
  lemma WholeAgrees(st: StoreState, who: Who, told: Told, prev: Memory, verdicts: Verdicts)
    requires ToldStands(st, who, told) && Coherent(told, prev, verdicts) && Whole(told, prev, verdicts)
    requires NothingElse(st, who.node, prev)
    ensures LocalsAgree(st, who.node, prev) && PathsAgree(st, who.node, verdicts)
  {
    forall k ensures LocalAgrees(st, who.node, prev, k) && PathAgrees(st, who.node, verdicts, k) {
      assert CoherentAt(told, prev, verdicts, Subject(LocalKind, k));
      assert CoherentAt(told, prev, verdicts, Subject(PathKind, k));
    }
  }

  /** The registry knows every observation and every path key as this node's. */
  ghost predicate Matches(ix: Index, node: string, snap: Snapshot) {
    && (forall r :: r in snap.locals ==> Vouched(ix, node, r))
    && (forall r :: r in snap.paths ==> AllowsPath(ix, node, r.scopeID))
  }

  lemma MatchedIsHeeded(ix: Index, node: string, snap: Snapshot, s: Subject)
    requires Matches(ix, node, snap) && Saying(snap, s).Some?
    ensures Heeded(ix, node, snap, s)
  {
    hide AllowsPath;
    match s.kind {
      case LocalKind =>
        var i := LastForMeaning(snap.locals, LocalKey, s.key);
        assert snap.locals[i] in snap.locals;
      case PathKind =>
        var j := LastForMeaning(snap.paths, PathReportKey, s.key);
        assert snap.paths[j] in snap.paths;
    }
  }

  lemma FullIsWhole(ix: Index, node: string, snap: Snapshot, now: int, prev: Memory)
    requires Matches(ix, node, snap)
    ensures Whole(ToldByFull(ix, node, snap, now), Retained(prev, snap.locals), Reported(snap.paths))
  {
    hide Saying, Heeded, ToldByFull, Retained, Reported, Matches;
    forall kind: Kind, k | k in (if kind == LocalKind then Retained(prev, snap.locals) else Reported(snap.paths))
      ensures Subject(kind, k) in ToldByFull(ix, node, snap, now)
    {
      SayingMeaning(prev, snap, Subject(kind, k));
      MatchedIsHeeded(ix, node, snap, Subject(kind, k));
      ToldByFullAt(ix, node, snap, now, Subject(kind, k));
    }
  }

  lemma DeltasStayWhole(told: Told, ix: Index, node: string, snap: Snapshot, now: int, prev: Memory, verdicts: Verdicts)
    requires Matches(ix, node, snap) && Follows(prev, verdicts, snap) && Whole(told, prev, verdicts)
    ensures Whole(ToldByDeltas(told, ix, node, snap, now), Retained(prev, snap.locals), Reported(snap.paths))
  {
    forall kind: Kind, k | k in (if kind == LocalKind then Retained(prev, snap.locals) else Reported(snap.paths))
      ensures Subject(kind, k) in ToldByDeltas(told, ix, node, snap, now)
    {
      hide Saying, Heeded, ToldByDeltas, Retained, Reported, Matches, ChangedBy, Live;
      SayingMeaning(prev, snap, Subject(kind, k));
      MatchedIsHeeded(ix, node, snap, Subject(kind, k));
      ToldByDeltasAt(told, ix, node, snap, now, Subject(kind, k));
      if k !in snap.changed {
        UnchangedSaying(prev, verdicts, snap, Subject(kind, k));
      }
    }
    hide ToldByDeltas, Retained, Reported, Matches;
  }

  // ---------------------------------------------------------------- deltas against a snapshot

  /** Both stores hold the same verdict about the subject, from the agent's node. */
  predicate SameWord(a: StoreState, b: StoreState, node: string, s: Subject) {
    var x, y := EvidenceAt(a, s.kind, s.key), EvidenceAt(b, s.kind, s.key);
    && x.Some? && y.Some?
    && x.value.report.Node() == node && y.value.report.Node() == node
    && x.value.report.Positive() == y.value.report.Positive()
  }

  lemma DeltasAgainstFull(told: Told, ix: Index, node: string, snap: Snapshot, now: int, prev: Memory, verdicts: Verdicts, s: Subject)
    requires Follows(prev, verdicts, snap) && Coherent(told, prev, verdicts)
    ensures
      var f, d := FullWord(ix, node, snap, now, s), DeltaWord(told, ix, node, snap, now, s);
      && (f.Some? ==> (d.Some? <==> s.key in snap.changed || s in told))
      && (f.Some? && d.Some? ==> f.value.verdict == d.value.verdict)
  {
    SayingMeaning(prev, snap, s);
    assert CoherentAt(told, prev, verdicts, s);
    hide Saying, Heeded, Retained, Reported, ChangedBy, Live;
    if Saying(snap, s).Some? && s.key !in snap.changed {
      UnchangedSaying(prev, verdicts, snap, s);
    }
  }

  lemma HeededIsSaid(ix: Index, node: string, snap: Snapshot, s: Subject)
    ensures Heeded(ix, node, snap, s) ==> Saying(snap, s).Some?
  {
    hide AllowsPath;
  }

  /**
   The deltas of a sweep refine its snapshot. Whatever statement a full publish would have
   made stand, the deltas make stand with the same verdict, exactly when it has changed or
   had been told before; the others are what the next snapshot is for.
   */
  lemma DeltaRefinesFull(c: Channel, ix: Index, now: int, who: Who, q: nat, told: Told, prev: Memory, verdicts: Verdicts,
                         snap: Snapshot, e: nat, s: Subject)
    requires Tuned(c, who, q) && OwnStream(c, who) && SeqBound(c.store, who.instance, q)
    requires ToldStands(c.store, who, told) && Coherent(told, prev, verdicts) && Follows(prev, verdicts, snap)
    requires Heeded(ix, who.node, snap, s)
    ensures
      var d, f := FeedAll(c, ix, now, who, q, DeltaPayloads(snap)).store, FeedAll(c, ix, now, who, q, FullPayloads(snap, e)).store;
      && s in ToldByFull(ix, who.node, snap, now)
      && (s in ToldByDeltas(told, ix, who.node, snap, now) <==> s.key in snap.changed || s in told)
      && (s.key in snap.changed || s in told ==> SameWord(d, f, who.node, s))
  {
    HeededIsSaid(ix, who.node, snap, s);
    hide FeedAll, Tuned, OwnStream, SeqBound, DeltaPayloads, FullPayloads, Follows, Saying, Heeded, HeldLocally,
      ToldByFull, ToldByDeltas, DeltaWord, EvidenceAt;
    FullTells(c, ix, now, who, q, snap, e);
    DeltaTells(c, ix, now, who, q, told, snap);
    ToldByFullAt(ix, who.node, snap, now, s);
    ToldByDeltasAt(told, ix, who.node, snap, now, s);
    DeltasAgainstFull(told, ix, who.node, snap, now, prev, verdicts, s);
  }

  // ---------------------------------------------------------------- from one agreement to the next

  lemma LastIsVouched(ix: Index, node: string, snap: Snapshot, k: Key)
    requires Matches(ix, node, snap)
    ensures
      var l, p := LastFor(snap.locals, LocalKey, k), LastFor(snap.paths, PathReportKey, k);
      && (l.Some? ==> Known(ix, node, l.value) && l.value.(nodeName := node) == l.value)
      && (p.Some? ==> AllowsPath(ix, node, k))
  {
    hide AllowsPath;
    var i := LastForMeaning(snap.locals, LocalKey, k);
    var j := LastForMeaning(snap.paths, PathReportKey, k);
    if LastFor(snap.locals, LocalKey, k).Some? {
      assert snap.locals[i] in snap.locals;
    }
    if LastFor(snap.paths, PathReportKey, k).Some? {
      assert snap.paths[j] in snap.paths;
    }
  }

  lemma FullAgreesAt(c: Channel, ix: Index, now: int, who: Who, q: nat, prev: Memory, snap: Snapshot, e: nat, k: Key)
    requires OwnStream(c, who) && SeqBound(c.store, who.instance, q) && Matches(ix, who.node, snap)
    ensures
      var st' := FeedAll(c, ix, now, who, q, FullPayloads(snap, e)).store;
      LocalAgrees(st', who.node, Retained(prev, snap.locals), k) && PathAgrees(st', who.node, Reported(snap.paths), k)
  {
    hide Reported, Remembered, ChangedBy, Live, Matches, Known, AllowsPath, TakenLocals, TakenPaths, FeedAll, FullPayloads, OwnStream,
      SeqBound, Tuned, LastFor, StoreState.AfterSnapshot;
    var o := ReportOrigin(who.node, who.instance, q + |FullPayloads(snap, e)|);
    SnapshotLands(c, ix, now, who, q, snap, e);
    SnapshotReplacesNode(c.store.Adopt(who.node, who.instance), o, TakenLocals(ix, who.node, snap.locals),
                         TakenPaths(ix, who.node, snap.paths), now, k);
    TakenLocalsLast(ix, who.node, snap.locals, k);
    TakenPathsLast(ix, who.node, snap.paths, k);
    SweepMeaning(prev, snap.locals, k);
    LastIsVouched(ix, who.node, snap, k);
    ReportedMeaning(snap.paths, k);
  }

  lemma DeltaAgreesAt(c: Channel, ix: Index, now: int, who: Who, q: nat, prev: Memory, verdicts: Verdicts, snap: Snapshot, k: Key)
    requires Tuned(c, who, q) && Matches(ix, who.node, snap) && Follows(prev, verdicts, snap)
    requires LocalsAgree(c.store, who.node, prev) && PathsAgree(c.store, who.node, verdicts)
    ensures
      var st' := FeedAll(c, ix, now, who, q, DeltaPayloads(snap)).store;
      LocalAgrees(st', who.node, Retained(prev, snap.locals), k) && PathAgrees(st', who.node, Reported(snap.paths), k)
  {
    hide Reported, Remembered, ChangedBy, Live, Matches, Known, AllowsPath, FeedAll, DeltaPayloads, Tuned, LastFor;
    DeltasLand(c, ix, now, who, q, snap, k);
    SweepMeaning(prev, snap.locals, k);
    LastIsVouched(ix, who.node, snap, k);
    ReportedMeaning(snap.paths, k);
    assert LocalAgrees(c.store, who.node, prev, k) && PathAgrees(c.store, who.node, verdicts, k);
  }

  /**
   Of a sweep the registry takes whole: a snapshot has any controller agree with the
   agent, and deltas have one agree that did before the sweep.
   */
  lemma EncodingsAgree(c: Channel, ix: Index, now: int, who: Who, q: nat, prev: Memory, verdicts: Verdicts, snap: Snapshot, e: nat)
    requires OwnStream(c, who) && SeqBound(c.store, who.instance, q) && Matches(ix, who.node, snap)
    ensures
      var f := FeedAll(c, ix, now, who, q, FullPayloads(snap, e)).store;
      LocalsAgree(f, who.node, Retained(prev, snap.locals)) && PathsAgree(f, who.node, Reported(snap.paths))
    ensures
      && Tuned(c, who, q) && Follows(prev, verdicts, snap)
      && LocalsAgree(c.store, who.node, prev) && PathsAgree(c.store, who.node, verdicts)
      ==>
        var d := FeedAll(c, ix, now, who, q, DeltaPayloads(snap)).store;
        LocalsAgree(d, who.node, Retained(prev, snap.locals)) && PathsAgree(d, who.node, Reported(snap.paths))
  {
    hide FeedAll, Tuned, OwnStream, SeqBound, DeltaPayloads, FullPayloads, Matches, Follows, Reported, Retained, LocalAgrees, PathAgrees;
    forall k {
      FullAgreesAt(c, ix, now, who, q, prev, snap, e, k);
    }
    if && Tuned(c, who, q) && Follows(prev, verdicts, snap)
       && LocalsAgree(c.store, who.node, prev) && PathsAgree(c.store, who.node, verdicts) {
      forall k {
        DeltaAgreesAt(c, ix, now, who, q, prev, verdicts, snap, k);
      }
    }
  }

  /** Two stores an observer of this node's evidence cannot tell apart. */
  ghost predicate SameEvidence(a: StoreState, b: StoreState, node: string, verdicts: Verdicts) {
    && (forall k :: HeldLocally(a, node, k) <==> HeldLocally(b, node, k))
    && (forall k :: HeldLocally(a, node, k) ==> a.local[k].report.Ready() == b.local[k].report.Ready())
    && (forall k :: k in verdicts ==>
          k in a.path && k in b.path && a.path[k].report.pathReady == b.path[k].report.pathReady)
  }

  lemma AgreementDetermines(a: StoreState, b: StoreState, node: string, prev: Memory, verdicts: Verdicts)
    requires LocalsAgree(a, node, prev) && PathsAgree(a, node, verdicts)
    requires LocalsAgree(b, node, prev) && PathsAgree(b, node, verdicts)
    ensures SameEvidence(a, b, node, verdicts)
  {
    forall k ensures
      && (HeldLocally(a, node, k) <==> HeldLocally(b, node, k))
      && (HeldLocally(a, node, k) ==> a.local[k].report.Ready() == b.local[k].report.Ready())
      && (k in verdicts ==> k in a.path && k in b.path && a.path[k].report.pathReady == b.path[k].report.pathReady)
    {
      assert LocalAgrees(a, node, prev, k) && LocalAgrees(b, node, prev, k);
      assert PathAgrees(a, node, verdicts, k) && PathAgrees(b, node, verdicts, k);
    }
  }

  /** Then the deltas leave the node's evidence as the snapshot would, all of it. */
  lemma AgreedDeltasAreFull(c: Channel, ix: Index, now: int, who: Who, q: nat, prev: Memory, verdicts: Verdicts, snap: Snapshot, e: nat)
    requires Tuned(c, who, q) && OwnStream(c, who) && SeqBound(c.store, who.instance, q)
    requires Matches(ix, who.node, snap) && Follows(prev, verdicts, snap)
    requires LocalsAgree(c.store, who.node, prev) && PathsAgree(c.store, who.node, verdicts)
    ensures
      SameEvidence(FeedAll(c, ix, now, who, q, DeltaPayloads(snap)).store,
                   FeedAll(c, ix, now, who, q, FullPayloads(snap, e)).store, who.node, Reported(snap.paths))
  {
    hide FeedAll, Tuned, OwnStream, SeqBound, DeltaPayloads, FullPayloads, Matches, Follows, Reported, Retained, LocalsAgree,
      PathsAgree;
    EncodingsAgree(c, ix, now, who, q, prev, verdicts, snap, e);
    AgreementDetermines(FeedAll(c, ix, now, who, q, DeltaPayloads(snap)).store, FeedAll(c, ix, now, who, q, FullPayloads(snap, e)).store,
                        who.node, Retained(prev, snap.locals), Reported(snap.paths));
  }
}
