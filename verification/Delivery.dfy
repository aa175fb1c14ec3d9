/**
 What a publish does at the controller when its envelopes arrive in order on the
 agent's own stream, all of them or only some: the receiving half of the delta and the
 snapshot encoding.
 */
module Delivery {
  import opened Ordering
  import opened HealthModel
  import opened Messages
  import opened Store
  import opened RegistryIndex
  import opened Server
  import opened Protocol
  import opened Sender

  /** A stream and the store behind it. */
  datatype Channel = Channel(session: Session, store: StoreState)

  function FeedOne(c: Channel, ix: Index, now: int, e: Envelope): Channel {
    if c.session.open then
      var out := Handle(c.session, c.store, ix, e, now);
      Channel(out.session, out.store)
    else c
  }

  function Feed(c: Channel, ix: Index, now: int, es: seq<Envelope>): Channel {
    if es == [] then c else FeedOne(Feed(c, ix, now, es[..|es| - 1]), ix, now, es[|es| - 1])
  }

  lemma {:induction false} FeedConcat(c: Channel, ix: Index, now: int, es: seq<Envelope>, fs: seq<Envelope>)
    ensures Feed(c, ix, now, es + fs) == Feed(Feed(c, ix, now, es), ix, now, fs)
  {
    hide FeedOne;
    if fs == [] {
      assert es + fs == es;
    } else {
      FeedConcat(c, ix, now, es, fs[..|fs| - 1]);
      assert (es + fs)[..|es + fs| - 1] == es + fs[..|fs| - 1];
    }
  }

  lemma NumberedConcat(node: string, instance: string, from: nat, ps: seq<Payload>, qs: seq<Payload>)
    ensures Numbered(node, instance, from, ps + qs)
         == Numbered(node, instance, from, ps) + Numbered(node, instance, from + |ps|, qs)
  {
  }

  /** The agent this module follows: its node and its process instance. */
  datatype Who = Who(node: string, instance: string)

  /** Every entry this instance wrote carries a sequence number no greater than q. */
  ghost predicate SeqBound(st: StoreState, instance: string, q: nat) {
    && (forall k :: k in st.local && st.local[k].origin.agentInstance == instance ==> st.local[k].origin.sequence <= q)
    && (forall k :: k in st.path && st.path[k].origin.agentInstance == instance ==> st.path[k].origin.sequence <= q)
  }

  /** The agent's stream, authoritative and between brackets; no number above q has been seen from its instance. */
  ghost predicate Tuned(c: Channel, who: Who, q: nat) {
    && c.session.open && c.session.adopted && !c.session.inSnapshot
    && c.session.node == who.node && c.session.instance == who.instance
    && c.store.Current(ReportOrigin(who.node, who.instance, 0))
    && SeqBound(c.store, who.instance, q)
  }

  /** The registry knows this observation as it was made, and places it on this node. */
  predicate Vouched(ix: Index, node: string, r: LocalHealth) {
    Known(ix, node, r) && r.nodeName == node && ix.attachments[r.attachmentID].nodeName == node
  }

  function Numbers(who: Who, q: nat, p: Payload): Envelope {
    Envelope(who.node, who.instance, q + 1, p)
  }

  /** The channel after the payloads ps, numbered on from q. */
  function FeedAll(c: Channel, ix: Index, now: int, who: Who, q: nat, ps: seq<Payload>): Channel {
    Feed(c, ix, now, Numbered(who.node, who.instance, q, ps))
  }

  lemma FeedNone(c: Channel, ix: Index, now: int, who: Who, q: nat, ps: seq<Payload>)
    requires ps == []
    ensures FeedAll(c, ix, now, who, q, ps) == c
  {
  }

  lemma FeedThen(c: Channel, ix: Index, now: int, who: Who, q: nat, ps: seq<Payload>, qs: seq<Payload>)
    ensures FeedAll(c, ix, now, who, q, ps + qs) == FeedAll(FeedAll(c, ix, now, who, q, ps), ix, now, who, q + |ps|, qs)
  {
    hide Numbered, Feed;
    NumberedConcat(who.node, who.instance, q, ps, qs);
    FeedConcat(c, ix, now, Numbered(who.node, who.instance, q, ps), Numbered(who.node, who.instance, q + |ps|, qs));
  }

  lemma FeedLast(c: Channel, ix: Index, now: int, who: Who, q: nat, ps: seq<Payload>, p: Payload)
    ensures FeedAll(c, ix, now, who, q, ps + [p])
         == FeedOne(FeedAll(c, ix, now, who, q, ps), ix, now, Numbers(who, q + |ps|, p))
  {
    hide FeedOne;
    FeedThen(c, ix, now, who, q, ps, [p]);
    var d := FeedAll(c, ix, now, who, q, ps);
    assert Numbered(who.node, who.instance, q + |ps|, [p]) == [Numbers(who, q + |ps|, p)];
    assert Feed(d, ix, now, []) == d;
  }

  // ---------------------------------------------------------------- deltas

  /** A delta the registry knows is never refused, one it does not know changes nothing; nothing else moves. */
  lemma OneLocal(c: Channel, ix: Index, now: int, who: Who, q: nat, r: LocalHealth)
    requires Tuned(c, who, q)
    ensures
      var d := FeedOne(c, ix, now, Numbers(who, q, Local(ToLocalPB(r))));
      && Tuned(d, who, q + 1)
      && d.store ==
           if Known(ix, who.node, r) then
             c.store.(local := c.store.local[r.attachmentID :=
               Entry(r.(nodeName := who.node), ReportOrigin(who.node, who.instance, q + 1), now, false)])
           else c.store
  {
    LocalRoundTrip(ix, who.node, r);
    hide LocalFrom, LocalOwners, Known;
  }

  lemma OnePath(c: Channel, ix: Index, now: int, who: Who, q: nat, r: PathHealth)
    requires Tuned(c, who, q)
    ensures
      var d := FeedOne(c, ix, now, Numbers(who, q, Path(ToPathPB(r))));
      && Tuned(d, who, q + 1)
      && d.store ==
           if AllowsPath(ix, who.node, r.scopeID) then
             c.store.(path := c.store.path[r.scopeID :=
               Entry(r.(nodeName := who.node), ReportOrigin(who.node, who.instance, q + 1), now, false)])
           else c.store
  {
    PathRoundTrip(ix, who.node, r);
    hide PathFrom, PathOwners, AllowsPath;
  }

  lemma OneRetired(c: Channel, ix: Index, now: int, who: Who, q: nat, id: Key)
    requires Tuned(c, who, q)
    ensures
      var d := FeedOne(c, ix, now, Numbers(who, q, Retired(id)));
      && Tuned(d, who, q + 1)
      && d.store == c.store.(local := c.store.local - {id})
  {
    hide LocalOwners;
  }

  /** The table holds this report under the key, from this instance, accepted now. */
  predicate HoldsFrom<R(==)>(m: Table<R>, k: Key, r: R, instance: string, now: int) {
    k in m && m[k].report == r && m[k].origin.agentInstance == instance && m[k].acceptedAt == now
  }

  predicate SameEntry<R(==)>(m: Table<R>, m': Table<R>, k: Key) {
    (k in m' <==> k in m) && (k in m ==> m'[k] == m[k])
  }

  /** After a run of local deltas a key holds its last report, if the registry knows that one, and what it held if there is none. */
  lemma {:induction false} FeedLocals(c: Channel, ix: Index, now: int, who: Who, q: nat, rs: seq<LocalHealth>, k: Key)
    requires Tuned(c, who, q)
    ensures
      var d := FeedAll(c, ix, now, who, q, LocalPayloads(rs));
      && Tuned(d, who, q + |rs|)
      && d.store == c.store.(local := d.store.local)
      && match LastFor(rs, LocalKey, k)
         case Some(r) => Known(ix, who.node, r) ==> HoldsFrom(d.store.local, k, r.(nodeName := who.node), who.instance, now)
         case None => SameEntry(c.store.local, d.store.local, k)
  {
    hide FeedOne, Tuned, Known, FeedAll, ToLocalPB;
    if rs == [] {
      FeedNone(c, ix, now, who, q, LocalPayloads(rs));
    } else {
      var init, r := rs[..|rs| - 1], rs[|rs| - 1];
      assert rs == init + [r];
      FeedLocals(c, ix, now, who, q, init, k);
      assert LocalPayloads(rs) == LocalPayloads(init) + [Local(ToLocalPB(r))];
      FeedLast(c, ix, now, who, q, LocalPayloads(init), Local(ToLocalPB(r)));
      OneLocal(FeedAll(c, ix, now, who, q, LocalPayloads(init)), ix, now, who, q + |init|, r);
    }
  }

  lemma {:induction false} FeedPaths(c: Channel, ix: Index, now: int, who: Who, q: nat, rs: seq<PathHealth>, k: Key)
    requires Tuned(c, who, q)
    ensures
      var d := FeedAll(c, ix, now, who, q, PathPayloads(rs));
      && Tuned(d, who, q + |rs|)
      && d.store == c.store.(path := d.store.path)
      && match LastFor(rs, PathReportKey, k)
         case Some(r) =>
           AllowsPath(ix, who.node, k) ==> HoldsFrom(d.store.path, k, r.(nodeName := who.node), who.instance, now)
         case None => SameEntry(c.store.path, d.store.path, k)
  {
    hide FeedOne, Tuned, AllowsPath, FeedAll;
    if rs == [] {
      FeedNone(c, ix, now, who, q, PathPayloads(rs));
    } else {
      var init, r := rs[..|rs| - 1], rs[|rs| - 1];
      FeedPaths(c, ix, now, who, q, init, k);
      assert PathPayloads(rs) == PathPayloads(init) + [Path(ToPathPB(r))];
      FeedLast(c, ix, now, who, q, PathPayloads(init), Path(ToPathPB(r)));
      OnePath(FeedAll(c, ix, now, who, q, PathPayloads(init)), ix, now, who, q + |init|, r);
    }
  }

  lemma {:induction false} FeedRetired(c: Channel, ix: Index, now: int, who: Who, q: nat, ids: seq<Key>)
    requires Tuned(c, who, q)
    ensures
      var d := FeedAll(c, ix, now, who, q, RetiredPayloads(ids));
      && Tuned(d, who, q + |ids|)
      && d.store == c.store.(local := c.store.local - set id | id in ids)
  {
    hide FeedOne, Tuned, FeedAll;
    if ids == [] {
      FeedNone(c, ix, now, who, q, RetiredPayloads(ids));
      assert c.store.local - (set id | id in ids) == c.store.local;
    } else {
      var init, id := ids[..|ids| - 1], ids[|ids| - 1];
      FeedRetired(c, ix, now, who, q, init);
      assert RetiredPayloads(ids) == RetiredPayloads(init) + [Retired(id)];
      FeedLast(c, ix, now, who, q, RetiredPayloads(init), Retired(id));
      OneRetired(FeedAll(c, ix, now, who, q, RetiredPayloads(init)), ix, now, who, q + |init|, id);
      assert ids == init + [id];
    }
  }

  lemma {:induction false} ChangedLocalsLast(rs: seq<LocalHealth>, changed: set<Key>, k: Key)
    ensures LastFor(ChangedLocals(rs, changed), LocalKey, k) == if k in changed then LastFor(rs, LocalKey, k) else None
    ensures forall r :: r in ChangedLocals(rs, changed) ==> r in rs
  {
    if rs != [] {
      var init, r := rs[..|rs| - 1], rs[|rs| - 1];
      ChangedLocalsLast(init, changed, k);
      if r.attachmentID in changed {
        var cs := ChangedLocals(rs, changed);
        assert cs == ChangedLocals(init, changed) + [r];
        assert cs[..|cs| - 1] == ChangedLocals(init, changed);
      } else {
        assert ChangedLocals(rs, changed) == ChangedLocals(init, changed);
      }
    }
  }

  lemma {:induction false} ChangedPathsLast(rs: seq<PathHealth>, changed: set<Key>, k: Key)
    ensures LastFor(ChangedPaths(rs, changed), PathReportKey, k) == if k in changed then LastFor(rs, PathReportKey, k) else None
    ensures forall r :: r in ChangedPaths(rs, changed) ==> r in rs
  {
    if rs != [] {
      var init, r := rs[..|rs| - 1], rs[|rs| - 1];
      ChangedPathsLast(init, changed, k);
      if r.scopeID in changed {
        var cs := ChangedPaths(rs, changed);
        assert cs == ChangedPaths(init, changed) + [r];
        assert cs[..|cs| - 1] == ChangedPaths(init, changed);
      } else {
        assert ChangedPaths(rs, changed) == ChangedPaths(init, changed);
      }
    }
  }

  lemma PayloadCounts(ls: seq<LocalHealth>, ps: seq<PathHealth>, ids: seq<Key>)
    ensures |LocalPayloads(ls)| == |ls| && |PathPayloads(ps)| == |ps| && |RetiredPayloads(ids)| == |ids|
  {
  }

  /**
   A publish of deltas: what it retires is gone, what it marks as changed holds its last
   report if the registry knows it, the rest is as it was.
   */
  lemma DeltasLand(c: Channel, ix: Index, now: int, who: Who, q: nat, snap: Snapshot, k: Key)
    requires Tuned(c, who, q)
    ensures
      var d := FeedAll(c, ix, now, who, q, DeltaPayloads(snap));
      var l, p := LastFor(snap.locals, LocalKey, k), LastFor(snap.paths, PathReportKey, k);
      && Tuned(d, who, q + |DeltaPayloads(snap)|)
      && d.store == c.store.(local := d.store.local, path := d.store.path)
      && (if k in snap.retired then k !in d.store.local
          else if k in snap.changed && l.Some? then
            Known(ix, who.node, l.value) ==> HoldsFrom(d.store.local, k, l.value.(nodeName := who.node), who.instance, now)
          else SameEntry(c.store.local, d.store.local, k))
      && (if k in snap.changed && p.Some? then
            AllowsPath(ix, who.node, k) ==> HoldsFrom(d.store.path, k, p.value.(nodeName := who.node), who.instance, now)
          else SameEntry(c.store.path, d.store.path, k))
  {
    hide Tuned, Known, AllowsPath, FeedAll, LocalPayloads, PathPayloads, RetiredPayloads, ChangedLocals, ChangedPaths;
    var ls, ps := ChangedLocals(snap.locals, snap.changed), ChangedPaths(snap.paths, snap.changed);
    var a, b, e := LocalPayloads(ls), PathPayloads(ps), RetiredPayloads(snap.retired);
    PayloadCounts(ls, ps, snap.retired);
    ChangedLocalsLast(snap.locals, snap.changed, k);
    ChangedPathsLast(snap.paths, snap.changed, k);
    FeedThen(c, ix, now, who, q, a + b, e);
    FeedThen(c, ix, now, who, q, a, b);
    var c1 := FeedAll(c, ix, now, who, q, a);
    FeedLocals(c, ix, now, who, q, ls, k);
    var c2 := FeedAll(c1, ix, now, who, q + |ls|, b);
    FeedPaths(c1, ix, now, who, q + |ls|, ps, k);
    FeedRetired(c2, ix, now, who, q + |ls| + |ps|, snap.retired);
  }

  // ---------------------------------------------------------------- sequence numbers

  /** Whatever stream an envelope comes on, it cannot push the instance's entries past the numbers it has used. */
  lemma FeedOneBound(c: Channel, ix: Index, now: int, e: Envelope, instance: string, q: nat, q': nat)
    requires SeqBound(c.store, instance, q) && q <= q'
    requires e.agentInstanceId == instance ==> e.sequence <= q'
    ensures SeqBound(FeedOne(c, ix, now, e).store, instance, q')
  {
    hide Handle;
    if c.session.open {
      var st' := FeedOne(c, ix, now, e).store;
      forall k | k in st'.local ensures st'.local[k].origin.agentInstance == instance ==> st'.local[k].origin.sequence <= q' {
        TurnProvenance(c.session, c.store, ix, e, now, LocalKind, k);
      }
      forall k | k in st'.path ensures st'.path[k].origin.agentInstance == instance ==> st'.path[k].origin.sequence <= q' {
        TurnProvenance(c.session, c.store, ix, e, now, PathKind, k);
      }
    }
  }

  lemma {:induction false} FeedBound(c: Channel, ix: Index, now: int, es: seq<Envelope>, instance: string, q: nat, q': nat)
    requires SeqBound(c.store, instance, q) && q <= q'
    requires forall e :: e in es ==> e.sequence <= q'
    ensures SeqBound(Feed(c, ix, now, es).store, instance, q')
  {
    hide FeedOne;
    if es != [] {
      FeedBound(c, ix, now, es[..|es| - 1], instance, q, q');
      FeedOneBound(Feed(c, ix, now, es[..|es| - 1]), ix, now, es[|es| - 1], instance, q', q');
    }
  }

  // ---------------------------------------------------------------- snapshots

  /** The stream is the agent's own: adopted for it, or about to be. */
  predicate OwnSession(s: Session, who: Who) {
    && s.open && who.node != "" && who.instance != ""
    && if s.adopted then s.node == who.node && s.instance == who.instance
       else s.auth.None? || (s.auth == Some(who.node) && s.node == who.node)
  }

  /** And nobody has taken its node over since it was adopted. */
  predicate OwnStream(c: Channel, who: Who) {
    OwnSession(c.session, who) && (c.session.adopted ==> c.store.Current(ReportOrigin(who.node, who.instance, 0)))
  }

  /** Inside the agent's bracket of epoch e, over the store st. */
  ghost predicate Collecting(c: Channel, st: StoreState, who: Who, e: nat, ls: seq<LocalHealth>, ps: seq<PathHealth>) {
    && c.store == st && st.Current(ReportOrigin(who.node, who.instance, 0))
    && c.session.open && c.session.adopted && c.session.node == who.node && c.session.instance == who.instance
    && c.session.inSnapshot && c.session.epoch == e && c.session.bufLocal == ls && c.session.bufPath == ps
  }

  /** What of these observations a bracket takes in, each under the stream's node. */
  function TakenLocals(ix: Index, node: string, rs: seq<LocalHealth>): seq<LocalHealth> {
    if rs == [] then []
    else
      var r := rs[|rs| - 1];
      TakenLocals(ix, node, rs[..|rs| - 1]) + if Known(ix, node, r) then [r.(nodeName := node)] else []
  }

  function TakenPaths(ix: Index, node: string, rs: seq<PathHealth>): seq<PathHealth> {
    if rs == [] then []
    else
      var r := rs[|rs| - 1];
      TakenPaths(ix, node, rs[..|rs| - 1]) + if AllowsPath(ix, node, r.scopeID) then [r.(nodeName := node)] else []
  }

  lemma {:induction false} TakenLocalsLast(ix: Index, node: string, rs: seq<LocalHealth>, k: Key)
    ensures
      var last, taken := LastFor(rs, LocalKey, k), LastFor(TakenLocals(ix, node, rs), LocalKey, k);
      && (last.Some? && Known(ix, node, last.value) ==> taken == Some(last.value.(nodeName := node)))
      && (taken.Some? ==> last.Some?)
  {
    hide Known;
    if rs != [] {
      var init, ts := TakenLocals(ix, node, rs[..|rs| - 1]), TakenLocals(ix, node, rs);
      TakenLocalsLast(ix, node, rs[..|rs| - 1], k);
      if Known(ix, node, rs[|rs| - 1]) {
        assert ts[..|ts| - 1] == init;
      } else {
        assert ts == init;
      }
    }
  }

  lemma {:induction false} TakenPathsLast(ix: Index, node: string, rs: seq<PathHealth>, k: Key)
    ensures
      var last, taken := LastFor(rs, PathReportKey, k), LastFor(TakenPaths(ix, node, rs), PathReportKey, k);
      taken == if last.Some? && AllowsPath(ix, node, k) then Some(last.value.(nodeName := node)) else None
  {
    hide AllowsPath;
    if rs != [] {
      var init, ts := TakenPaths(ix, node, rs[..|rs| - 1]), TakenPaths(ix, node, rs);
      TakenPathsLast(ix, node, rs[..|rs| - 1], k);
      if AllowsPath(ix, node, rs[|rs| - 1].scopeID) {
        assert ts[..|ts| - 1] == init;
      } else {
        assert ts == init;
      }
    }
  }

  lemma OneBegin(c: Channel, ix: Index, now: int, who: Who, q: nat, e: nat, nl: nat, np: nat)
    requires OwnStream(c, who)
    ensures Collecting(FeedOne(c, ix, now, Numbers(who, q, SnapshotBegin(e, nl, np))),
                       c.store.Adopt(who.node, who.instance), who, e, [], [])
  {
  }

  lemma OneBuffered(c: Channel, st: StoreState, ix: Index, now: int, who: Who, q: nat, e: nat,
                    ls: seq<LocalHealth>, ps: seq<PathHealth>)
    requires Collecting(c, st, who, e, ls, ps)
    ensures forall r: LocalHealth ::
      Collecting(FeedOne(c, ix, now, Numbers(who, q, Local(ToLocalPB(r)))), st, who, e,
                 ls + (if Known(ix, who.node, r) then [r.(nodeName := who.node)] else []), ps)
    ensures forall r: PathHealth ::
      Collecting(FeedOne(c, ix, now, Numbers(who, q, Path(ToPathPB(r)))), st, who, e, ls,
                 ps + (if AllowsPath(ix, who.node, r.scopeID) then [r.(nodeName := who.node)] else []))
  {
    hide LocalFrom, PathFrom, Known, AllowsPath;
    forall r: LocalHealth
      ensures Collecting(FeedOne(c, ix, now, Numbers(who, q, Local(ToLocalPB(r)))), st, who, e,
                         ls + (if Known(ix, who.node, r) then [r.(nodeName := who.node)] else []), ps)
    {
      LocalRoundTrip(ix, who.node, r);
    }
    forall r: PathHealth
      ensures Collecting(FeedOne(c, ix, now, Numbers(who, q, Path(ToPathPB(r)))), st, who, e, ls,
                         ps + (if AllowsPath(ix, who.node, r.scopeID) then [r.(nodeName := who.node)] else []))
    {
      PathRoundTrip(ix, who.node, r);
    }
  }

  lemma OneEnd(c: Channel, st: StoreState, ix: Index, now: int, who: Who, q: nat, e: nat,
               ls: seq<LocalHealth>, ps: seq<PathHealth>)
    requires Collecting(c, st, who, e, ls, ps) && SeqBound(st, who.instance, q)
    ensures
      var d := FeedOne(c, ix, now, Numbers(who, q, SnapshotEnd(e)));
      && Tuned(d, who, q + 1)
      && d.store == st.AfterSnapshot(ReportOrigin(who.node, who.instance, q + 1), ls, ps, now)
  {
    FeedOneBound(c, ix, now, Numbers(who, q, SnapshotEnd(e)), who.instance, q, q + 1);
    hide PutAll, DropNode, SeqBound;
  }

  lemma {:induction false} CollectLocals(c: Channel, st: StoreState, ix: Index, now: int, who: Who, q: nat, e: nat, rs: seq<LocalHealth>)
    requires Collecting(c, st, who, e, [], [])
    ensures Collecting(FeedAll(c, ix, now, who, q, LocalPayloads(rs)), st, who, e, TakenLocals(ix, who.node, rs), [])
  {
    hide FeedOne, Collecting, Known, FeedAll, ToLocalPB;
    if rs == [] {
      FeedNone(c, ix, now, who, q, LocalPayloads(rs));
    } else {
      var init, r := rs[..|rs| - 1], rs[|rs| - 1];
      assert rs == init + [r];
      CollectLocals(c, st, ix, now, who, q, e, init);
      assert LocalPayloads(rs) == LocalPayloads(init) + [Local(ToLocalPB(r))];
      FeedLast(c, ix, now, who, q, LocalPayloads(init), Local(ToLocalPB(r)));
      OneBuffered(FeedAll(c, ix, now, who, q, LocalPayloads(init)), st, ix, now, who, q + |init|, e,
                  TakenLocals(ix, who.node, init), []);
    }
  }

  lemma {:induction false} CollectPaths(c: Channel, st: StoreState, ix: Index, now: int, who: Who, q: nat, e: nat,
                                        ls: seq<LocalHealth>, rs: seq<PathHealth>)
    requires Collecting(c, st, who, e, ls, [])
    ensures Collecting(FeedAll(c, ix, now, who, q, PathPayloads(rs)), st, who, e, ls, TakenPaths(ix, who.node, rs))
  {
    hide FeedOne, Collecting, AllowsPath, FeedAll, ToPathPB;
    if rs == [] {
      FeedNone(c, ix, now, who, q, PathPayloads(rs));
    } else {
      var init, r := rs[..|rs| - 1], rs[|rs| - 1];
      assert rs == init + [r];
      CollectPaths(c, st, ix, now, who, q, e, ls, init);
      assert PathPayloads(rs) == PathPayloads(init) + [Path(ToPathPB(r))];
      FeedLast(c, ix, now, who, q, PathPayloads(init), Path(ToPathPB(r)));
      OneBuffered(FeedAll(c, ix, now, who, q, PathPayloads(init)), st, ix, now, who, q + |init|, e, ls,
                  TakenPaths(ix, who.node, init));
    }
  }

  /** What a full publish has sent by the time its end is due. */
  function Opening(snap: Snapshot, e: nat): seq<Payload> {
    [SnapshotBegin(e, |snap.locals|, |snap.paths|)] + LocalPayloads(snap.locals) + PathPayloads(snap.paths)
  }

  lemma OpeningCollects(c: Channel, ix: Index, now: int, who: Who, q: nat, snap: Snapshot, e: nat)
    requires OwnStream(c, who)
    ensures Collecting(FeedAll(c, ix, now, who, q, Opening(snap, e)), c.store.Adopt(who.node, who.instance),
                       who, e, TakenLocals(ix, who.node, snap.locals), TakenPaths(ix, who.node, snap.paths))
  {
    hide FeedOne, OwnStream, Collecting, FeedAll, LocalPayloads, PathPayloads, StoreState.Adopt, TakenLocals, TakenPaths;
    var st := c.store.Adopt(who.node, who.instance);
    var begin := SnapshotBegin(e, |snap.locals|, |snap.paths|);
    var a, b := LocalPayloads(snap.locals), PathPayloads(snap.paths);
    PayloadCounts(snap.locals, snap.paths, []);
    FeedThen(c, ix, now, who, q, [begin] + a, b);
    FeedThen(c, ix, now, who, q, [begin], a);
    FeedLast(c, ix, now, who, q, [], begin);
    FeedNone(c, ix, now, who, q, []);
    assert [] + [begin] == [begin];
    OneBegin(c, ix, now, who, q, e, |snap.locals|, |snap.paths|);
    var c1 := FeedAll(c, ix, now, who, q, [begin]);
    CollectLocals(c1, st, ix, now, who, q + 1, e, snap.locals);
    CollectPaths(FeedAll(c1, ix, now, who, q + 1, a), st, ix, now, who, q + 1 + |a|, e,
                 TakenLocals(ix, who.node, snap.locals), snap.paths);
  }

  lemma ThenEnd(snap: Snapshot, e: nat)
    ensures FullPayloads(snap, e) == Opening(snap, e) + [SnapshotEnd(e)]
  {
    hide LocalPayloads, PathPayloads;
  }

  lemma AdoptionKeepsBound(c: Channel, who: Who, q: nat, q': nat)
    requires SeqBound(c.store, who.instance, q) && q <= q'
    ensures SeqBound(c.store.Adopt(who.node, who.instance), who.instance, q')
  {
  }

  /**
   A full publish replaces the node's evidence with what the registry knows of it, no more
   and no less, whether or not the stream was adopted yet.
   */
  lemma SnapshotLands(c: Channel, ix: Index, now: int, who: Who, q: nat, snap: Snapshot, e: nat)
    requires OwnStream(c, who) && SeqBound(c.store, who.instance, q)
    ensures
      var d, q' := FeedAll(c, ix, now, who, q, FullPayloads(snap, e)), q + |FullPayloads(snap, e)|;
      && Tuned(d, who, q')
      && d.store == c.store.Adopt(who.node, who.instance)
                      .AfterSnapshot(ReportOrigin(who.node, who.instance, q'), TakenLocals(ix, who.node, snap.locals),
                                     TakenPaths(ix, who.node, snap.paths), now)
  {
    hide FeedOne, OwnStream, Collecting, Tuned, SeqBound, FeedAll, Opening, FullPayloads, StoreState.Adopt,
      StoreState.AfterSnapshot, TakenLocals, TakenPaths;
    var st, ps := c.store.Adopt(who.node, who.instance), Opening(snap, e);
    AdoptionKeepsBound(c, who, q, q + |ps|);
    ThenEnd(snap, e);
    FeedLast(c, ix, now, who, q, ps, SnapshotEnd(e));
    OpeningCollects(c, ix, now, who, q, snap, e);
    OneEnd(FeedAll(c, ix, now, who, q, ps), st, ix, now, who, q + |ps|, e,
           TakenLocals(ix, who.node, snap.locals), TakenPaths(ix, who.node, snap.paths));
  }

  // ---------------------------------------------------------------- publishes that do not get through

  /** The payload speaks of this key. */
  predicate Names(p: Payload, kind: Kind, k: Key) {
    match p
    case Local(m) => kind == LocalKind && m.attachmentId == k
    case Path(m) => kind == PathKind && m.scopeId == k
    case Retired(id) => kind == LocalKind && id == k
    case _ => false
  }

  lemma HeardIsNamed(ix: Index, node: string, env: Envelope)
    ensures Heard(ix, node, env).Some? ==>
      var rep := Heard(ix, node, env).value;
      Names(env.payload, rep.Kind(), rep.Key())
  {
  }

  lemma EffectUnnamed(a: Session, st: StoreState, o: ReportOrigin, ix: Index, env: Envelope, now: int, kind: Kind, k: Key)
    requires !Names(env.payload, kind, k) && !env.payload.SnapshotEnd?
    ensures EvidenceAt(Effected(a, st, o, EffectOf(a, ix, env), now), kind, k) == EvidenceAt(st, kind, k)
  {
    HeardIsNamed(ix, a.node, env);
    hide Heard;
  }

  /** Outside a commit an envelope moves nothing but what it speaks of. */
  lemma OneUnnamed(c: Channel, ix: Index, now: int, env: Envelope, kind: Kind, k: Key)
    requires !Names(env.payload, kind, k) && !env.payload.SnapshotEnd?
    ensures EvidenceAt(FeedOne(c, ix, now, env).store, kind, k) == EvidenceAt(c.store, kind, k)
  {
    hide Handle, Admit, Names, EvidenceAt, Effected, EffectOf;
    if c.session.open {
      var a := Admit(c.session, c.store, env);
      TurnStore(c.session, c.store, ix, env, now);
      AdmissionKeeps(c.session, c.store, env, kind, k);
      EffectUnnamed(a.session, a.store, a.session.Origin(env.sequence), ix, env, now, kind, k);
    }
  }

  lemma {:induction false} FeedUnnamed(c: Channel, ix: Index, now: int, es: seq<Envelope>, kind: Kind, k: Key)
    requires forall e :: e in es ==> !Names(e.payload, kind, k) && !e.payload.SnapshotEnd?
    ensures EvidenceAt(Feed(c, ix, now, es).store, kind, k) == EvidenceAt(c.store, kind, k)
  {
    hide FeedOne, EvidenceAt, Names;
    if es != [] {
      FeedUnnamed(c, ix, now, es[..|es| - 1], kind, k);
      OneUnnamed(Feed(c, ix, now, es[..|es| - 1]), ix, now, es[|es| - 1], kind, k);
    }
  }

  lemma {:induction false} ChangedOnly(ls: seq<LocalHealth>, ps: seq<PathHealth>, changed: set<Key>)
    ensures forall r :: r in ChangedLocals(ls, changed) ==> r.attachmentID in changed
    ensures forall r :: r in ChangedPaths(ps, changed) ==> r.scopeID in changed
  {
    if ls != [] {
      ChangedOnly(ls[..|ls| - 1], ps, changed);
    } else if ps != [] {
      ChangedOnly(ls, ps[..|ps| - 1], changed);
    }
  }

  lemma DeltaNames(snap: Snapshot, p: Payload, kind: Kind, k: Key)
    requires p in DeltaPayloads(snap)
    ensures !p.SnapshotEnd?
    ensures Names(p, kind, k) ==> k in snap.changed || (kind == LocalKind && k in snap.retired)
  {
    ChangedOnly(snap.locals, snap.paths, snap.changed);
  }

  /** Deltas, however many of them arrive and whatever is made of them, move only what they speak of. */
  lemma DeltasMoveOnlyNamed(c: Channel, ix: Index, now: int, who: Who, q: nat, snap: Snapshot, ps: seq<Payload>, kind: Kind, k: Key)
    requires ps <= DeltaPayloads(snap)
    requires k !in snap.changed && (kind == LocalKind ==> k !in snap.retired)
    ensures EvidenceAt(FeedAll(c, ix, now, who, q, ps).store, kind, k) == EvidenceAt(c.store, kind, k)
  {
    hide Feed, Names, EvidenceAt, DeltaPayloads;
    var es := Numbered(who.node, who.instance, q, ps);
    forall e | e in es ensures !Names(e.payload, kind, k) && !e.payload.SnapshotEnd? {
      var i :| 0 <= i < |es| && es[i] == e;
      assert ps[i] == DeltaPayloads(snap)[i];
      DeltaNames(snap, e.payload, kind, k);
    }
    FeedUnnamed(c, ix, now, es, kind, k);
  }

  predicate InBracket(c: Channel) {
    c.session.open && c.session.adopted && c.session.inSnapshot
  }

  lemma OneInBracket(c: Channel, ix: Index, now: int, e: Envelope)
    requires InBracket(c) && (e.payload.Local? || e.payload.Path?)
    ensures InBracket(FeedOne(c, ix, now, e)) && FeedOne(c, ix, now, e).store == c.store
  {
    hide LocalFrom, PathFrom;
  }

  lemma {:induction false} FeedInBracket(c: Channel, ix: Index, now: int, es: seq<Envelope>)
    requires InBracket(c) && forall e :: e in es ==> e.payload.Local? || e.payload.Path?
    ensures InBracket(Feed(c, ix, now, es)) && Feed(c, ix, now, es).store == c.store
  {
    hide FeedOne, InBracket;
    if es != [] {
      FeedInBracket(c, ix, now, es[..|es| - 1]);
      OneInBracket(Feed(c, ix, now, es[..|es| - 1]), ix, now, es[|es| - 1]);
    }
  }

  lemma OneBeginOpens(c: Channel, ix: Index, now: int, who: Who, q: nat, e: nat, nl: nat, np: nat)
    requires OwnSession(c.session, who)
    ensures
      var d := FeedOne(c, ix, now, Numbers(who, q, SnapshotBegin(e, nl, np)));
      InBracket(d) && d.store == if c.session.adopted then c.store else c.store.Adopt(who.node, who.instance)
  {
  }

  /** A snapshot broken off before its end shows in the store as an adoption at most. */
  lemma OpeningIsUnseen(c: Channel, ix: Index, now: int, who: Who, q: nat, snap: Snapshot, e: nat, ps: seq<Payload>)
    requires OwnSession(c.session, who) && ps <= Opening(snap, e)
    ensures
      var d := FeedAll(c, ix, now, who, q, ps);
      && (d.store == c.store || (!c.session.adopted && d.store == c.store.Adopt(who.node, who.instance)))
      && (ps != [] ==> InBracket(d))
  {
    hide FeedOne, Feed, InBracket, OwnSession, StoreState.Adopt;
    if ps == [] {
      FeedNone(c, ix, now, who, q, ps);
    } else {
      var begin, rest := ps[0], ps[1..];
      assert ps == [] + [begin] + rest && [] + [begin] == [begin];
      FeedThen(c, ix, now, who, q, [begin], rest);
      FeedLast(c, ix, now, who, q, [], begin);
      FeedNone(c, ix, now, who, q, []);
      OneBeginOpens(c, ix, now, who, q, e, |snap.locals|, |snap.paths|);
      var es := Numbered(who.node, who.instance, q + 1, rest);
      forall x | x in es ensures x.payload.Local? || x.payload.Path? {
        var i :| 0 <= i < |es| && es[i] == x;
        assert ps[i + 1] == Opening(snap, e)[i + 1];
      }
      FeedInBracket(FeedAll(c, ix, now, who, q, [begin]), ix, now, es);
    }
  }

  lemma OpeningBegins(snap: Snapshot, e: nat)
    ensures Opening(snap, e) != []
  {
  }

  lemma OneRefusedEnd(c: Channel, ix: Index, now: int, e: Envelope)
    requires InBracket(c) && e.payload.SnapshotEnd? && !c.store.Current(c.session.Origin(0))
    ensures FeedOne(c, ix, now, e).store == c.store
  {
  }

  lemma HandleStaysAdopted(s: Session, st: StoreState, ix: Index, now: int, e: Envelope)
    requires s.adopted && s.open
    ensures var s' := Handle(s, st, ix, e, now).session; s'.adopted && s'.node == s.node && s'.instance == s.instance
  {
    hide LocalFrom, PathFrom, LocalOwners, PathOwners, OwnersOfLocals, OwnersOfPaths, StoreState.AfterSnapshot,
      StoreState.AfterLocal, StoreState.AfterPath, StoreState.AfterForget, StoreState.LocalResult, StoreState.PathResult,
      StoreState.Current;
  }

  lemma OneStaysAdopted(c: Channel, ix: Index, now: int, e: Envelope)
    requires c.session.adopted
    ensures
      var d := FeedOne(c, ix, now, e);
      && d.session.adopted && d.session.node == c.session.node && d.session.instance == c.session.instance
      && d.store.nodeInstance == c.store.nodeInstance
  {
    if c.session.open {
      HandleStaysAdopted(c.session, c.store, ix, now, e);
      TurnAuthority(c.session, c.store, ix, e, now);
    }
    hide Handle;
  }

  /** An adopted stream keeps its identity, and moves nobody's authority. */
  lemma {:induction false} StaysAdopted(c: Channel, ix: Index, now: int, es: seq<Envelope>)
    requires c.session.adopted
    ensures
      var d := Feed(c, ix, now, es);
      && d.session.adopted && d.session.node == c.session.node && d.session.instance == c.session.instance
      && d.store.nodeInstance == c.store.nodeInstance
  {
    if es != [] {
      StaysAdopted(c, ix, now, es[..|es| - 1]);
      OneStaysAdopted(Feed(c, ix, now, es[..|es| - 1]), ix, now, es[|es| - 1]);
    }
    hide FeedOne;
  }

  /** Once another process holds the node, neither a snapshot nor its beginning leaves a trace. */
  lemma SupersededSnapshot(c: Channel, ix: Index, now: int, who: Who, q: nat, snap: Snapshot, e: nat, ps: seq<Payload>)
    requires OwnSession(c.session, who) && c.session.adopted && !c.store.Current(ReportOrigin(who.node, who.instance, 0))
    requires ps <= FullPayloads(snap, e)
    ensures FeedAll(c, ix, now, who, q, ps).store == c.store
  {
    hide FeedOne, Feed, Numbered, InBracket, Opening, FullPayloads, StoreState.Adopt;
    ThenEnd(snap, e);
    OpeningBegins(snap, e);
    if ps <= Opening(snap, e) {
      OpeningIsUnseen(c, ix, now, who, q, snap, e, ps);
    } else {
      var o := Opening(snap, e);
      assert ps == o + [SnapshotEnd(e)];
      OpeningIsUnseen(c, ix, now, who, q, snap, e, o);
      FeedLast(c, ix, now, who, q, o, SnapshotEnd(e));
      StaysAdopted(c, ix, now, Numbered(who.node, who.instance, q, o));
      OneRefusedEnd(FeedAll(c, ix, now, who, q, o), ix, now, Numbers(who, q + |o|, SnapshotEnd(e)));
    }
  }
}
