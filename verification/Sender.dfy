/**
 The agent's bookkeeping and its sink (internal/agent/agent.go, internal/agent/grpc_sink.go):
 what a sweep remembers and marks as changed, and how a sweep's findings are put on
 the wire, as a full snapshot or as deltas.
 */
module Sender {
  import opened Ordering
  import opened HealthModel
  import opened Messages
  import opened Store

  // ---------------------------------------------------------------- the agent's memory

  type Memory = map<Key, bool>   // attachment ID -> last observed local verdict

  function Live(obs: seq<LocalHealth>): set<Key> {
    set r | r in obs :: r.attachmentID
  }

  /** transition, applied to each observation of a sweep in turn. */
  function Remembered(prev: Memory, obs: seq<LocalHealth>): Memory {
    if obs == [] then prev
    else
      var r := obs[|obs| - 1];
      Remembered(prev, obs[..|obs| - 1])[r.attachmentID := r.Ready()]
  }

  predicate Moves(prev: Memory, r: LocalHealth) {
    r.attachmentID !in prev || prev[r.attachmentID] != r.Ready()
  }

  function ChangedBy(prev: Memory, obs: seq<LocalHealth>): set<Key> {
    if obs == [] then {}
    else
      var init, r := obs[..|obs| - 1], obs[|obs| - 1];
      ChangedBy(prev, init) + if Moves(Remembered(prev, init), r) then {r.attachmentID} else {}
  }

  /** What a sweep leaves remembered: the live ids, each with its last verdict. */
  function Retained(prev: Memory, obs: seq<LocalHealth>): Memory {
    map id | id in Remembered(prev, obs) && id in Live(obs) :: Remembered(prev, obs)[id]
  }

  /** Some observation of the sweep found the attachment otherwise than it was remembered. */
  predicate SeenOtherwise(obs: seq<LocalHealth>, id: Key, was: bool) {
    exists i :: 0 <= i < |obs| && obs[i].attachmentID == id
                && (obs[i].interfaceExists && obs[i].addressPresent && obs[i].linkUsable) != was
  }

  lemma SeenOtherwiseMore(obs: seq<LocalHealth>, id: Key, was: bool)
    requires obs != []
    ensures
      var r := obs[|obs| - 1];
      SeenOtherwise(obs, id, was) <==>
        SeenOtherwise(obs[..|obs| - 1], id, was)
        || (r.attachmentID == id && (r.interfaceExists && r.addressPresent && r.linkUsable) != was)
  {
    var n := |obs| - 1;
    if SeenOtherwise(obs[..n], id, was) {
      var i :| 0 <= i < n && obs[..n][i].attachmentID == id
               && (obs[..n][i].interfaceExists && obs[..n][i].addressPresent && obs[..n][i].linkUsable) != was;
      assert obs[i].attachmentID == id;
    }
    if SeenOtherwise(obs, id, was) {
      var i :| 0 <= i < |obs| && obs[i].attachmentID == id
               && (obs[i].interfaceExists && obs[i].addressPresent && obs[i].linkUsable) != was;
      assert i < n ==> obs[..n][i].attachmentID == id;
    }
  }

  /** Memory after a sweep is the sweep itself, and an unchanged id was seen only with its old verdict. */
  lemma {:induction false} SweepMeaning(prev: Memory, obs: seq<LocalHealth>, id: Key)
    ensures
      var m, last := Remembered(prev, obs), LastFor(obs, LocalKey, id);
      && (last.Some? <==> id in Live(obs))
      && (last.Some? ==> id in m && m[id] == last.value.Ready())
      && (last.None? ==> (id in m <==> id in prev) && (id in prev ==> m[id] == prev[id]))
      && (id !in ChangedBy(prev, obs) && last.Some? ==> id in prev && m[id] == prev[id])
      && (id in ChangedBy(prev, obs) ==> last.Some?)
  {
    if obs != [] {
      var init := obs[..|obs| - 1];
      SweepMeaning(prev, init, id);
      assert obs == init + [obs[|obs| - 1]];
    }
  }

  /**
   What a sweep marks as changed: the attachments it saw and did not know, and those it
   saw at some point with another verdict than the one remembered.
   */
  lemma {:induction false} ChangedMeaning(prev: Memory, obs: seq<LocalHealth>, id: Key)
    ensures id in ChangedBy(prev, obs) <==>
      id in Live(obs) && (id !in prev || SeenOtherwise(obs, id, prev[id]))
  {
    if obs != [] {
      var n := |obs| - 1;
      var init, r := obs[..n], obs[n];
      ChangedMeaning(prev, init, id);
      SweepMeaning(prev, init, id);
      if id in prev {
        SeenOtherwiseMore(obs, id, prev[id]);
      }
      assert obs == init + [r];
      hide SeenOtherwise, LastFor;
    }
  }

  lemma OneMoreObserved(prev: Memory, obs: seq<LocalHealth>, i: int)
    requires 0 <= i < |obs|
    ensures Remembered(prev, obs[..i + 1]) == Remembered(prev, obs[..i])[obs[i].attachmentID := obs[i].Ready()]
    ensures ChangedBy(prev, obs[..i + 1])
         == ChangedBy(prev, obs[..i]) + if Moves(Remembered(prev, obs[..i]), obs[i]) then {obs[i].attachmentID} else {}
    ensures Live(obs[..i + 1]) == Live(obs[..i]) + {obs[i].attachmentID}
  {
    assert obs[..i + 1][..i] == obs[..i];
    assert obs[..i + 1] == obs[..i] + [obs[i]];
  }

  class Agent {
    var prev: Memory

    constructor ()
      ensures prev == map[]
    {
      prev := map[];
    }

    /** Has this attachment's local readiness just moved, or is it new? */
    method Transition(r: LocalHealth) returns (changed: bool)
      modifies this
      ensures prev == old(prev)[r.attachmentID := r.Ready()]
      ensures changed <==> Moves(old(prev), r)
      ensures changed <==>
        r.attachmentID !in old(prev)
        || old(prev)[r.attachmentID] != (r.interfaceExists && r.addressPresent && r.linkUsable)
    {
      var known := r.attachmentID in prev;
      var was := known && prev[r.attachmentID];
      prev := prev[r.attachmentID := r.Ready()];
      if !known {
        return true;
      }
      return was != r.Ready();
    }

    /** Forgets what vanished; the ids come back in no particular order. */
    method Retire(live: set<Key>) returns (gone: seq<Key>)
      modifies this
      ensures prev == map id | id in old(prev) && id in live :: old(prev)[id]
      ensures forall id :: id in gone <==> id in old(prev) && id !in live
      ensures forall i, j :: 0 <= i < j < |gone| ==> gone[i] != gone[j]
    {
      gone := [];
      var todo := prev.Keys;
      while todo != {}
        invariant todo <= prev.Keys && prev == old(prev)
        invariant forall id :: id in gone <==> id in prev && id !in todo && id !in live
        invariant forall i, j :: 0 <= i < j < |gone| ==> gone[i] != gone[j]
      {
        var id :| id in todo;
        todo := todo - {id};
        if id !in live {
          gone := gone + [id];
        }
      }
      prev := prev - (set id | id in gone);
    }

    /** The bookkeeping of one sweep over the observations it managed to make. */
    method Sweep(obs: seq<LocalHealth>) returns (changed: set<Key>, retired: seq<Key>)
      modifies this
      ensures prev == Retained(old(prev), obs)
      ensures changed == ChangedBy(old(prev), obs)
      ensures forall id :: id in retired <==> id in old(prev) && id !in Live(obs)
    {
      changed := {};
      var live := {};
      assert obs[..0] == [];
      assert changed == ChangedBy(prev, obs[..0]) && prev == Remembered(prev, obs[..0]) && live == Live(obs[..0]);
      hide Remembered, ChangedBy, Live, LocalHealth.Ready;
      for i := 0 to |obs|
        invariant prev == Remembered(old(prev), obs[..i])
        invariant changed == ChangedBy(old(prev), obs[..i])
        invariant live == Live(obs[..i])
      {
        OneMoreObserved(old(prev), obs, i);
        live := live + {obs[i].attachmentID};
        var moved := Transition(obs[i]);
        if moved {
          changed := changed + {obs[i].attachmentID};
        }
      }
      assert obs[..|obs|] == obs;
      forall id ensures id in Remembered(old(prev), obs) <==> id in old(prev) || id in live {
        SweepMeaning(old(prev), obs, id);
      }
      retired := Retire(live);
    }
  }

  // ---------------------------------------------------------------- what a publish puts on the wire

  datatype Snapshot = Snapshot(locals: seq<LocalHealth>, paths: seq<PathHealth>, changed: set<Key>, retired: seq<Key>)

  function LocalPayloads(rs: seq<LocalHealth>): seq<Payload> {
    seq(|rs|, i requires 0 <= i < |rs| => Local(ToLocalPB(rs[i])))
  }

  function PathPayloads(rs: seq<PathHealth>): seq<Payload> {
    seq(|rs|, i requires 0 <= i < |rs| => Path(ToPathPB(rs[i])))
  }

  function RetiredPayloads(ids: seq<Key>): seq<Payload> {
    seq(|ids|, i requires 0 <= i < |ids| => Retired(ids[i]))
  }

  function ChangedLocals(rs: seq<LocalHealth>, changed: set<Key>): seq<LocalHealth> {
    if rs == [] then []
    else
      var r := rs[|rs| - 1];
      ChangedLocals(rs[..|rs| - 1], changed) + if r.attachmentID in changed then [r] else []
  }

  function ChangedPaths(rs: seq<PathHealth>, changed: set<Key>): seq<PathHealth> {
    if rs == [] then []
    else
      var r := rs[|rs| - 1];
      ChangedPaths(rs[..|rs| - 1], changed) + if r.scopeID in changed then [r] else []
  }

  lemma OneMoreLocal(rs: seq<LocalHealth>, r: LocalHealth)
    ensures LocalPayloads(rs + [r]) == LocalPayloads(rs) + [Local(ToLocalPB(r))]
  {
  }

  lemma OneMorePath(rs: seq<PathHealth>, r: PathHealth)
    ensures PathPayloads(rs + [r]) == PathPayloads(rs) + [Path(ToPathPB(r))]
  {
  }

  lemma NoneChanged(rs: seq<LocalHealth>, ps: seq<PathHealth>, changed: set<Key>)
    requires rs == [] && ps == []
    ensures LocalPayloads(ChangedLocals(rs, changed)) == [] && PathPayloads(ChangedPaths(ps, changed)) == []
  {
  }

  lemma OneMoreChanged(rs: seq<LocalHealth>, ps: seq<PathHealth>, changed: set<Key>, i: int)
    ensures 0 <= i < |rs| ==>
      ChangedLocals(rs[..i + 1], changed)
        == ChangedLocals(rs[..i], changed) + if rs[i].attachmentID in changed then [rs[i]] else []
    ensures 0 <= i < |ps| ==>
      ChangedPaths(ps[..i + 1], changed)
        == ChangedPaths(ps[..i], changed) + if ps[i].scopeID in changed then [ps[i]] else []
  {
    if 0 <= i < |rs| {
      assert rs[..i + 1][..i] == rs[..i];
    }
    if 0 <= i < |ps| {
      assert ps[..i + 1][..i] == ps[..i];
    }
  }

  function FullPayloads(snap: Snapshot, epoch: nat): seq<Payload> {
    [SnapshotBegin(epoch, |snap.locals|, |snap.paths|)] + LocalPayloads(snap.locals) + PathPayloads(snap.paths)
      + [SnapshotEnd(epoch)]
  }

  function DeltaPayloads(snap: Snapshot): seq<Payload> {
    LocalPayloads(ChangedLocals(snap.locals, snap.changed)) + PathPayloads(ChangedPaths(snap.paths, snap.changed))
      + RetiredPayloads(snap.retired)
  }

  /** Envelopes carry consecutive numbers of the process-wide counter, the first being from + 1. */
  function Numbered(node: string, instance: string, from: nat, ps: seq<Payload>): seq<Envelope> {
    seq(|ps|, i requires 0 <= i < |ps| => Envelope(node, instance, from + i + 1, ps[i]))
  }

  datatype SinkState = SinkState(
    nodeName: string, instanceID: string, refresh: int,
    connected: bool, needSnapshot: bool, lastSnapshot: Option<int>,
    seqNo: nat, epoch: nat)
  {
    /** Is a full snapshot due? */
    predicate Full(now: int) {
      needSnapshot || lastSnapshot.None? || now - lastSnapshot.value >= refresh
    }

    function Payloads(snap: Snapshot, now: int): seq<Payload> {
      if Full(now) then FullPayloads(snap, epoch + 1) else DeltaPayloads(snap)
    }

    /** The envelopes a publish gets out when the stream still takes `room` sends. */
    function SentBy(snap: Snapshot, now: int, room: nat): seq<Envelope> {
      if !connected then []
      else
        var ps := Payloads(snap, now);
        Numbered(nodeName, instanceID, seqNo, if |ps| <= room then ps else ps[..room])
    }

    predicate Succeeds(snap: Snapshot, now: int, room: nat) {
      connected && |Payloads(snap, now)| <= room
    }

    /** A failed send has already drawn its sequence number; a failed snapshot stays due. */
    function AfterPublish(snap: Snapshot, now: int, room: nat): SinkState {
      if !connected then this
      else
        var ps := Payloads(snap, now);
        var s := this.(epoch := if Full(now) then epoch + 1 else epoch);
        if |ps| <= room then
          var t := s.(seqNo := seqNo + |ps|);
          if Full(now) then t.(needSnapshot := false, lastSnapshot := Some(now)) else t
        else s.(seqNo := seqNo + room + 1)
    }
  }

  /** A snapshot is due: one is owed, or none has gone out, or the last is a refresh period old. */
  predicate SnapshotDue(k: SinkState, now: int) {
    k.needSnapshot || k.lastSnapshot.None? || now - k.lastSnapshot.value >= k.refresh
  }

  /**
   What a publish puts on the wire: a bracket when a snapshot is due, of a new epoch and
   everything found; else no bracket. Envelopes are numbered on from the last number
   drawn, and only a failed send draws one that is not sent. A snapshot that went out
   whole pays the debt; nothing else does.
   */
  lemma PublishMeaning(k: SinkState, snap: Snapshot, now: int, room: nat)
    requires k.connected
    ensures
      var sent, k', full := k.SentBy(snap, now, room), k.AfterPublish(snap, now, room), SnapshotDue(k, now);
      var ok := k.Succeeds(snap, now, room);
      && |sent| <= room && (!ok ==> |sent| == room)
      && k'.seqNo == k.seqNo + |sent| + (if ok then 0 else 1)
      && (forall i :: 0 <= i < |sent| ==>
            sent[i].nodeName == k.nodeName && sent[i].agentInstanceId == k.instanceID && sent[i].sequence == k.seqNo + 1 + i)
      && k'.epoch == (if full then k.epoch + 1 else k.epoch)
      && (full && sent != [] ==> sent[0].payload == SnapshotBegin(k.epoch + 1, |snap.locals|, |snap.paths|))
      && (full && ok ==> sent != [] && sent[|sent| - 1].payload == SnapshotEnd(k.epoch + 1)
                         && |sent| == |snap.locals| + |snap.paths| + 2)
      && (!full ==> forall i :: 0 <= i < |sent| ==> !sent[i].payload.SnapshotBegin? && !sent[i].payload.SnapshotEnd?)
      && k'.needSnapshot == (k.needSnapshot && !(full && ok))
      && k'.lastSnapshot == (if full && ok then Some(now) else k.lastSnapshot)
  {
    hide ChangedLocals, ChangedPaths;
  }

  /** The counter, what the current stream has carried, and how many more sends it will take before it breaks. */
  datatype Wire = Wire(seqNo: nat, sent: seq<Envelope>, room: nat)

  /** From w to w' the payloads ps were sent: all of them, or up to the first that did not fit, which failed. */
  predicate Attempted(node: string, instance: string, w: Wire, w': Wire, ps: seq<Payload>, ok: bool) {
    if ok then
      |ps| <= w.room && w' == Wire(w.seqNo + |ps|, w.sent + Numbered(node, instance, w.seqNo, ps), w.room - |ps|)
    else
      && w.room < |ps|
      && w' == Wire(w.seqNo + w.room + 1, w.sent + Numbered(node, instance, w.seqNo, ps[..w.room]), 0)
  }

  lemma AttemptedThen(node: string, instance: string, w: Wire, w1: Wire, w2: Wire, ps: seq<Payload>, qs: seq<Payload>, ok: bool)
    requires Attempted(node, instance, w, w1, ps, true) && Attempted(node, instance, w1, w2, qs, ok)
    ensures Attempted(node, instance, w, w2, ps + qs, ok)
  {
    if ok {
      assert w2.sent == w.sent + Numbered(node, instance, w.seqNo, ps + qs);
    } else {
      assert (ps + qs)[..w.room] == ps + qs[..w1.room];
      assert w2.sent == w.sent + Numbered(node, instance, w.seqNo, (ps + qs)[..w.room]);
    }
  }

  lemma AttemptedNone(node: string, instance: string, w: Wire)
    ensures Attempted(node, instance, w, w, [], true)
  {
  }

  lemma AttemptedPrefix(node: string, instance: string, w: Wire, w': Wire, ps: seq<Payload>, all: seq<Payload>)
    requires Attempted(node, instance, w, w', ps, false) && ps <= all
    ensures Attempted(node, instance, w, w', all, false)
  {
    assert ps[..w.room] == all[..w.room];
  }

  lemma {:induction false} ChangedLocalsPrefix(rs: seq<LocalHealth>, changed: set<Key>, i: nat)
    requires i <= |rs|
    ensures ChangedLocals(rs[..i], changed) <= ChangedLocals(rs, changed)
    decreases |rs| - i
  {
    if i < |rs| {
      assert rs[..i + 1][..i] == rs[..i];
      ChangedLocalsPrefix(rs, changed, i + 1);
    } else {
      assert rs[..i] == rs;
    }
  }

  lemma {:induction false} ChangedPathsPrefix(rs: seq<PathHealth>, changed: set<Key>, i: nat)
    requires i <= |rs|
    ensures ChangedPaths(rs[..i], changed) <= ChangedPaths(rs, changed)
    decreases |rs| - i
  {
    if i < |rs| {
      assert rs[..i + 1][..i] == rs[..i];
      ChangedPathsPrefix(rs, changed, i + 1);
    } else {
      assert rs[..i] == rs;
    }
  }

  class GRPCSink {
    const nodeName: string
    const instanceID: string
    const refresh: int
    var connected: bool
    var needSnapshot: bool
    var lastSnapshot: Option<int>
    var seqNo: nat
    var epoch: nat
    var wire: seq<Envelope>
    var room: nat

    function State(): SinkState
      reads this
    {
      SinkState(nodeName, instanceID, refresh, connected, needSnapshot, lastSnapshot, seqNo, epoch)
    }

    function OnWire(): Wire
      reads this
    {
      Wire(seqNo, wire, room)
    }

    predicate Sent(w: Wire, ps: seq<Payload>, ok: bool)
      reads this
    {
      Attempted(nodeName, instanceID, w, OnWire(), ps, ok)
    }

    constructor (nodeName: string, instanceID: string, refresh: int)
      ensures State() == SinkState(nodeName, instanceID, refresh, false, false, None, 0, 0)
      ensures wire == []
    {
      this.nodeName, this.instanceID, this.refresh := nodeName, instanceID, refresh;
      connected, needSnapshot, lastSnapshot, seqNo, epoch := false, false, None, 0, 0;
      wire, room := [], 0;
    }

    /** session's bookkeeping when a stream opens: it begins with a full snapshot. */
    method StreamOpened(room: nat)
      modifies this
      ensures State() == old(State()).(connected := true, needSnapshot := true)
      ensures wire == [] && this.room == room
    {
      connected, needSnapshot := true, true;
      wire, this.room := [], room;
    }

    method StreamClosed()
      modifies this`connected
      ensures State() == old(State()).(connected := false)
    {
      connected := false;
    }

    method AckReceived(a: Ack)
      modifies this`needSnapshot
      ensures State() == if a.resyncRequired then old(State()).(needSnapshot := true) else old(State())
    {
      if a.resyncRequired {
        needSnapshot := true;
      }
    }

    /** Publish: a full snapshot when one is due, else just what changed. */
    method Publish(snap: Snapshot, now: int) returns (ok: bool)
      modifies this
      ensures State() == old(State()).AfterPublish(snap, now, old(room))
      ensures wire == old(wire) + old(State()).SentBy(snap, now, old(room))
      ensures ok <==> old(State()).Succeeds(snap, now, old(room))
    {
      var full := needSnapshot || lastSnapshot.None? || now - lastSnapshot.value >= refresh;
      if !connected {
        return false;
      }
      if full {
        ok := SendSnapshot(snap);
        if ok {
          needSnapshot, lastSnapshot := false, Some(now);
        }
      } else {
        ok := SendDeltas(snap);
      }
      hide FullPayloads, DeltaPayloads, Numbered;
    }

    /** envelope and stream.Send: the counter moves whether or not the send succeeds. */
    method Send(p: Payload) returns (ok: bool)
      modifies this`seqNo, this`wire, this`room
      ensures Sent(old(OnWire()), [p], ok)
    {
      seqNo := seqNo + 1;
      ok := room > 0;
      if ok {
        wire, room := wire + [Envelope(nodeName, instanceID, seqNo, p)], room - 1;
      }
    }

    method SendSnapshot(snap: Snapshot) returns (ok: bool)
      modifies this`seqNo, this`wire, this`room, this`epoch
      ensures epoch == old(epoch) + 1
      ensures Sent(old(OnWire()), FullPayloads(snap, epoch), ok)
    {
      hide Attempted, LocalPayloads, PathPayloads;
      epoch := epoch + 1;
      ghost var w, all := OnWire(), FullPayloads(snap, epoch);
      var begin := SnapshotBegin(epoch, |snap.locals|, |snap.paths|);
      ghost var ps := [begin];
      ok := Send(begin);
      if !ok {
        AttemptedPrefix(nodeName, instanceID, w, OnWire(), ps, all);
        return;
      }
      ghost var w1 := OnWire();
      ok := SendLocals(snap.locals);
      AttemptedThen(nodeName, instanceID, w, w1, OnWire(), ps, LocalPayloads(snap.locals), ok);
      ps := ps + LocalPayloads(snap.locals);
      if !ok {
        AttemptedPrefix(nodeName, instanceID, w, OnWire(), ps, all);
        return;
      }
      w1 := OnWire();
      ok := SendPaths(snap.paths);
      AttemptedThen(nodeName, instanceID, w, w1, OnWire(), ps, PathPayloads(snap.paths), ok);
      ps := ps + PathPayloads(snap.paths);
      if !ok {
        AttemptedPrefix(nodeName, instanceID, w, OnWire(), ps, all);
        return;
      }
      w1 := OnWire();
      ok := Send(SnapshotEnd(epoch));
      AttemptedThen(nodeName, instanceID, w, w1, OnWire(), ps, [SnapshotEnd(epoch)], ok);
    }

    method SendLocals(rs: seq<LocalHealth>) returns (ok: bool)
      modifies this`seqNo, this`wire, this`room
      ensures Sent(old(OnWire()), LocalPayloads(rs), ok)
    {
      ghost var w := OnWire();
      for i := 0 to |rs|
        invariant Sent(w, LocalPayloads(rs[..i]), true)
      {
        ghost var w1, p := OnWire(), Local(ToLocalPB(rs[i]));
        ok := Send(Local(ToLocalPB(rs[i])));
        AttemptedThen(nodeName, instanceID, w, w1, OnWire(), LocalPayloads(rs[..i]), [p], ok);
        assert LocalPayloads(rs[..i]) + [p] == LocalPayloads(rs[..i + 1]);
        if !ok {
          AttemptedPrefix(nodeName, instanceID, w, OnWire(), LocalPayloads(rs[..i + 1]), LocalPayloads(rs));
          return;
        }
      }
      assert rs[..|rs|] == rs;
      ok := true;
    }

    method SendPaths(rs: seq<PathHealth>) returns (ok: bool)
      modifies this`seqNo, this`wire, this`room
      ensures Sent(old(OnWire()), PathPayloads(rs), ok)
    {
      ghost var w := OnWire();
      for i := 0 to |rs|
        invariant Sent(w, PathPayloads(rs[..i]), true)
      {
        ghost var w1, p := OnWire(), Path(ToPathPB(rs[i]));
        ok := Send(Path(ToPathPB(rs[i])));
        AttemptedThen(nodeName, instanceID, w, w1, OnWire(), PathPayloads(rs[..i]), [p], ok);
        assert PathPayloads(rs[..i]) + [p] == PathPayloads(rs[..i + 1]);
        if !ok {
          AttemptedPrefix(nodeName, instanceID, w, OnWire(), PathPayloads(rs[..i + 1]), PathPayloads(rs));
          return;
        }
      }
      assert rs[..|rs|] == rs;
      ok := true;
    }

    method SendDeltas(snap: Snapshot) returns (ok: bool)
      modifies this`seqNo, this`wire, this`room
      ensures Sent(old(OnWire()), DeltaPayloads(snap), ok)
    {
      hide Attempted, LocalPayloads, PathPayloads, RetiredPayloads;
      ghost var w, all := OnWire(), DeltaPayloads(snap);
      ghost var ps := LocalPayloads(ChangedLocals(snap.locals, snap.changed));
      ok := SendChangedLocals(snap.locals, snap.changed);
      if !ok {
        AttemptedPrefix(nodeName, instanceID, w, OnWire(), ps, all);
        return;
      }
      ghost var w1, qs := OnWire(), PathPayloads(ChangedPaths(snap.paths, snap.changed));
      ok := SendChangedPaths(snap.paths, snap.changed);
      AttemptedThen(nodeName, instanceID, w, w1, OnWire(), ps, qs, ok);
      ps := ps + qs;
      if !ok {
        AttemptedPrefix(nodeName, instanceID, w, OnWire(), ps, all);
        return;
      }
      w1 := OnWire();
      ok := SendRetired(snap.retired);
      AttemptedThen(nodeName, instanceID, w, w1, OnWire(), ps, RetiredPayloads(snap.retired), ok);
    }

    method SendChangedLocals(rs: seq<LocalHealth>, changed: set<Key>) returns (ok: bool)
      modifies this`seqNo, this`wire, this`room
      ensures Sent(old(OnWire()), LocalPayloads(ChangedLocals(rs, changed)), ok)
    {
      NoneChanged([], [], changed);
      assert rs[..0] == [];
      hide ChangedLocals, ChangedPaths, LocalPayloads, PathPayloads, Attempted;
      ghost var w := OnWire();
      AttemptedNone(nodeName, instanceID, w);
      for i := 0 to |rs|
        invariant Sent(w, LocalPayloads(ChangedLocals(rs[..i], changed)), true)
      {
        OneMoreChanged(rs, [], changed, i);
        if rs[i].attachmentID !in changed {
          continue;
        }
        ghost var w1, done, p := OnWire(), ChangedLocals(rs[..i], changed), Local(ToLocalPB(rs[i]));
        ok := Send(Local(ToLocalPB(rs[i])));
        AttemptedThen(nodeName, instanceID, w, w1, OnWire(), LocalPayloads(done), [p], ok);
        OneMoreLocal(done, rs[i]);
        if !ok {
          ChangedLocalsPrefix(rs, changed, i + 1);
          AttemptedPrefix(nodeName, instanceID, w, OnWire(), LocalPayloads(done + [rs[i]]), LocalPayloads(ChangedLocals(rs, changed)));
          return;
        }
      }
      assert rs[..|rs|] == rs;
      ok := true;
    }

    method SendChangedPaths(rs: seq<PathHealth>, changed: set<Key>) returns (ok: bool)
      modifies this`seqNo, this`wire, this`room
      ensures Sent(old(OnWire()), PathPayloads(ChangedPaths(rs, changed)), ok)
    {
      NoneChanged([], [], changed);
      assert rs[..0] == [];
      hide ChangedLocals, ChangedPaths, LocalPayloads, PathPayloads, Attempted;
      ghost var w := OnWire();
      AttemptedNone(nodeName, instanceID, w);
      for i := 0 to |rs|
        invariant Sent(w, PathPayloads(ChangedPaths(rs[..i], changed)), true)
      {
        OneMoreChanged([], rs, changed, i);
        if rs[i].scopeID !in changed {
          continue;
        }
        ghost var w1, done, p := OnWire(), ChangedPaths(rs[..i], changed), Path(ToPathPB(rs[i]));
        ok := Send(Path(ToPathPB(rs[i])));
        AttemptedThen(nodeName, instanceID, w, w1, OnWire(), PathPayloads(done), [p], ok);
        OneMorePath(done, rs[i]);
        if !ok {
          ChangedPathsPrefix(rs, changed, i + 1);
          AttemptedPrefix(nodeName, instanceID, w, OnWire(), PathPayloads(done + [rs[i]]), PathPayloads(ChangedPaths(rs, changed)));
          return;
        }
      }
      assert rs[..|rs|] == rs;
      ok := true;
    }

    method SendRetired(ids: seq<Key>) returns (ok: bool)
      modifies this`seqNo, this`wire, this`room
      ensures Sent(old(OnWire()), RetiredPayloads(ids), ok)
    {
      ghost var w := OnWire();
      for i := 0 to |ids|
        invariant Sent(w, RetiredPayloads(ids[..i]), true)
      {
        ghost var w1, p := OnWire(), Retired(ids[i]);
        ok := Send(Retired(ids[i]));
        AttemptedThen(nodeName, instanceID, w, w1, OnWire(), RetiredPayloads(ids[..i]), [p], ok);
        assert RetiredPayloads(ids[..i]) + [p] == RetiredPayloads(ids[..i + 1]);
        if !ok {
          AttemptedPrefix(nodeName, instanceID, w, OnWire(), RetiredPayloads(ids[..i + 1]), RetiredPayloads(ids));
          return;
        }
      }
      assert ids[..|ids|] == ids;
      ok := true;
    }
  }
}
