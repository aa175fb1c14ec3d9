/**
 Lease safety: over every interleaved run, an attachment is ready only while two
 reports that agents were entitled to make are still within the freshness window.
 */
module Leases {
  import opened Ordering
  import opened HealthModel
  import opened Store
  import opened Readiness
  import opened Protocol

  /** Step i of the run delivers env to an open stream that speaks for (node, instance). */
  ghost predicate Speaking(r: Run, i: int, stream: nat, node: string, instance: string) {
    && 0 <= i < |r.events| && |r.states| == |r.events| + 1
    && r.events[i].Deliver? && r.events[i].stream == stream && stream in r.states[i].sessions
    && SpeaksFor(r.states[i], stream, r.events[i].env, node, instance)
  }

  /** At step i the stream delivered rep, and the registry let its node report that key. */
  ghost predicate Received(r: Run, i: int, stream: nat, node: string, instance: string, rep: Report) {
    && Speaking(r, i, stream, node, instance)
    && Heard(r.states[i].registry.index, node, r.events[i].env) == Some(rep)
    && Allows(r.states[i].registry.index, node, rep.Kind(), rep.Key())
  }

  /** At step j the store took rep from that stream, whose instance was then authoritative for its node. */
  ghost predicate Taken(r: Run, j: int, stream: nat, node: string, instance: string, rep: Report) {
    && Speaking(r, j, stream, node, instance)
    && node in r.states[j + 1].store.nodeInstance && r.states[j + 1].store.nodeInstance[node] == instance
    && EvidenceAt(r.states[j + 1].store, rep.Kind(), rep.Key())
       == Some(Evidence(rep, ReportOrigin(node, instance, r.events[j].env.sequence), r.states[j].clock))
  }

  /** From step j on, up to state n, the store holds one and the same acceptance under k. */
  ghost predicate Held(r: Run, j: int, n: int, kind: Kind, k: Key) {
    && 0 <= j < n < |r.states|
    && EvidenceAt(r.states[n].store, kind, k).Some?
    && forall m :: j < m <= n ==> EvidenceAt(r.states[m].store, kind, k) == EvidenceAt(r.states[n].store, kind, k)
  }

  datatype Lease = Lease(stream: nat, node: string, instance: string, received: int, taken: int)

  /** What stands behind the evidence under k in state n. */
  ghost predicate Backs(r: Run, n: int, kind: Kind, k: Key, w: Lease) {
    && Held(r, w.taken, n, kind, k)
    && w.received <= w.taken
    && var rep := EvidenceAt(r.states[n].store, kind, k).value.report;
       && rep.Kind() == kind && rep.Key() == k
       && Received(r, w.received, w.stream, w.node, w.instance, rep)
       && Taken(r, w.taken, w.stream, w.node, w.instance, rep)
  }

  /** Whatever is in an open stream's buffers it received earlier, under its own node and instance. */
  lemma {:induction false} BufferedWasReceived(r: Run, n: nat, stream: nat, rep: Report) returns (i: int)
    requires IsRun(r) && n < |r.states|
    requires stream in r.states[n].sessions && InBuffer(r.states[n].sessions[stream], rep)
    ensures i < n
    ensures Received(r, i, stream, r.states[n].sessions[stream].node, r.states[n].sessions[stream].instance, rep)
  {
    hide Next, Sound, Init, InBuffer, Heard, SpeaksFor, Allows;
    i := 0;
    StartsEmpty(r);
    if n > 0 {
      var before, e, after := r.states[n - 1], r.events[n - 1], r.states[n];
      StepOf(r, n - 1);
      RunSound(r, n - 1);
      BufferStep(before, e, after, stream, rep);
      if stream in before.sessions && InBuffer(before.sessions[stream], rep)
         && before.sessions[stream].node == after.sessions[stream].node
         && before.sessions[stream].instance == after.sessions[stream].instance {
        i := BufferedWasReceived(r, n - 1, stream, rep);
      } else {
        HeardIsAllowed(before.registry.index, after.sessions[stream].node, e.env);
        i := n - 1;
      }
    }
  }

  lemma NothingAtStart(r: Run, kind: Kind, k: Key)
    requires IsRun(r)
    ensures EvidenceAt(r.states[0].store, kind, k) == None && |r.states| == |r.events| + 1
  {
    StartsEmpty(r);
    hide Next;
  }

  /** Evidence written at step j is backed right after it. */
  lemma RewriteIsBacked(r: Run, j: nat, kind: Kind, k: Key) returns (w: Lease)
    requires IsRun(r) && j < |r.events| && r.events[j].Deliver? && r.events[j].stream in r.states[j].sessions
    requires EvidenceAt(r.states[j + 1].store, kind, k).Some?
    requires
      var ev := EvidenceAt(r.states[j + 1].store, kind, k).value;
      && Rewrites(r.states[j], r.events[j].stream, r.events[j].env, r.states[j + 1], ev)
      && ev.report.Kind() == kind && ev.report.Key() == k
    ensures Backs(r, j + 1, kind, k, w)
  {
    hide Next, Init, EvidenceAt, Heard, SpeaksFor, Allows, Report.Kind, Report.Key;
    var stream, env := r.events[j].stream, r.events[j].env;
    var a := Admitted(r.states[j], stream, env);
    var rep := EvidenceAt(r.states[j + 1].store, kind, k).value.report;
    w := Lease(stream, a.node, a.instance, j, j);
    HeardIsAllowed(r.states[j].registry.index, a.node, env);
    if Heard(r.states[j].registry.index, a.node, env) != Some(rep) {
      var i := BufferedWasReceived(r, j, stream, rep);
      w := w.(received := i);
    }
  }

  /** A step that leaves the evidence in place leaves it backed. */
  lemma StaysBacked(r: Run, n: nat, kind: Kind, k: Key, w: Lease)
    requires 0 < n < |r.states| && Backs(r, n - 1, kind, k, w)
    requires EvidenceAt(r.states[n].store, kind, k) == EvidenceAt(r.states[n - 1].store, kind, k)
    ensures Backs(r, n, kind, k, w)
  {
    hide EvidenceAt, Received, Taken;
  }

  /** Everything the store holds, in every reachable state, is backed. */
  lemma {:induction false} EvidenceIsBacked(r: Run, n: nat, kind: Kind, k: Key) returns (w: Lease)
    requires IsRun(r) && n < |r.states|
    requires EvidenceAt(r.states[n].store, kind, k).Some?
    ensures Backs(r, n, kind, k, w)
  {
    hide Next, Sound, Init, EvidenceAt, MarkedExpired, InBuffer, Heard, SpeaksFor, Admitted, Allows, Backs;
    NothingAtStart(r, kind, k);
    hide IsRun;
    if n > 0 {
      var before, e, after := r.states[n - 1], r.events[n - 1], r.states[n];
      var ev := EvidenceAt(after.store, kind, k);
      StepOf(r, n - 1);
      RunSound(r, n - 1);
      StepProvenance(before, e, after, kind, k);
      if EvidenceAt(before.store, kind, k) == ev {
        w := EvidenceIsBacked(r, n - 1, kind, k);
        StaysBacked(r, n, kind, k, w);
      } else {
        w := RewriteIsBacked(r, n - 1, kind, k);
      }
    }
  }

  ghost predicate PositiveLease(r: Run, n: nat, kind: Kind, k: Key, w: Lease)
    requires |r.states| == |r.events| + 1 && n < |r.states|
  {
    && Backs(r, n, kind, k, w)
    && EvidenceAt(r.states[n].store, kind, k).value.report.Positive()
    && r.states[n].clock - r.states[w.taken].clock <= r.states[n].store.ttl
  }

  /**
   Lease safety. If an attachment is ready at the end of a run, its Pod is ready and
   the run contains, for its local key and for its path key, a positive report that
   - was received on a stream whose node the registry of that moment allowed,
   - was taken into the store when that stream's instance was authoritative for the node,
     no longer ago than the freshness window, and
   - has been what the store holds ever since: nothing newer, and no retirement, replaced it.
   */
  lemma LeaseSafety(r: Run, n: nat, a: Attachment, scope: ProbeScope) returns (l: Lease, p: Lease)
    requires IsRun(r) && n < |r.states|
    requires ComputeReady(a, scope, r.states[n].store, r.states[n].clock).ready
    ensures a.podReady
    ensures PositiveLease(r, n, LocalKind, a.ID(), l)
    ensures PositiveLease(r, n, PathKind, a.PathKey(scope), p)
  {
    ReadyIsFiveTerms(a, scope, r.states[n].store, r.states[n].clock);
    l := EvidenceIsBacked(r, n, LocalKind, a.ID());
    p := EvidenceIsBacked(r, n, PathKind, a.PathKey(scope));
    hide IsRun, Received, Speaking, Held, Next;
  }

  /** The converse: two live positive leases and a ready Pod make the attachment ready. */
  lemma LeasesSuffice(r: Run, n: nat, a: Attachment, scope: ProbeScope, l: Lease, p: Lease)
    requires IsRun(r) && n < |r.states| && a.podReady
    requires PositiveLease(r, n, LocalKind, a.ID(), l)
    requires PositiveLease(r, n, PathKind, a.PathKey(scope), p)
    ensures ComputeReady(a, scope, r.states[n].store, r.states[n].clock).ready
  {
    ReadyIsFiveTerms(a, scope, r.states[n].store, r.states[n].clock);
    hide IsRun, Received, Speaking, Next;
  }
}
