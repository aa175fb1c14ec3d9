/** A superseded agent process can no longer move evidence, and finds out. */
module Fencing {
  import opened HealthModel
  import opened Messages
  import opened Store
  import opened RegistryIndex
  import opened Server
  import opened Protocol

  /** This event makes some instance authoritative for the node. */
  ghost predicate Adopts(s: System, e: Event, node: string) {
    && e.Deliver? && e.stream in s.sessions && !s.sessions[e.stream].adopted
    && Admitted(s, e.stream, e.env).adopted && Admitted(s, e.stream, e.env).node == node
  }

  /** The stream was adopted for the node under an instance that is no longer the node's. */
  predicate Superseded(s: System, stream: nat, node: string) {
    && stream in s.sessions && s.sessions[stream].adopted && s.sessions[stream].node == node
    && node in s.store.nodeInstance && s.store.nodeInstance[node] != s.sessions[stream].instance
  }

  /** Authority over a node moves only by adoption on that node. */
  lemma StepKeepsAuthority(s: System, e: Event, s': System, node: string)
    requires Sound(s) && Next(s, e, s') && !Adopts(s, e, node)
    ensures node in s'.store.nodeInstance <==> node in s.store.nodeInstance
    ensures node in s.store.nodeInstance ==> s'.store.nodeInstance[node] == s.store.nodeInstance[node]
  {
    if e.Deliver? {
      TurnAuthority(s.sessions[e.stream], s.store, s.registry.index, e.env, s.clock);
    }
    hide RegistryState.Valid, Handle, MarkAll, DropDead;
  }

  lemma {:induction false} AuthorityLasts(r: Run, i: nat, m: nat, node: string, b: string)
    requires IsRun(r) && i <= m < |r.states|
    requires node in r.states[i].store.nodeInstance && r.states[i].store.nodeInstance[node] == b
    requires forall j :: i <= j < m ==> !Adopts(r.states[j], r.events[j], node)
    ensures node in r.states[m].store.nodeInstance && r.states[m].store.nodeInstance[node] == b
  {
    if i < m {
      hide Next, Init, Sound, Adopts;
      AuthorityLasts(r, i, m - 1, node, b);
      StepOf(r, m - 1);
      RunSound(r, m - 1);
      StepKeepsAuthority(r.states[m - 1], r.events[m - 1], r.states[m], node);
    }
  }

  /** The envelope is one that makes a superseded stream end: an admissible delta, or a matching SnapshotEnd. */
  predicate Exposes(s: Session, ix: Index, env: Envelope) {
    && env.agentInstanceId == s.instance
    && match env.payload
       case SnapshotEnd(e) => s.inSnapshot && e == s.epoch
       case _ => !s.inSnapshot && Heard(ix, s.node, env).Some?
  }

  /**
   One turn of a superseded stream: the store changes in no way, except that Retired,
   which checks no authority, still drops the named local entry; and the stream ends
   exactly on an exposing envelope.
   */
  lemma SupersededTurn(s: System, stream: nat, env: Envelope, node: string)
    requires Sound(s) && Superseded(s, stream, node)
    ensures
      var sess, s' := s.sessions[stream], Delivered(s, stream, env);
      && (s'.store == if env.agentInstanceId == sess.instance && env.payload.Retired?
                      then s.store.AfterForget(env.payload.attachmentId) else s.store)
      && (stream !in s'.sessions <==> Exposes(sess, s.registry.index, env))
  {
    hide RegistryState.Valid, LocalFrom, PathFrom, LocalOwners, PathOwners, OwnersOfLocals, OwnersOfPaths, PutAll, DropNode;
  }

  /**
   Generation fencing over runs. From the moment instance b is authoritative for a
   node until the next adoption there, no Local, Path or SnapshotEnd of a stream with
   another instance changes the store, and such a stream survives an envelope only if
   the envelope does not expose it.
   */
  lemma Fenced(r: Run, i: nat, m: nat, node: string, b: string)
    requires IsRun(r) && i <= m < |r.events|
    requires node in r.states[i].store.nodeInstance && r.states[i].store.nodeInstance[node] == b
    requires forall j :: i <= j < m ==> !Adopts(r.states[j], r.events[j], node)
    requires r.events[m].Deliver? && r.events[m].stream in r.states[m].sessions
    requires
      var sess := r.states[m].sessions[r.events[m].stream];
      sess.adopted && sess.node == node && sess.instance != b
    ensures !r.events[m].env.payload.Retired? ==> r.states[m + 1].store == r.states[m].store
    ensures r.states[m + 1].store.path == r.states[m].store.path
    ensures
      var stream := r.events[m].stream;
      stream !in r.states[m + 1].sessions <==>
        Exposes(r.states[m].sessions[stream], r.states[m].registry.index, r.events[m].env)
  {
    hide Init, Sound, Exposes, Delivered;
    AuthorityLasts(r, i, m, node, b);
    StepOf(r, m);
    RunSound(r, m);
    SupersededTurn(r.states[m], r.events[m].stream, r.events[m].env, node);
  }

  /** The exception is real: a superseded stream's Retired removes an entry its successor reported. */
  lemma RetiredIsNotFenced(s: System, stream: nat, node: string, id: Key, sequence: nat)
    requires Sound(s) && Superseded(s, stream, node) && id in s.store.local
    ensures
      var env := Envelope(node, s.sessions[stream].instance, sequence, Retired(id));
      id !in Delivered(s, stream, env).store.local
  {
    SupersededTurn(s, stream, Envelope(node, s.sessions[stream].instance, sequence, Retired(id)), node);
    hide Sound, Handle;
  }
}
