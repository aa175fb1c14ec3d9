/**
 The authority agent reports are checked against (internal/controller/registry.go).

 The per-Service table is the truth; the four derived maps are an index over it,
 rebuilt after each change by iterating a Go map, that is, in any order. `Indexes`
 says declaratively what the index must be. It leaves one freedom, as the source
 does: when several attachments share an ID, any one of them may be the one kept.
 */
module RegistryIndex {
  import opened Ordering
  import opened HealthModel

  datatype ServiceKey = ServiceKey(namespace: string, name: string)

  datatype ServiceEntry = ServiceEntry(atts: seq<Attachment>, scope: ProbeScope)

  type ServiceTable = map<ServiceKey, ServiceEntry>

  /** One attachment as one Service registers it, with the keys it is filed under. */
  datatype Claim = Claim(service: ServiceKey, scope: ProbeScope, att: Attachment, id: Key, pathKey: Key)

  function ClaimFor(s: ServiceKey, scope: ProbeScope, a: Attachment): Claim {
    Claim(s, scope, a, a.ID(), a.PathKey(scope))
  }

  function Claims(t: ServiceTable): set<Claim> {
    set s, a | s in t && a in t[s].atts :: ClaimFor(s, t[s].scope, a)
  }

  datatype Index = Index(
    attachments: map<Key, Attachment>,
    attOwners: map<Key, seq<ServiceKey>>,
    pathOwners: map<Key, seq<ServiceKey>>,
    pathNodes: map<Key, set<string>>)
  {
    /** Registry.PathKeyOnNode: is this node the sole node behind the key? */
    predicate OnNode(pathKey: Key, node: string) {
      pathKey in pathNodes && |pathNodes[pathKey]| == 1 && node in pathNodes[pathKey]
    }
  }

  // ---------------------------------------------------------------- what the index means

  function ClaimID(c: Claim): Key { c.id }
  function ClaimPath(c: Claim): Key { c.pathKey }

  ghost predicate Claimed(cs: set<Claim>, id: Key, a: Attachment) {
    exists c :: c in cs && ClaimID(c) == id && c.att == a
  }

  ghost predicate AttachmentsExact(m: map<Key, Attachment>, cs: set<Claim>) {
    && (forall c :: c in cs ==> ClaimID(c) in m)
    && (forall id :: id in m ==> Claimed(cs, id, m[id]))
  }

  ghost predicate NoDuplicates(s: seq<ServiceKey>) {
    forall i, j :: 0 <= i < j < |s| ==> s[i] != s[j]
  }

  /** Service s registers something under key k. */
  ghost predicate Owns(cs: set<Claim>, keyOf: Claim -> Key, s: ServiceKey, k: Key) {
    exists c :: c in cs && c.service == s && keyOf(c) == k
  }

  ghost predicate OwnersExact(m: map<Key, seq<ServiceKey>>, cs: set<Claim>, keyOf: Claim -> Key) {
    && (forall c :: c in cs ==> keyOf(c) in m)
    && (forall k :: k in m ==> m[k] != [] && NoDuplicates(m[k]))
    && (forall k, s :: k in m ==> (s in m[k] <==> Owns(cs, keyOf, s, k)))
  }

  /** Something under path key pk lives on node n. */
  ghost predicate Covers(cs: set<Claim>, pk: Key, n: string) {
    exists c :: c in cs && ClaimPath(c) == pk && c.att.nodeName == n
  }

  ghost predicate NodesExact(m: map<Key, set<string>>, cs: set<Claim>) {
    && (forall c :: c in cs ==> ClaimPath(c) in m)
    && (forall pk :: pk in m ==> m[pk] != {})
    && (forall pk, n :: pk in m ==> (n in m[pk] <==> Covers(cs, pk, n)))
  }

  ghost predicate Indexes(ix: Index, cs: set<Claim>) {
    && AttachmentsExact(ix.attachments, cs)
    && OwnersExact(ix.attOwners, cs, ClaimID)
    && OwnersExact(ix.pathOwners, cs, ClaimPath)
    && NodesExact(ix.pathNodes, cs)
  }

  datatype RegistryState = RegistryState(table: ServiceTable, index: Index) {
    ghost predicate Valid() {
      Indexes(index, Claims(table))
    }
  }

  const EmptyIndex := Index(map[], map[], map[], map[])

  // ---------------------------------------------------------------- building it

  function OwnersAt(m: map<Key, seq<ServiceKey>>, k: Key): seq<ServiceKey> {
    if k in m then m[k] else []
  }

  function NodesAt(m: map<Key, set<string>>, k: Key): set<string> {
    if k in m then m[k] else {}
  }

  function AppendUnique(list: seq<ServiceKey>, s: ServiceKey): seq<ServiceKey> {
    if s in list then list else list + [s]
  }

  function AddOwner(m: map<Key, seq<ServiceKey>>, k: Key, s: ServiceKey): map<Key, seq<ServiceKey>> {
    m[k := AppendUnique(OwnersAt(m, k), s)]
  }

  /** The body of rebuildLocked's inner loop. */
  function AddClaim(ix: Index, c: Claim): Index {
    Index(
      ix.attachments[ClaimID(c) := c.att],
      AddOwner(ix.attOwners, ClaimID(c), c.service),
      AddOwner(ix.pathOwners, ClaimPath(c), c.service),
      ix.pathNodes[ClaimPath(c) := NodesAt(ix.pathNodes, ClaimPath(c)) + {c.att.nodeName}])
  }

  lemma OwnsGrows(cs: set<Claim>, keyOf: Claim -> Key, c: Claim, s: ServiceKey, k: Key)
    ensures Owns(cs + {c}, keyOf, s, k) <==> Owns(cs, keyOf, s, k) || (c.service == s && keyOf(c) == k)
  {
    if Owns(cs, keyOf, s, k) {
      var d :| d in cs && d.service == s && keyOf(d) == k;
      assert d in cs + {c};
    }
    assert c in cs + {c};
  }

  lemma CoversGrows(cs: set<Claim>, c: Claim, pk: Key, n: string)
    ensures Covers(cs + {c}, pk, n) <==> Covers(cs, pk, n) || (ClaimPath(c) == pk && c.att.nodeName == n)
  {
    if Covers(cs, pk, n) {
      var d :| d in cs && ClaimPath(d) == pk && d.att.nodeName == n;
      assert d in cs + {c};
    }
    assert c in cs + {c};
  }

  lemma AddAttachment(m: map<Key, Attachment>, cs: set<Claim>, c: Claim)
    requires AttachmentsExact(m, cs)
    ensures AttachmentsExact(m[ClaimID(c) := c.att], cs + {c})
  {
    var m', cs' := m[ClaimID(c) := c.att], cs + {c};
    forall id | id in m' ensures Claimed(cs', id, m'[id]) {
      if id == ClaimID(c) {
        assert c in cs';
      } else {
        var d :| d in cs && ClaimID(d) == id && d.att == m[id];
        assert d in cs';
      }
    }
  }

  lemma AddOwnerExact(m: map<Key, seq<ServiceKey>>, cs: set<Claim>, keyOf: Claim -> Key, c: Claim)
    requires OwnersExact(m, cs, keyOf)
    ensures OwnersExact(AddOwner(m, keyOf(c), c.service), cs + {c}, keyOf)
  {
    var m', cs' := AddOwner(m, keyOf(c), c.service), cs + {c};
    forall k, s | k in m' ensures s in m'[k] <==> Owns(cs', keyOf, s, k) {
      OwnsGrows(cs, keyOf, c, s, k);
    }
  }

  lemma AddNodeExact(m: map<Key, set<string>>, cs: set<Claim>, c: Claim)
    requires NodesExact(m, cs)
    ensures NodesExact(m[ClaimPath(c) := NodesAt(m, ClaimPath(c)) + {c.att.nodeName}], cs + {c})
  {
    var m' := m[ClaimPath(c) := NodesAt(m, ClaimPath(c)) + {c.att.nodeName}];
    forall pk, n | pk in m' ensures n in m'[pk] <==> Covers(cs + {c}, pk, n) {
      CoversGrows(cs, c, pk, n);
    }
  }

  /** The index may be built one claim at a time, in any order and with repeats. */
  lemma AddClaimIndexes(ix: Index, cs: set<Claim>, c: Claim)
    requires Indexes(ix, cs)
    ensures Indexes(AddClaim(ix, c), cs + {c})
  {
    AddAttachment(ix.attachments, cs, c);
    AddOwnerExact(ix.attOwners, cs, ClaimID, c);
    AddOwnerExact(ix.pathOwners, cs, ClaimPath, c);
    AddNodeExact(ix.pathNodes, cs, c);
  }

  function ClaimsOf(s: ServiceKey, scope: ProbeScope, atts: seq<Attachment>): set<Claim> {
    set a | a in atts :: ClaimFor(s, scope, a)
  }

  function AddClaims(ix: Index, s: ServiceKey, scope: ProbeScope, atts: seq<Attachment>): Index {
    if atts == [] then ix
    else AddClaim(AddClaims(ix, s, scope, atts[..|atts| - 1]), ClaimFor(s, scope, atts[|atts| - 1]))
  }

  lemma ClaimsOneByOne(cs: set<Claim>, s: ServiceKey, scope: ProbeScope, atts: seq<Attachment>)
    ensures cs + ClaimsOf(s, scope, atts) ==
      if atts == [] then cs
      else cs + ClaimsOf(s, scope, atts[..|atts| - 1]) + {ClaimFor(s, scope, atts[|atts| - 1])}
  {
    hide ClaimFor;
    if atts != [] {
      assert atts == atts[..|atts| - 1] + [atts[|atts| - 1]];
    }
  }

  lemma {:induction false} AddClaimsIndexes(ix: Index, cs: set<Claim>, s: ServiceKey, scope: ProbeScope, atts: seq<Attachment>)
    requires Indexes(ix, cs)
    ensures Indexes(AddClaims(ix, s, scope, atts), cs + ClaimsOf(s, scope, atts))
  {
    hide Indexes, AddClaim, ClaimFor, ClaimsOf;
    ClaimsOneByOne(cs, s, scope, atts);
    if atts != [] {
      var init, a := atts[..|atts| - 1], atts[|atts| - 1];
      AddClaimsIndexes(ix, cs, s, scope, init);
      AddClaimIndexes(AddClaims(ix, s, scope, init), cs + ClaimsOf(s, scope, init), ClaimFor(s, scope, a));
    }
  }

  lemma ClaimsExtend(t: ServiceTable, s: ServiceKey, e: ServiceEntry)
    requires s !in t
    ensures Claims(t[s := e]) == Claims(t) + ClaimsOf(s, e.scope, e.atts)
  {
    var t' := t[s := e];
    forall c | c in Claims(t) ensures c in Claims(t') {
      assert c.service in t && c.att in t[c.service].atts;
      assert t'[c.service] == t[c.service];
    }
    forall a | a in e.atts ensures ClaimFor(s, e.scope, a) in Claims(t') {
      assert a in t'[s].atts;
    }
  }

  /** rebuildLocked's inner loop, over one Service's attachments. */
  method IndexService(ix: Index, s: ServiceKey, e: ServiceEntry) returns (ix': Index)
    ensures ix' == AddClaims(ix, s, e.scope, e.atts)
  {
    ix' := ix;
    for i := 0 to |e.atts|
      invariant ix' == AddClaims(ix, s, e.scope, e.atts[..i])
    {
      assert e.atts[..i + 1][..i] == e.atts[..i];
      ix' := AddClaim(ix', ClaimFor(s, e.scope, e.atts[i]));
    }
    assert e.atts[..|e.atts|] == e.atts;
  }

  /** rebuildLocked's outer loop: the Services are visited in any order. */
  method BuildIndex(t: ServiceTable) returns (ix: Index)
    ensures Indexes(ix, Claims(t))
  {
    ix := EmptyIndex;
    var todo := t.Keys;
    ghost var done: ServiceTable := map[];
    assert Claims(done) == {};
    assert Indexes(ix, Claims(done));
    hide Indexes, Claims;
    while todo != {}
      invariant done.Keys == t.Keys - todo && todo <= t.Keys
      invariant forall s :: s in done ==> done[s] == t[s]
      invariant Indexes(ix, Claims(done))
    {
      var s :| s in todo;
      var e := t[s];
      AddClaimsIndexes(ix, Claims(done), s, e.scope, e.atts);
      ClaimsExtend(done, s, e);
      ix := IndexService(ix, s, e);
      done, todo := done[s := e], todo - {s};
    }
    assert done == t;
  }

  /** The keys of an owner map are the keys somebody owns. */
  lemma OwnersComplete(m: map<Key, seq<ServiceKey>>, cs: set<Claim>, keyOf: Claim -> Key, k: Key)
    requires OwnersExact(m, cs, keyOf)
    ensures k in m <==> exists s :: Owns(cs, keyOf, s, k)
  {
    if k in m {
      assert m[k][0] in m[k];
      assert Owns(cs, keyOf, m[k][0], k);
    }
  }

  lemma OwnedIsClaimed(attachments: map<Key, Attachment>, cs: set<Claim>, id: Key)
    requires AttachmentsExact(attachments, cs)
    ensures id in attachments <==> exists s :: Owns(cs, ClaimID, s, id)
  {
    if id in attachments {
      assert Claimed(cs, id, attachments[id]);
      var c :| c in cs && ClaimID(c) == id;
      assert Owns(cs, ClaimID, c.service, id);
    }
  }

  /** The three attachment-keyed maps agree on which ids are known. */
  lemma SameIDs(attachments: map<Key, Attachment>, owners: map<Key, seq<ServiceKey>>, cs: set<Claim>)
    requires AttachmentsExact(attachments, cs) && OwnersExact(owners, cs, ClaimID)
    ensures attachments.Keys == owners.Keys
  {
    hide OwnersExact;
    forall id ensures id in attachments <==> id in owners {
      OwnersComplete(owners, cs, ClaimID, id);
      OwnedIsClaimed(attachments, cs, id);
    }
  }

  lemma OwnedIsCovered(nodes: map<Key, set<string>>, cs: set<Claim>, pk: Key)
    requires NodesExact(nodes, cs)
    ensures pk in nodes <==> exists s :: Owns(cs, ClaimPath, s, pk)
  {
    if pk in nodes {
      var n :| n in nodes[pk];
      assert Covers(cs, pk, n);
      var c :| c in cs && ClaimPath(c) == pk;
      assert Owns(cs, ClaimPath, c.service, pk);
    }
  }

  lemma SamePathKeys(owners: map<Key, seq<ServiceKey>>, nodes: map<Key, set<string>>, cs: set<Claim>)
    requires OwnersExact(owners, cs, ClaimPath) && NodesExact(nodes, cs)
    ensures owners.Keys == nodes.Keys
  {
    hide OwnersExact;
    forall pk ensures pk in owners <==> pk in nodes {
      OwnersComplete(owners, cs, ClaimPath, pk);
      OwnedIsCovered(nodes, cs, pk);
    }
  }

  lemma SameKeys(ix: Index, cs: set<Claim>)
    requires Indexes(ix, cs)
    ensures ix.attachments.Keys == ix.attOwners.Keys && ix.pathOwners.Keys == ix.pathNodes.Keys
  {
    hide AttachmentsExact, OwnersExact, NodesExact;
    SameIDs(ix.attachments, ix.attOwners, cs);
    SamePathKeys(ix.pathOwners, ix.pathNodes, cs);
  }

  lemma AttachmentKnown(ix: Index, cs: set<Claim>, id: Key)
    requires Indexes(ix, cs)
    ensures id in ix.attachments <==> id in ix.attOwners
    ensures id in ix.attachments <==> exists s :: Owns(cs, ClaimID, s, id)
    ensures id in ix.attachments ==> exists c :: c in cs && c.id == id && c.att == ix.attachments[id]
    ensures forall s :: s in OwnersAt(ix.attOwners, id) <==> Owns(cs, ClaimID, s, id)
  {
    SameKeys(ix, cs);
    OwnersComplete(ix.attOwners, cs, ClaimID, id);
    if id in ix.attachments {
      assert Claimed(cs, id, ix.attachments[id]);
    }
  }

  // ---------------------------------------------------------------- authority

  lemma SingletonUnique<T>(s: set<T>, x: T, y: T)
    requires |s| == 1 && x in s && y in s
    ensures x == y
  {
    assert |s - {x}| == 0;
    assert y !in s - {x};
  }

  lemma OneElement<T>(s: set<T>, x: T)
    requires x in s && forall y :: y in s ==> y == x
    ensures |s| == 1
  {
    assert s == {x};
  }

  /** No path key ever authorises two nodes. */
  lemma OneAuthorityPerKey(ix: Index, pk: Key, n1: string, n2: string)
    requires ix.OnNode(pk, n1) && ix.OnNode(pk, n2)
    ensures n1 == n2
  {
    SingletonUnique(ix.pathNodes[pk], n1, n2);
  }

  /** A node may report under a key exactly when every claim on the key lives there. */
  lemma AuthorityMeansSoleNode(r: RegistryState, pk: Key, node: string)
    requires r.Valid()
    ensures r.index.OnNode(pk, node) <==>
            && Covers(Claims(r.table), pk, node)
            && forall c :: c in Claims(r.table) && ClaimPath(c) == pk ==> c.att.nodeName == node
  {
    var ix, cs := r.index, Claims(r.table);
    if ix.OnNode(pk, node) {
      forall c | c in cs && ClaimPath(c) == pk ensures c.att.nodeName == node {
        assert Covers(cs, pk, c.att.nodeName);
        SingletonUnique(ix.pathNodes[pk], node, c.att.nodeName);
      }
    } else if Covers(cs, pk, node) && forall c :: c in cs && ClaimPath(c) == pk ==> c.att.nodeName == node {
      var c :| c in cs && ClaimPath(c) == pk && c.att.nodeName == node;
      assert pk in ix.pathNodes;
      forall n | n in ix.pathNodes[pk] ensures n == node {
        assert Covers(cs, pk, n);
      }
      OneElement(ix.pathNodes[pk], node);
    }
  }

  /**
   A Node-scope key always has exactly one node behind it, whatever else the
   registry holds: its preimage names the node, and no attachment ID equals it.
   */
  lemma NodeScopeKeyHasOneNode(r: RegistryState, c: Claim)
    requires r.Valid() && c in Claims(r.table) && c.scope == Node
    requires forall d :: d in Claims(r.table) ==> d.att.NulFree()
    ensures r.index.OnNode(c.pathKey, c.att.nodeName)
  {
    var pk, cs := c.pathKey, Claims(r.table);
    forall d | d in cs && ClaimPath(d) == pk ensures d.att.nodeName == c.att.nodeName {
      if d.scope == Node {
        DomainIdentifies(d.att.nodeName, d.att.nad, c.att.nodeName, c.att.nad);
      } else {
        IDIsNoDomain(d.att, c.att.nodeName, c.att.nad);
      }
    }
    assert Covers(cs, pk, c.att.nodeName);
    AuthorityMeansSoleNode(r, pk, c.att.nodeName);
  }

  // ---------------------------------------------------------------- the registry as the source keeps it

  class Registry {
    var byService: ServiceTable
    var attachments: map<Key, Attachment>
    var attOwners: map<Key, seq<ServiceKey>>
    var pathOwners: map<Key, seq<ServiceKey>>
    var pathNodes: map<Key, set<string>>

    function State(): RegistryState
      reads this
    {
      RegistryState(byService, Index(attachments, attOwners, pathOwners, pathNodes))
    }

    ghost predicate Valid()
      reads this
    {
      State().Valid()
    }

    constructor ()
      ensures Valid() && byService == map[]
    {
      byService, attachments, attOwners, pathOwners, pathNodes := map[], map[], map[], map[], map[];
    }

    method SetService(key: ServiceKey, atts: seq<Attachment>, scope: ProbeScope)
      modifies this
      ensures Valid() && byService == old(byService)[key := ServiceEntry(atts, scope)]
    {
      byService := byService[key := ServiceEntry(atts, scope)];
      RebuildLocked();
    }

    method RemoveService(key: ServiceKey)
      modifies this
      ensures Valid() && byService == old(byService) - {key}
    {
      byService := byService - {key};
      RebuildLocked();
    }

    method RebuildLocked()
      modifies this
      ensures Valid() && byService == old(byService)
    {
      var ix := BuildIndex(byService);
      attachments, attOwners, pathOwners, pathNodes :=
        ix.attachments, ix.attOwners, ix.pathOwners, ix.pathNodes;
      hide Indexes, Claims;
    }

    /** The attachment under this id and every Service publishing it. */
    method Attachment(id: Key) returns (a: Option<Attachment>, owners: seq<ServiceKey>)
      requires Valid()
      ensures a.Some? <==> exists s :: Owns(Claims(byService), ClaimID, s, id)
      ensures a.Some? ==> a.value.ID() == id
      ensures forall s :: s in owners <==> Owns(Claims(byService), ClaimID, s, id)
      ensures a == if id in attachments then Some(attachments[id]) else None
      ensures owners == OwnersAt(attOwners, id)
    {
      AttachmentKnown(State().index, Claims(byService), id);
      hide Indexes;
      if id !in attachments {
        return None, [];
      }
      a, owners := Some(attachments[id]), attOwners[id];
    }

    method PathKey(key: Key) returns (owners: seq<ServiceKey>, ok: bool)
      requires Valid()
      ensures ok <==> exists s :: Owns(Claims(byService), ClaimPath, s, key)
      ensures forall s :: s in owners <==> Owns(Claims(byService), ClaimPath, s, key)
      ensures ok <==> key in pathOwners
      ensures owners == OwnersAt(pathOwners, key)
    {
      OwnersComplete(pathOwners, Claims(byService), ClaimPath, key);
      if key !in pathOwners {
        return [], false;
      }
      owners, ok := pathOwners[key], true;
    }

    method PathKeyOnNode(pathKey: Key, node: string) returns (ok: bool)
      requires Valid()
      ensures ok <==>
        && Covers(Claims(byService), pathKey, node)
        && forall c :: c in Claims(byService) && c.pathKey == pathKey ==> c.att.nodeName == node
      ensures ok <==> State().index.OnNode(pathKey, node)
    {
      AuthorityMeansSoleNode(State(), pathKey, node);
      hide Indexes, Claims, Covers;
      if pathKey !in pathNodes {
        return false;
      }
      ok := |pathNodes[pathKey]| == 1 && node in pathNodes[pathKey];
    }
  }
}
