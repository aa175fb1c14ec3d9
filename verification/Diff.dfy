/** When an existing slice already says what is wanted (internal/controller/endpointslice.go). */
module Diff {
  import opened Ordering
  import opened Slices

  /** The endpoint fields this controller manages; an absent field reads as its zero value. */
  datatype EpKey = EpKey(
    addr: string, ready: bool, serving: bool, terminating: bool,
    hostname: string, nodeName: string, targetUID: string, targetName: string)

  datatype PortKey = PortKey(name: string, proto: string, port: int)

  function EpKeyOf(e: SliceEndpoint): EpKey {
    EpKey(
      if |e.addresses| > 0 then e.addresses[0] else "",
      e.ready.GetOr(false), e.serving.GetOr(false), e.terminating.GetOr(false),
      e.hostname.GetOr(""), e.nodeName.GetOr(""),
      if e.target.Some? then e.target.value.uid else "",
      if e.target.Some? then e.target.value.name else "")
  }

  function PortKeyOf(p: Port): PortKey {
    PortKey(p.name.GetOr(""), p.protocol.GetOr("TCP"), p.port.GetOr(0))
  }

  function EpKeys(s: Slice): seq<EpKey> {
    seq(|s.endpoints|, i requires 0 <= i < |s.endpoints| => EpKeyOf(s.endpoints[i]))
  }

  function PortKeys(s: Slice): seq<PortKey> {
    seq(|s.ports|, i requires 0 <= i < |s.ports| => PortKeyOf(s.ports[i]))
  }

  function Lookup(m: map<string, string>, k: string): string {
    if k in m then m[k] else ""
  }

  /** The managed fields that are single values. */
  predicate SameFields(have: Slice, want: Slice) {
    && have.addressType == want.addressType
    && Lookup(have.labels, SERVICE_NAME) == Lookup(want.labels, SERVICE_NAME)
    && Lookup(have.labels, MANAGED_BY_LABEL) == Lookup(want.labels, MANAGED_BY_LABEL)
    && Lookup(have.annotations, NETWORK_ANNOTATION) == Lookup(want.annotations, NETWORK_ANNOTATION)
  }

  /** The two slices say the same in every managed field; endpoints and ports are unordered. */
  ghost predicate SameManaged(have: Slice, want: Slice) {
    && SameFields(have, want)
    && multiset(PortKeys(have)) == multiset(PortKeys(want))
    && multiset(EpKeys(have)) == multiset(EpKeys(want))
  }

  // ---------------------------------------------------------------- the same, field by field

  function FirstAddress(e: SliceEndpoint): string {
    if e.addresses == [] then "" else e.addresses[0]
  }

  /** Two endpoints agree in what this controller manages; an absent field reads as its zero value. */
  predicate SameEndpoint(e: SliceEndpoint, w: SliceEndpoint) {
    && FirstAddress(e) == FirstAddress(w)
    && e.ready.GetOr(false) == w.ready.GetOr(false)
    && e.serving.GetOr(false) == w.serving.GetOr(false)
    && e.terminating.GetOr(false) == w.terminating.GetOr(false)
    && e.hostname.GetOr("") == w.hostname.GetOr("")
    && e.nodeName.GetOr("") == w.nodeName.GetOr("")
    && (if e.target.Some? then e.target.value.uid else "") == (if w.target.Some? then w.target.value.uid else "")
    && (if e.target.Some? then e.target.value.name else "") == (if w.target.Some? then w.target.value.name else "")
  }

  predicate SamePort(p: Port, q: Port) {
    && p.name.GetOr("") == q.name.GetOr("")
    && p.protocol.GetOr("TCP") == q.protocol.GetOr("TCP")
    && p.port.GetOr(0) == q.port.GetOr(0)
  }

  /** p pairs the wanted endpoints one to one with existing ones that agree with them. */
  ghost predicate EndpointsPaired(have: Slice, want: Slice, p: seq<nat>) {
    && |have.endpoints| == |want.endpoints| && Pairing(p, |want.endpoints|)
    && forall i :: 0 <= i < |want.endpoints| ==> SameEndpoint(have.endpoints[p[i]], want.endpoints[i])
  }

  ghost predicate PortsPaired(have: Slice, want: Slice, q: seq<nat>) {
    && |have.ports| == |want.ports| && Pairing(q, |want.ports|)
    && forall i :: 0 <= i < |want.ports| ==> SamePort(have.ports[q[i]], want.ports[i])
  }

  /** The two slices say the same: type, labels, network, and their ports and endpoints, one to one. */
  ghost predicate SaysTheSame(have: Slice, want: Slice) {
    && have.addressType == want.addressType
    && Lookup(have.labels, "kubernetes.io/service-name") == Lookup(want.labels, "kubernetes.io/service-name")
    && Lookup(have.labels, "endpointslice.kubernetes.io/managed-by") == Lookup(want.labels, "endpointslice.kubernetes.io/managed-by")
    && Lookup(have.annotations, "secondary-service.boanlab.io/network")
         == Lookup(want.annotations, "secondary-service.boanlab.io/network")
    && (exists p :: EndpointsPaired(have, want, p))
    && (exists q :: PortsPaired(have, want, q))
  }

  lemma KeysCompareFields(e: SliceEndpoint, w: SliceEndpoint)
    ensures EpKeyOf(e) == EpKeyOf(w) <==> SameEndpoint(e, w)
  {
  }

  lemma PortKeysCompareFields(p: Port, q: Port)
    ensures PortKeyOf(p) == PortKeyOf(q) <==> SamePort(p, q)
  {
  }

  lemma EndpointsPairUp(have: Slice, want: Slice, p: seq<nat>)
    ensures EndpointsPaired(have, want, p) <==> PairsUp(EpKeys(have), EpKeys(want), p)
  {
    hide EpKeyOf, SameEndpoint;
    forall e, w ensures EpKeyOf(e) == EpKeyOf(w) <==> SameEndpoint(e, w) {
      KeysCompareFields(e, w);
    }
  }

  lemma PortsPairUp(have: Slice, want: Slice, q: seq<nat>)
    ensures PortsPaired(have, want, q) <==> PairsUp(PortKeys(have), PortKeys(want), q)
  {
    hide PortKeyOf, SamePort;
    forall a, b ensures PortKeyOf(a) == PortKeyOf(b) <==> SamePort(a, b) {
      PortKeysCompareFields(a, b);
    }
  }

  lemma SameEndpointsMeaning(have: Slice, want: Slice)
    ensures multiset(EpKeys(have)) == multiset(EpKeys(want)) <==> exists p :: EndpointsPaired(have, want, p)
  {
    hide EpKeys, EndpointsPaired, PairsUp;
    if multiset(EpKeys(have)) == multiset(EpKeys(want)) {
      var p := PermutationPairs(EpKeys(have), EpKeys(want));
      EndpointsPairUp(have, want, p);
    }
    if exists p :: EndpointsPaired(have, want, p) {
      var p :| EndpointsPaired(have, want, p);
      EndpointsPairUp(have, want, p);
      PairsPermute(EpKeys(have), EpKeys(want), p);
    }
  }

  lemma SamePortsMeaning(have: Slice, want: Slice)
    ensures multiset(PortKeys(have)) == multiset(PortKeys(want)) <==> exists q :: PortsPaired(have, want, q)
  {
    hide PortKeys, PortsPaired, PairsUp;
    if multiset(PortKeys(have)) == multiset(PortKeys(want)) {
      var q := PermutationPairs(PortKeys(have), PortKeys(want));
      PortsPairUp(have, want, q);
    }
    if exists q :: PortsPaired(have, want, q) {
      var q :| PortsPaired(have, want, q);
      PortsPairUp(have, want, q);
      PairsPermute(PortKeys(have), PortKeys(want), q);
    }
  }

  /** What the compared projections amount to, field by field and slice by slice. */
  lemma ManagedMeaning(have: Slice, want: Slice)
    ensures SameManaged(have, want) <==> SaysTheSame(have, want)
  {
    hide EpKeys, PortKeys, EndpointsPaired, PortsPaired;
    SameEndpointsMeaning(have, want);
    SamePortsMeaning(have, want);
  }

  // ---------------------------------------------------------------- the comparison

  predicate AddrLess(a: EpKey, b: EpKey) {
    StrLess(a.addr, b.addr)
  }

  predicate PortLess(a: PortKey, b: PortKey) {
    if a.name != b.name then StrLess(a.name, b.name) else a.port < b.port
  }

  lemma PortNegTransitive(x: PortKey, y: PortKey, z: PortKey)
    requires !PortLess(x, y) && !PortLess(y, z)
    ensures !PortLess(x, z)
  {
    StrLessTotal(x.name, y.name);
    StrLessTotal(y.name, z.name);
    if x.name != y.name && y.name != z.name {
      StrLessTransitive(z.name, y.name, x.name);
      StrLessAsymmetric(z.name, x.name);
    } else if x.name != y.name {
      StrLessAsymmetric(y.name, x.name);
    } else if y.name != z.name {
      StrLessAsymmetric(z.name, y.name);
    }
  }

  lemma Orders()
    ensures WeakOrder(AddrLess) && WeakOrder(PortLess)
  {
    forall x: EpKey, y: EpKey | AddrLess(x, y) ensures !AddrLess(y, x) {
      StrLessAsymmetric(x.addr, y.addr);
    }
    forall x: EpKey, y: EpKey, z: EpKey | !AddrLess(x, y) && !AddrLess(y, z) ensures !AddrLess(x, z) {
      StrLessNegTransitive(x.addr, y.addr, z.addr);
    }
    forall x: PortKey, y: PortKey | PortLess(x, y) ensures !PortLess(y, x) {
      if x.name != y.name {
        StrLessAsymmetric(x.name, y.name);
      }
    }
    forall x: PortKey, y: PortKey, z: PortKey | !PortLess(x, y) && !PortLess(y, z) ensures !PortLess(x, z) {
      PortNegTransitive(x, y, z);
    }
  }

  /** No two endpoints share an address, and no two ports share name and number. */
  ghost predicate Separable(s: Slice) {
    Tieless(EpKeys(s), AddrLess) && Tieless(PortKeys(s), PortLess)
  }

  predicate SameNameAndNumber(p: Port, q: Port) {
    p.name.GetOr("") == q.name.GetOr("") && p.port.GetOr(0) == q.port.GetOr(0)
  }

  lemma AddrTies(a: EpKey, b: EpKey)
    ensures !AddrLess(a, b) && !AddrLess(b, a) <==> a.addr == b.addr
  {
    StrLessTotal(a.addr, b.addr);
    StrLessIrreflexive(a.addr);
  }

  lemma EndpointTies(s: Slice)
    ensures Tieless(EpKeys(s), AddrLess) <==>
      forall i, j :: 0 <= i < |s.endpoints| && 0 <= j < |s.endpoints| ==>
        FirstAddress(s.endpoints[i]) == FirstAddress(s.endpoints[j]) ==> SameEndpoint(s.endpoints[i], s.endpoints[j])
  {
    hide AddrLess, SameEndpoint;
    var es, ks := s.endpoints, EpKeys(s);
    forall i, j | 0 <= i < |es| && 0 <= j < |es|
      ensures !AddrLess(ks[i], ks[j]) && !AddrLess(ks[j], ks[i]) <==> FirstAddress(es[i]) == FirstAddress(es[j])
      ensures ks[i] == ks[j] <==> SameEndpoint(es[i], es[j])
    {
      AddrTies(ks[i], ks[j]);
      KeysCompareFields(es[i], es[j]);
    }
  }

  lemma PortLessTies(a: PortKey, b: PortKey)
    ensures !PortLess(a, b) && !PortLess(b, a) <==> a.name == b.name && a.port == b.port
  {
    StrLessTotal(a.name, b.name);
    StrLessIrreflexive(a.name);
  }

  lemma PortTies(s: Slice)
    ensures Tieless(PortKeys(s), PortLess) <==>
      forall i, j :: 0 <= i < |s.ports| && 0 <= j < |s.ports| ==>
        SameNameAndNumber(s.ports[i], s.ports[j]) ==> SamePort(s.ports[i], s.ports[j])
  {
    hide PortLess, SamePort;
    var ps, ks := s.ports, PortKeys(s);
    forall i, j | 0 <= i < |ps| && 0 <= j < |ps|
      ensures !PortLess(ks[i], ks[j]) && !PortLess(ks[j], ks[i]) <==> SameNameAndNumber(ps[i], ps[j])
      ensures ks[i] == ks[j] <==> SamePort(ps[i], ps[j])
    {
      PortLessTies(ks[i], ks[j]);
      PortKeysCompareFields(ps[i], ps[j]);
    }
  }

  /**
   No ties: endpoints that share their first address agree in everything managed, and so
   do ports that share name and number.
   */
  lemma SeparableMeaning(s: Slice)
    ensures Separable(s) <==>
      && (forall i, j :: 0 <= i < |s.endpoints| && 0 <= j < |s.endpoints| ==>
            FirstAddress(s.endpoints[i]) == FirstAddress(s.endpoints[j]) ==> SameEndpoint(s.endpoints[i], s.endpoints[j]))
      && (forall i, j :: 0 <= i < |s.ports| && 0 <= j < |s.ports| ==>
            SameNameAndNumber(s.ports[i], s.ports[j]) ==> SamePort(s.ports[i], s.ports[j]))
  {
    EndpointTies(s);
    PortTies(s);
  }

  /** The projection reads this endpoint. */
  predicate ReadsEndpoint(k: EpKey, e: SliceEndpoint) {
    && k.addr == FirstAddress(e)
    && k.ready == e.ready.GetOr(false) && k.serving == e.serving.GetOr(false) && k.terminating == e.terminating.GetOr(false)
    && k.hostname == e.hostname.GetOr("") && k.nodeName == e.nodeName.GetOr("")
    && k.targetUID == (if e.target.Some? then e.target.value.uid else "")
    && k.targetName == (if e.target.Some? then e.target.value.name else "")
  }

  predicate ReadsPort(k: PortKey, p: Port) {
    k.name == p.name.GetOr("") && k.proto == p.protocol.GetOr("TCP") && k.port == p.port.GetOr(0)
  }

  lemma ProjectedEndpoints(s: Slice, out: seq<EpKey>)
    requires multiset(EpKeys(s)) == multiset(out)
    ensures |out| == |s.endpoints|
    ensures exists p :: Pairing(p, |out|) && forall i :: 0 <= i < |out| ==> ReadsEndpoint(out[i], s.endpoints[p[i]])
  {
    var p := PermutationPairs(EpKeys(s), out);
    assert forall i :: 0 <= i < |out| ==> ReadsEndpoint(out[i], s.endpoints[p[i]]);
  }

  lemma ProjectedPorts(s: Slice, out: seq<PortKey>)
    requires multiset(PortKeys(s)) == multiset(out)
    ensures |out| == |s.ports|
    ensures exists p :: Pairing(p, |out|) && forall i :: 0 <= i < |out| ==> ReadsPort(out[i], s.ports[p[i]])
  {
    var p := PermutationPairs(PortKeys(s), out);
    assert forall i :: 0 <= i < |out| ==> ReadsPort(out[i], s.ports[p[i]]);
  }

  method ProjectEndpoints(s: Slice) returns (out: seq<EpKey>)
    ensures multiset(out) == multiset(EpKeys(s)) && SortedBy(out, AddrLess)
    ensures |out| == |s.endpoints|
    ensures exists p :: Pairing(p, |out|) && forall i :: 0 <= i < |out| ==> ReadsEndpoint(out[i], s.endpoints[p[i]])
    ensures forall i, j :: 0 <= i < j < |out| ==> !StrLess(out[j].addr, out[i].addr)
  {
    out := [];
    for i := 0 to |s.endpoints|
      invariant out == EpKeys(s)[..i]
    {
      out := out + [EpKeyOf(s.endpoints[i])];
    }
    assert EpKeys(s)[..|s.endpoints|] == EpKeys(s);
    Orders();
    out := Sort(out, AddrLess);
    ProjectedEndpoints(s, out);
  }

  method ProjectPorts(s: Slice) returns (out: seq<PortKey>)
    ensures multiset(out) == multiset(PortKeys(s)) && SortedBy(out, PortLess)
    ensures |out| == |s.ports|
    ensures exists p :: Pairing(p, |out|) && forall i :: 0 <= i < |out| ==> ReadsPort(out[i], s.ports[p[i]])
    ensures forall i, j :: 0 <= i < j < |out| ==>
      if out[i].name == out[j].name then out[i].port <= out[j].port else !StrLess(out[j].name, out[i].name)
  {
    out := [];
    for i := 0 to |s.ports|
      invariant out == PortKeys(s)[..i]
    {
      out := out + [PortKeyOf(s.ports[i])];
    }
    assert PortKeys(s)[..|s.ports|] == PortKeys(s);
    Orders();
    out := Sort(out, PortLess);
    ProjectedPorts(s, out);
  }

  method EqualSlices<T(==)>(a: seq<T>, b: seq<T>) returns (same: bool)
    ensures same <==> a == b
  {
    if |a| != |b| {
      return false;
    }
    for i := 0 to |a|
      invariant a[..i] == b[..i]
    {
      if a[i] != b[i] {
        return false;
      }
    }
    assert a[..|a|] == a && b[..|b|] == b;
    return true;
  }

  /** Sorted projections agree only if their multisets do, and without ties also if they do. */
  lemma SortedAgree<T>(a: seq<T>, b: seq<T>, have: seq<T>, want: seq<T>, less: (T, T) -> bool)
    requires multiset(a) == multiset(have) && multiset(b) == multiset(want)
    requires SortedBy(a, less) && SortedBy(b, less)
    ensures a == b ==> multiset(have) == multiset(want)
    ensures multiset(have) == multiset(want) && Tieless(want, less) ==> a == b
  {
    if multiset(have) == multiset(want) && Tieless(want, less) {
      TielessPerm(want, a, less);
      SortedUnique(a, b, less);
    }
  }

  ghost predicate Compares(have: Slice, want: Slice, hp: seq<PortKey>, wp: seq<PortKey>, he: seq<EpKey>, we: seq<EpKey>) {
    && SortsTo(PortKeys(have), PortLess, hp) && SortsTo(PortKeys(want), PortLess, wp)
    && SortsTo(EpKeys(have), AddrLess, he) && SortsTo(EpKeys(want), AddrLess, we)
  }

  /** An answer sliceUpToDate may give, by how the four sorts of its projections come out. */
  ghost predicate MayAnswer(have: Slice, want: Slice, same: bool) {
    exists hp, wp, he, we :: Compares(have, want, hp, wp, he, we) && same == (SameFields(have, want) && hp == wp && he == we)
  }

  lemma Answers(have: Slice, want: Slice, hp: seq<PortKey>, wp: seq<PortKey>, he: seq<EpKey>, we: seq<EpKey>)
    requires Compares(have, want, hp, wp, he, we)
    ensures MayAnswer(have, want, SameFields(have, want) && hp == wp && he == we)
  {
  }

  /** What the answer means: a yes is always true, and without ties so is a no. */
  lemma AnswerMeaning(have: Slice, want: Slice, same: bool)
    requires MayAnswer(have, want, same)
    ensures same ==> SaysTheSame(have, want)
    ensures Separable(want) ==> (same <==> SaysTheSame(have, want))
  {
    hide SaysTheSame;
    ManagedMeaning(have, want);
    hide EpKeys, PortKeys, AddrLess, PortLess, SortedBy, Tieless, SameFields;
    var hp, wp, he, we :| Compares(have, want, hp, wp, he, we) && same == (SameFields(have, want) && hp == wp && he == we);
    SortedAgree(hp, wp, PortKeys(have), PortKeys(want), PortLess);
    SortedAgree(he, we, EpKeys(have), EpKeys(want), AddrLess);
  }

  lemma SortExists<T(!new)>(s: seq<T>, less: (T, T) -> bool) returns (t: seq<T>)
    requires WeakOrder(less)
    ensures SortsTo(s, less, t)
  {
    t := InsertionSort(s, less);
    InsertionSortSorted(s, less);
  }

  /**
   Without ties, and only then, the answer is exact: against a slice with a tie even an
   agreeing slice, itself for one, may be told to differ.
   */
  lemma ExactIffSeparable(want: Slice)
    ensures Separable(want) <==> forall have :: SaysTheSame(have, want) ==> !MayAnswer(have, want, false)
  {
    ManagedMeaning(want, want);
    hide SaysTheSame;
    if Separable(want) {
      forall have | SaysTheSame(have, want) && MayAnswer(have, want, false) ensures false {
        AnswerMeaning(have, want, false);
      }
    } else {
      Orders();
      hide EpKeys, PortKeys, AddrLess, PortLess, SortedBy, Tieless, WeakOrder;
      var hp := SortExists(PortKeys(want), PortLess);
      var he := SortExists(EpKeys(want), AddrLess);
      var wp, we := hp, he;
      if !Tieless(EpKeys(want), AddrLess) {
        he, we := TiesLeaveAChoice(EpKeys(want), AddrLess);
      } else {
        hp, wp := TiesLeaveAChoice(PortKeys(want), PortLess);
      }
      assert Compares(want, want, hp, wp, he, we);
      assert SameManaged(want, want) && MayAnswer(want, want, false);
    }
  }

  /** The condition in terms of the sorts themselves: the projections come out one way only. */
  lemma TiesAreAmbiguous(s: Slice)
    ensures Separable(s) <==>
      && (forall t, u :: SortsTo(EpKeys(s), AddrLess, t) && SortsTo(EpKeys(s), AddrLess, u) ==> t == u)
      && (forall t, u :: SortsTo(PortKeys(s), PortLess, t) && SortsTo(PortKeys(s), PortLess, u) ==> t == u)
  {
    Orders();
    hide EpKeys, PortKeys, AddrLess, PortLess;
    SortIsForced(EpKeys(s), AddrLess);
    SortIsForced(PortKeys(s), PortLess);
  }

  /** The answer is no already, however the remaining sorts would have come out. */
  lemma AnswersNo(have: Slice, want: Slice, hp: seq<PortKey>, wp: seq<PortKey>)
    requires SortsTo(PortKeys(have), PortLess, hp) && SortsTo(PortKeys(want), PortLess, wp)
    requires !SameFields(have, want) || hp != wp
    ensures MayAnswer(have, want, false)
  {
    Orders();
    hide EpKeys, PortKeys, AddrLess, PortLess, SortedBy, WeakOrder, SameFields;
    var he := SortExists(EpKeys(have), AddrLess);
    var we := SortExists(EpKeys(want), AddrLess);
    assert Compares(have, want, hp, wp, he, we);
  }

  lemma FieldsDiffer(have: Slice, want: Slice)
    requires !SameFields(have, want)
    ensures MayAnswer(have, want, false)
  {
    Orders();
    hide EpKeys, PortKeys, AddrLess, PortLess, SortedBy, WeakOrder, SameFields;
    var hp := SortExists(PortKeys(have), PortLess);
    var wp := SortExists(PortKeys(want), PortLess);
    AnswersNo(have, want, hp, wp);
  }

  method Compare(have: Slice, want: Slice) returns (same: bool)
    ensures MayAnswer(have, want, same)
  {
    hide EpKeys, PortKeys, AddrLess, PortLess, SortedBy, MayAnswer;
    if have.addressType != want.addressType {
      FieldsDiffer(have, want);
      return false;
    }
    if Lookup(have.labels, SERVICE_NAME) != Lookup(want.labels, SERVICE_NAME) ||
       Lookup(have.labels, MANAGED_BY_LABEL) != Lookup(want.labels, MANAGED_BY_LABEL) ||
       Lookup(have.annotations, NETWORK_ANNOTATION) != Lookup(want.annotations, NETWORK_ANNOTATION) {
      FieldsDiffer(have, want);
      return false;
    }
    var hp := ProjectPorts(have);
    var wp := ProjectPorts(want);
    same := EqualSlices(hp, wp);
    if !same {
      AnswersNo(have, want, hp, wp);
      return false;
    }
    var he := ProjectEndpoints(have);
    var we := ProjectEndpoints(want);
    same := EqualSlices(he, we);
    Answers(have, want, hp, wp, he, we);
  }

  /** sliceUpToDate, as far as sort.Slice promises anything about ties. */
  method SliceUpToDate(have: Slice, want: Slice) returns (same: bool)
    ensures MayAnswer(have, want, same)
    ensures same ==> SaysTheSame(have, want)
    ensures Separable(want) ==> (same <==> SaysTheSame(have, want))
  {
    same := Compare(have, want);
    AnswerMeaning(have, want, same);
  }

  /** One name and number over two protocols is such a tie; the API server refuses a Service with two ports of one name. */
  lemma ProtocolsTie()
    ensures exists s: Slice :: |s.ports| == 2 && s.endpoints == [] && !Separable(s)
  {
    var dns := Slice("", "", map[], map[], [], IPv4,
      [Port(Some("dns"), Some("TCP"), Some(53)), Port(Some("dns"), Some("UDP"), Some(53))], []);
    assert PortKeys(dns)[0].proto != PortKeys(dns)[1].proto;
    assert !Tieless(PortKeys(dns), PortLess);
  }
}
