/**
 The EndpointSlices a Service should have (internal/controller/endpointslice.go):
 one per address family, its attachments in address order, every address that two
 attachments claim withdrawn, and no more than the API's limit published.
 */
module Slices {
  import opened Ordering
  import opened HealthModel
  import opened Store

  const MAX_ENDPOINTS_PER_SLICE: nat := 1000
  const SERVICE_NAME: string := "kubernetes.io/service-name"
  const MANAGED_BY_LABEL: string := "endpointslice.kubernetes.io/managed-by"
  const MANAGED_BY: string := "secondary-service.boanlab.io"
  const NETWORK_ANNOTATION: string := "secondary-service.boanlab.io/network"

  datatype Family = IPv4 | IPv6 | FQDN

  /** What net.ParseIP makes of an address; an IPv4-mapped IPv6 address is V4. */
  datatype Parsed = NotAnIP | V4 | V6

  /** AddressType: whatever is not plainly IPv6 goes with IPv4. */
  function FamilyOf(parse: string -> Parsed, a: Attachment): Family {
    if parse(a.ip) == V6 then IPv6 else IPv4
  }

  datatype Target = Target(kind: string, namespace: string, name: string, uid: string)

  datatype SliceEndpoint = SliceEndpoint(
    addresses: seq<string>, ready: Option<bool>, serving: Option<bool>, terminating: Option<bool>,
    hostname: Option<string>, nodeName: Option<string>, target: Option<Target>)

  datatype Port = Port(name: Option<string>, protocol: Option<string>, port: Option<int>)

  datatype Owner = Owner(kind: string, name: string, uid: string)

  datatype Slice = Slice(
    name: string, namespace: string, labels: map<string, string>, annotations: map<string, string>,
    owners: seq<Owner>, addressType: Family, ports: seq<Port>, endpoints: seq<SliceEndpoint>)

  datatype TargetPort = Number(port: int) | Named(name: string)

  datatype ServicePort = ServicePort(name: string, port: int, protocol: string, target: TargetPort)

  datatype Service = Service(name: string, namespace: string, uid: string, ports: seq<ServicePort>)

  datatype Warning =
    | UnresolvedTargetPort(portName: string, targetName: string, published: int)
    | DuplicateAddress(ip: string, pods: seq<string>)
    | SliceLimit(total: nat, family: Family)

  /** What a slice is built from, the attachments aside. */
  datatype Context = Context(svc: Service, nad: string, scope: ProbeScope, store: StoreState, now: int)

  function FamilySuffix(f: Family): string {
    match f case IPv4 => "ipv4" case IPv6 => "ipv6" case FQDN => "fqdn"
  }

  function SliceName(svc: string, f: Family): string {
    svc + "-secondary-" + FamilySuffix(f)
  }

  lemma SliceNamesDiffer(svc: string)
    ensures SliceName(svc, IPv4) == svc + "-secondary-ipv4"
    ensures SliceName(svc, IPv6) == svc + "-secondary-ipv6"
    ensures SliceName(svc, IPv4) != SliceName(svc, IPv6)
  {
    var a, b := SliceName(svc, IPv4), SliceName(svc, IPv6);
    assert "-secondary-" + "ipv4" == "-secondary-ipv4" && "-secondary-" + "ipv6" == "-secondary-ipv6";
    assert a == svc + ("-secondary-" + "ipv4") && b == svc + ("-secondary-" + "ipv6");
    assert a[|a| - 1] == '4' && b[|b| - 1] == '6';
  }

  // ---------------------------------------------------------------- order and claims

  /** By address, then by Pod UID: two attachments of one Pod with one address still tie. */
  predicate AttLess(a: Attachment, b: Attachment) {
    StrLess(a.ip, b.ip) || (a.ip == b.ip && StrLess(a.podUID, b.podUID))
  }

  lemma AttOrder()
    ensures WeakOrder(AttLess)
  {
    forall x, y | AttLess(x, y) ensures !AttLess(y, x) {
      if StrLess(x.ip, y.ip) {
        StrLessAsymmetric(x.ip, y.ip);
      } else {
        StrLessAsymmetric(x.podUID, y.podUID);
      }
    }
    forall x, y, z | !AttLess(x, y) && !AttLess(y, z) ensures !AttLess(x, z) {
      StrLessNegTransitive(x.ip, y.ip, z.ip);
      if x.ip == y.ip == z.ip && !AttLess(x, y) && !AttLess(y, z) {
        StrLessNegTransitive(x.podUID, y.podUID, z.podUID);
      }
      StrLessTotal(x.ip, y.ip);
      StrLessTotal(y.ip, z.ip);
      if AttLess(x, z) && x.ip == z.ip && x.ip != y.ip {
        StrLessAsymmetric(y.ip, x.ip);
      }
    }
  }

  /** How many of these attachments claim the address. */
  function ClaimCount(list: seq<Attachment>, ip: string): nat {
    if list == [] then 0
    else ClaimCount(list[..|list| - 1], ip) + if list[|list| - 1].ip == ip then 1 else 0
  }

  /** The Pods claiming it, in order. */
  function Claimants(list: seq<Attachment>, ip: string): seq<string> {
    if list == [] then []
    else Claimants(list[..|list| - 1], ip) + if list[|list| - 1].ip == ip then [list[|list| - 1].podName] else []
  }

  /** Those of s whose address is claimed exactly once in all. */
  function OnceClaimed(s: seq<Attachment>, all: seq<Attachment>): seq<Attachment> {
    if s == [] then []
    else
      OnceClaimed(s[..|s| - 1], all) + if ClaimCount(all, s[|s| - 1].ip) == 1 then [s[|s| - 1]] else []
  }

  lemma {:induction false} CountConcat(a: seq<Attachment>, b: seq<Attachment>, ip: string)
    ensures ClaimCount(a + b, ip) == ClaimCount(a, ip) + ClaimCount(b, ip)
  {
    if b == [] {
      assert a + b == a;
    } else {
      CountConcat(a, b[..|b| - 1], ip);
      assert (a + b)[..|a + b| - 1] == a + b[..|b| - 1];
    }
  }

  lemma {:induction false} NoClaims(s: seq<Attachment>, ip: string)
    ensures ClaimCount(s, ip) == 0 <==> forall a :: a in s ==> a.ip != ip
  {
    if s != [] {
      NoClaims(s[..|s| - 1], ip);
      assert s == s[..|s| - 1] + [s[|s| - 1]];
    }
  }

  lemma {:induction false} AllClaims(s: seq<Attachment>, ip: string)
    requires forall a :: a in s ==> a.ip == ip
    ensures ClaimCount(s, ip) == |s|
  {
    if s != [] {
      AllClaims(s[..|s| - 1], ip);
    }
  }

  lemma SomeClaim(s: seq<Attachment>, i: int)
    requires 0 <= i < |s|
    ensures ClaimCount(s, s[i].ip) >= 1
  {
    hide ClaimCount;
    NoClaims(s, s[i].ip);
    assert s[i] in s;
  }

  lemma TwoClaims(s: seq<Attachment>, i: int, j: int)
    requires 0 <= i < j < |s| && s[i].ip == s[j].ip
    ensures ClaimCount(s, s[i].ip) >= 2
  {
    hide ClaimCount;
    var l, r := s[..i + 1], s[i + 1..];
    assert s == l + r;
    CountConcat(l, r, s[i].ip);
    SomeClaim(l, i);
    SomeClaim(r, j - i - 1);
  }

  lemma CountRemove(s: seq<Attachment>, i: int, ip: string)
    requires 0 <= i < |s|
    ensures ClaimCount(s, ip) == ClaimCount(s[..i] + s[i + 1..], ip) + if s[i].ip == ip then 1 else 0
  {
    var l, r := s[..i], s[i + 1..];
    assert s == l + ([s[i]] + r);
    CountConcat(l, r, ip);
    CountConcat(l, [s[i]] + r, ip);
    CountConcat([s[i]], r, ip);
  }

  /** An address is claimed as often whatever the order. */
  lemma {:induction false} CountPermute(a: seq<Attachment>, b: seq<Attachment>, ip: string)
    requires multiset(a) == multiset(b)
    ensures ClaimCount(a, ip) == ClaimCount(b, ip)
  {
    PermutationLength(a, b);
    if a != [] {
      hide ClaimCount;
      var j := MatchHead(a, b);
      CountRemove(a, 0, ip);
      assert a[..0] + a[1..] == a[1..];
      CountRemove(b, j, ip);
      CountPermute(a[1..], b[..j] + b[j + 1..], ip);
    }
  }

  /** Withdrawing the contested addresses is a filter, so it too forgets the order. */
  lemma {:induction false} OnceClaimedCount(s: seq<Attachment>, all: seq<Attachment>, a: Attachment)
    ensures multiset(OnceClaimed(s, all))[a] == if ClaimCount(all, a.ip) == 1 then multiset(s)[a] else 0
  {
    if s != [] {
      OnceClaimedCount(s[..|s| - 1], all, a);
      assert s == s[..|s| - 1] + [s[|s| - 1]];
    }
  }

  lemma OnceClaimedMembers(s: seq<Attachment>, all: seq<Attachment>)
    ensures forall a :: a in OnceClaimed(s, all) <==> a in s && ClaimCount(all, a.ip) == 1
  {
    forall a ensures a in OnceClaimed(s, all) <==> a in s && ClaimCount(all, a.ip) == 1 {
      OnceClaimedCount(s, all, a);
      assert a in multiset(s) <==> a in s;
      assert a in multiset(OnceClaimed(s, all)) <==> a in OnceClaimed(s, all);
    }
  }

  predicate Increasing(s: seq<Attachment>) {
    forall i, j :: 0 <= i < j < |s| ==> StrLess(s[i].ip, s[j].ip)
  }

  /** An earlier element of a sorted list that is not the last one's rival has a smaller address. */
  lemma SmallerBefore(s: seq<Attachment>, j: int, n: int)
    requires 0 <= j < n < |s| && SortedBy(s, AttLess) && ClaimCount(s, s[n].ip) == 1
    ensures StrLess(s[j].ip, s[n].ip)
  {
    hide ClaimCount, StrLess;
    if s[j].ip == s[n].ip {
      TwoClaims(s, j, n);
    }
    StrLessTotal(s[j].ip, s[n].ip);
    assert !AttLess(s[n], s[j]);
  }

  /** In an ordered list the uncontested addresses come out strictly increasing. */
  lemma {:induction false} OnceClaimedIncreases(s: seq<Attachment>, n: nat)
    requires n <= |s| && SortedBy(s, AttLess)
    ensures Increasing(OnceClaimed(s[..n], s))
  {
    if n > 0 {
      hide StrLess, ClaimCount, AttLess;
      OnceClaimedIncreases(s, n - 1);
      assert s[..n][..n - 1] == s[..n - 1];
      var kept, x := OnceClaimed(s[..n - 1], s), s[n - 1];
      if ClaimCount(s, x.ip) == 1 {
        OnceClaimedMembers(s[..n - 1], s);
        forall i | 0 <= i < |kept| ensures StrLess(kept[i].ip, x.ip) {
          assert kept[i] in kept;
          var j :| 0 <= j < n - 1 && s[j] == kept[i];
          SmallerBefore(s, j, n - 1);
        }
      }
    }
  }

  // ---------------------------------------------------------------- what is published

  function OfFamily(parse: string -> Parsed, atts: seq<Attachment>, f: Family): seq<Attachment> {
    if atts == [] then []
    else
      OfFamily(parse, atts[..|atts| - 1], f)
        + if FamilyOf(parse, atts[|atts| - 1]) == f then [atts[|atts| - 1]] else []
  }

  /** The uncontested attachments of a list, in address order. */
  function Uncontested(list: seq<Attachment>): seq<Attachment> {
    var s := InsertionSort(list, AttLess);
    OnceClaimed(s, s)
  }

  /** What these mean: every address claimed exactly once, in strictly increasing order. */
  lemma UncontestedMeaning(list: seq<Attachment>)
    ensures Increasing(Uncontested(list))
    ensures forall a :: a in Uncontested(list) <==> a in list && ClaimCount(list, a.ip) == 1
  {
    var s := InsertionSort(list, AttLess);
    AttOrder();
    InsertionSortSorted(list, AttLess);
    OnceClaimedIncreases(s, |s|);
    assert s[..|s|] == s;
    OnceClaimedMembers(s, s);
    forall a ensures a in s <==> a in list {
      assert a in multiset(s) <==> a in s;
      assert a in multiset(list) <==> a in list;
    }
    forall ip ensures ClaimCount(s, ip) == ClaimCount(list, ip) {
      CountPermute(s, list, ip);
    }
  }

  lemma IncreasingIsSorted(s: seq<Attachment>)
    requires Increasing(s)
    ensures SortedBy(s, AttLess) && Tieless(s, AttLess)
  {
    forall i, j | 0 <= i < j < |s| ensures !AttLess(s[j], s[i]) && AttLess(s[i], s[j]) {
      StrLessAsymmetric(s[i].ip, s[j].ip);
    }
  }

  lemma SameOnceClaimed(s: seq<Attachment>, t: seq<Attachment>)
    requires multiset(s) == multiset(t) && SortedBy(s, AttLess) && SortedBy(t, AttLess)
    ensures OnceClaimed(s, s) == OnceClaimed(t, t)
  {
    var a, b := OnceClaimed(s, s), OnceClaimed(t, t);
    forall x: Attachment ensures multiset(a)[x] == multiset(b)[x] {
      CountPermute(s, t, x.ip);
      OnceClaimedCount(s, s, x);
      OnceClaimedCount(t, t, x);
    }
    assert multiset(a) == multiset(b);
    OnceClaimedIncreases(s, |s|);
    OnceClaimedIncreases(t, |t|);
    assert s[..|s|] == s && t[..|t|] == t;
    IncreasingIsSorted(a);
    IncreasingIsSorted(b);
    SortedUnique(a, b, AttLess);
  }

  /** Any sorted permutation, ties as they may fall, yields the same uncontested list. */
  lemma SortedYieldsUncontested(s: seq<Attachment>, list: seq<Attachment>)
    requires multiset(s) == multiset(list) && SortedBy(s, AttLess)
    ensures OnceClaimed(s, s) == Uncontested(list)
  {
    var t := InsertionSort(list, AttLess);
    AttOrder();
    InsertionSortSorted(list, AttLess);
    SameOnceClaimed(s, t);
  }

  /** The result does not depend on the order the lister returned. */
  lemma UncontestedPermutes(a: seq<Attachment>, b: seq<Attachment>)
    requires multiset(a) == multiset(b)
    ensures Uncontested(a) == Uncontested(b)
  {
    AttOrder();
    InsertionSortSorted(a, AttLess);
    SortedYieldsUncontested(InsertionSort(a, AttLess), b);
  }

  function Published(list: seq<Attachment>): seq<Attachment> {
    var u := Uncontested(list);
    if |u| > MAX_ENDPOINTS_PER_SLICE then u[..MAX_ENDPOINTS_PER_SLICE] else u
  }

  lemma NothingListed(list: seq<Attachment>)
    ensures list[..0] == [] && OnceClaimed([], list) == []
    ensures forall ip :: ClaimCount([], ip) == 0
  {
  }

  method PodNames(run: seq<Attachment>, ip: string) returns (pods: seq<string>)
    requires forall a :: a in run ==> a.ip == ip
    ensures pods == Claimants(run, ip)
  {
    pods := [];
    for k := 0 to |run|
      invariant pods == Claimants(run[..k], ip)
    {
      assert run[..k + 1][..k] == run[..k];
      pods := pods + [run[k].podName];
    }
    assert run[..|run|] == run;
  }

  /** No address runs across position i. */
  ghost predicate IsBoundary(s: seq<Attachment>, i: int)
    requires 0 <= i <= |s|
  {
    forall a, b :: 0 <= a < i <= b < |s| ==> s[a].ip != s[b].ip
  }

  /** [i, j) is the whole run of one address. */
  ghost predicate OneAddress(s: seq<Attachment>, i: int, j: int) {
    && 0 <= i < j <= |s|
    && forall k :: i <= k < j ==> s[k].ip == s[i].ip
  }

  lemma RunBoundary(s: seq<Attachment>, i: int, j: int)
    requires SortedBy(s, AttLess) && OneAddress(s, i, j) && IsBoundary(s, i)
    requires j < |s| ==> s[j].ip != s[i].ip
    ensures IsBoundary(s, j)
  {
    forall a, b | 0 <= a < j <= b < |s| ensures s[a].ip != s[b].ip {
      if i <= a && s[b].ip == s[i].ip {
        assert !AttLess(s[j], s[i]) && !AttLess(s[b], s[j]);
        StrLessTotal(s[i].ip, s[j].ip);
      }
    }
  }

  lemma {:induction false} ClaimantsConcat(a: seq<Attachment>, b: seq<Attachment>, ip: string)
    ensures Claimants(a + b, ip) == Claimants(a, ip) + Claimants(b, ip)
  {
    if b == [] {
      assert a + b == a;
    } else {
      var init, x := b[..|b| - 1], b[|b| - 1];
      ClaimantsConcat(a, init, ip);
      assert (a + b)[..|a + b| - 1] == a + init && (a + b)[|a + b| - 1] == x;
      assert Claimants(b, ip) == Claimants(init, ip) + if x.ip == ip then [x.podName] else [];
    }
  }

  lemma {:induction false} NoClaimants(s: seq<Attachment>, ip: string)
    ensures |Claimants(s, ip)| == ClaimCount(s, ip)
  {
    if s != [] {
      NoClaimants(s[..|s| - 1], ip);
    }
  }

  /** The claims on an address: the positions that carry it, each with its Pod's name. */
  lemma {:induction false} ClaimantsMeaning(list: seq<Attachment>, ip: string) returns (at: seq<nat>)
    ensures |at| == ClaimCount(list, ip) == |Claimants(list, ip)|
    ensures forall k :: 0 <= k < |at| ==>
      at[k] < |list| && list[at[k]].ip == ip && Claimants(list, ip)[k] == list[at[k]].podName
    ensures forall k, l :: 0 <= k < l < |at| ==> at[k] < at[l]
    ensures forall i :: 0 <= i < |list| && list[i].ip == ip ==> i in at
  {
    at := [];
    if list != [] {
      var n := |list| - 1;
      at := ClaimantsMeaning(list[..n], ip);
      if list[n].ip == ip {
        at := at + [n];
      }
    }
  }

  /** The elements outside a whole run claim other addresses. */
  lemma RunCounts(s: seq<Attachment>, i: int, j: int)
    requires OneAddress(s, i, j) && IsBoundary(s, i) && IsBoundary(s, j)
    ensures ClaimCount(s[..i], s[i].ip) == 0 && ClaimCount(s[i..j], s[i].ip) == j - i && ClaimCount(s[j..], s[i].ip) == 0
  {
    hide ClaimCount;
    NoClaims(s[..i], s[i].ip);
    NoClaims(s[j..], s[i].ip);
    AllClaims(s[i..j], s[i].ip);
  }

  lemma RunCountsOnly(s: seq<Attachment>, i: int, j: int, other: string)
    requires OneAddress(s, i, j) && other != s[i].ip
    ensures ClaimCount(s[..j], other) == ClaimCount(s[..i], other) && Claimants(s[..j], other) == Claimants(s[..i], other)
  {
    hide ClaimCount, Claimants;
    assert s[..j] == s[..i] + s[i..j];
    CountConcat(s[..i], s[i..j], other);
    NoClaims(s[i..j], other);
    ClaimantsConcat(s[..i], s[i..j], other);
    NoClaimants(s[i..j], other);
  }

  /** Within and beyond a whole run its address is claimed once per element; other claims do not move. */
  lemma RunClaims(s: seq<Attachment>, i: int, j: int)
    requires OneAddress(s, i, j) && IsBoundary(s, i) && IsBoundary(s, j)
    ensures ClaimCount(s, s[i].ip) == j - i == ClaimCount(s[..j], s[i].ip) && ClaimCount(s[..i], s[i].ip) == 0
    ensures forall ip :: ip != s[i].ip ==>
      ClaimCount(s[..j], ip) == ClaimCount(s[..i], ip) && Claimants(s[..j], ip) == Claimants(s[..i], ip)
    ensures Claimants(s[..j], s[i].ip) == Claimants(s[i..j], s[i].ip)
  {
    hide ClaimCount, Claimants, IsBoundary;
    var ip := s[i].ip;
    RunCounts(s, i, j);
    assert s[..j] == s[..i] + s[i..j] && s == s[..j] + s[j..];
    CountConcat(s[..i], s[i..j], ip);
    CountConcat(s[..j], s[j..], ip);
    ClaimantsConcat(s[..i], s[i..j], ip);
    NoClaimants(s[..i], ip);
    forall other | other != ip
      ensures ClaimCount(s[..j], other) == ClaimCount(s[..i], other) && Claimants(s[..j], other) == Claimants(s[..i], other)
    {
      RunCountsOnly(s, i, j, other);
    }
  }

  lemma {:induction false} RunOnceClaimed(s: seq<Attachment>, i: int, j: int)
    requires OneAddress(s, i, j)
    ensures OnceClaimed(s[..j], s) == OnceClaimed(s[..i], s) + if ClaimCount(s, s[i].ip) == 1 then s[i..j] else []
    decreases j
  {
    assert s[..j][..j - 1] == s[..j - 1];
    if j - 1 > i {
      RunOnceClaimed(s, i, j - 1);
      assert s[i..j] == s[i..j - 1] + [s[j - 1]];
    }
  }

  /** dropConflictingAddresses: runs of one address are skipped and reported. */
  method DropConflictingAddresses(list: seq<Attachment>) returns (out: seq<Attachment>, conflicts: map<string, seq<string>>)
    requires SortedBy(list, AttLess)
    ensures out == OnceClaimed(list, list)
    ensures forall ip :: ip in conflicts <==> ClaimCount(list, ip) > 1
    ensures forall ip :: ip in conflicts ==> conflicts[ip] == Claimants(list, ip)
  {
    hide AttLess, ClaimCount, Claimants, OnceClaimed;
    out, conflicts := [], map[];
    NothingListed(list);
    var i := 0;
    while i < |list|
      invariant 0 <= i <= |list| && IsBoundary(list, i)
      invariant out == OnceClaimed(list[..i], list)
      invariant forall ip :: ip in conflicts <==> ClaimCount(list[..i], ip) > 1
      invariant forall ip :: ip in conflicts ==> conflicts[ip] == Claimants(list[..i], ip)
    {
      var j := i;
      while j < |list| && list[j].ip == list[i].ip
        invariant i <= j <= |list|
        invariant forall k :: i <= k < j ==> list[k].ip == list[i].ip
      {
        j := j + 1;
      }
      RunBoundary(list, i, j);
      RunClaims(list, i, j);
      RunOnceClaimed(list, i, j);
      if j - i == 1 {
        out := out + [list[i]];
      } else {
        var pods := PodNames(list[i..j], list[i].ip);
        conflicts := conflicts[list[i].ip := pods];
      }
      i := j;
    }
    assert list[..|list|] == list;
  }
}
