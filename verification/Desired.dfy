/** desiredSlices: one slice per address family, and what is wrong with the claims (internal/controller/endpointslice.go). */
module Desired {
  import opened Ordering
  import opened HealthModel
  import opened Readiness
  import opened Slices

  // ---------------------------------------------------------------- ports

  /** The port a client connects to: nothing rewrites the destination of a headless Service. */
  function PortFor(p: ServicePort): Port {
    Port(Some(p.name), Some(if p.protocol == "" then "TCP" else p.protocol),
         Some(if p.target.Number? && p.target.port > 0 then p.target.port else p.port))
  }

  function PortsFor(ports: seq<ServicePort>): seq<Port> {
    seq(|ports|, i requires 0 <= i < |ports| => PortFor(ports[i]))
  }

  /** A named target port cannot be resolved; the Service port is published instead, and said so. */
  function PortWarnings(ports: seq<ServicePort>): seq<Warning> {
    if ports == [] then []
    else
      var p := ports[|ports| - 1];
      PortWarnings(ports[..|ports| - 1])
        + if p.target.Named? && p.target.name != "" then [UnresolvedTargetPort(p.name, p.target.name, p.port)] else []
  }

  /** Port q is Service port p as published. */
  predicate ShowsPort(q: Port, p: ServicePort) {
    && q.name == Some(p.name) && q.protocol == Some(if p.protocol == "" then "TCP" else p.protocol)
    && q.port == Some(if p.target.Number? && p.target.port > 0 then p.target.port else p.port)
  }

  ghost predicate ShowsPorts(ports: seq<Port>, of: seq<ServicePort>) {
    |ports| == |of| && forall i :: 0 <= i < |of| ==> ShowsPort(ports[i], of[i])
  }

  lemma PortsMeaning(ports: seq<ServicePort>)
    ensures ShowsPorts(PortsFor(ports), ports)
  {
  }

  lemma OneMorePort(ports: seq<ServicePort>)
    requires ports != []
    ensures
      var init, p := PortWarnings(ports[..|ports| - 1]), ports[|ports| - 1];
      PortWarnings(ports) ==
        if p.target.Named? && p.target.name != "" then init + [UnresolvedTargetPort(p.name, p.target.name, p.port)] else init
  {
  }

  /** Which ports the warnings name. */
  lemma {:induction false} PortWarningsMeaning(ports: seq<ServicePort>) returns (at: seq<nat>)
    ensures |at| == |PortWarnings(ports)|
    ensures forall k :: 0 <= k < |at| ==>
      && at[k] < |ports| && ports[at[k]].target.Named? && ports[at[k]].target.name != ""
      && PortWarnings(ports)[k] == UnresolvedTargetPort(ports[at[k]].name, ports[at[k]].target.name, ports[at[k]].port)
    ensures forall k, l :: 0 <= k < l < |at| ==> at[k] < at[l]
    ensures forall i :: 0 <= i < |ports| && ports[i].target.Named? && ports[i].target.name != "" ==> i in at
  {
    at := [];
    if ports != [] {
      OneMorePort(ports);
      var n := |ports| - 1;
      at := PortWarningsMeaning(ports[..n]);
      hide PortWarnings;
      if ports[n].target.Named? && ports[n].target.name != "" {
        at := at + [n];
      }
    }
  }

  /**
   The Service's ports as published: a numeric target port, the Service port otherwise.
   The warnings are one for each port whose target is a name, in order (`named` lists
   these ports' positions).
   */
  method ServicePorts(ports: seq<ServicePort>) returns (out: seq<Port>, warnings: seq<Warning>, ghost named: seq<nat>)
    ensures out == PortsFor(ports) && warnings == PortWarnings(ports)
    ensures |out| == |ports|
    ensures forall i :: 0 <= i < |ports| ==>
      && out[i].name == Some(ports[i].name)
      && out[i].protocol == Some(if ports[i].protocol == "" then "TCP" else ports[i].protocol)
      && out[i].port ==
           match ports[i].target
           case Number(t) => Some(if t > 0 then t else ports[i].port)
           case Named(_) => Some(ports[i].port)
    ensures |warnings| == |named| && forall k, l :: 0 <= k < l < |named| ==> named[k] < named[l]
    ensures forall k :: 0 <= k < |named| ==>
      && named[k] < |ports| && ports[named[k]].target.Named?
      && warnings[k] == UnresolvedTargetPort(ports[named[k]].name, ports[named[k]].target.name, ports[named[k]].port)
    ensures forall i :: 0 <= i < |ports| ==> (i in named <==> ports[i].target.Named? && ports[i].target.name != "")
  {
    out, warnings := [], [];
    for i := 0 to |ports|
      invariant out == PortsFor(ports[..i]) && warnings == PortWarnings(ports[..i])
    {
      assert ports[..i + 1][..i] == ports[..i];
      var p := ports[i];
      var port := p.port;
      if p.target.Number? && p.target.port > 0 {
        port := p.target.port;
      } else if p.target.Named? && p.target.name != "" {
        warnings := warnings + [UnresolvedTargetPort(p.name, p.target.name, p.port)];
      }
      var proto := if p.protocol == "" then "TCP" else p.protocol;
      out := out + [Port(Some(p.name), Some(proto), Some(port))];
    }
    assert ports[..|ports|] == ports;
    PortsMeaning(ports);
    hide PortWarnings, PortsFor, PortFor;
    named := PortWarningsMeaning(ports);
  }

  // ---------------------------------------------------------------- what is wanted

  /** Ready is always stated; an absent condition would be read as healthy. */
  function EndpointFor(ctx: Context, a: Attachment): SliceEndpoint {
    var r := ComputeReady(a, ctx.scope, ctx.store, ctx.now).ready;
    SliceEndpoint(
      [a.ip], Some(r), Some(r), Some(false),
      if Hostname(a.podName) != "" then Some(Hostname(a.podName)) else None,
      if a.nodeName != "" then Some(a.nodeName) else None,
      Some(Target("Pod", a.podNamespace, a.podName, a.podUID)))
  }

  function EndpointsFor(ctx: Context, list: seq<Attachment>): seq<SliceEndpoint> {
    seq(|list|, i requires 0 <= i < |list| => EndpointFor(ctx, list[i]))
  }

  function ReadinessFor(ctx: Context, list: seq<Attachment>): seq<Readiness> {
    seq(|list|, i requires 0 <= i < |list| => ComputeReady(list[i], ctx.scope, ctx.store, ctx.now))
  }

  function SliceFor(ctx: Context, f: Family, list: seq<Attachment>): Slice {
    Slice(
      SliceName(ctx.svc.name, f), ctx.svc.namespace,
      map[SERVICE_NAME := ctx.svc.name, MANAGED_BY_LABEL := MANAGED_BY],
      map[NETWORK_ANNOTATION := ctx.nad],
      [Owner("Service", ctx.svc.name, ctx.svc.uid)],
      f, PortsFor(ctx.svc.ports), EndpointsFor(ctx, Published(list)))
  }

  /** The families with at least one attachment, published or not. */
  function Families(parse: string -> Parsed, atts: seq<Attachment>): set<Family> {
    set a | a in atts :: FamilyOf(parse, a)
  }

  function WantedIn(ctx: Context, parse: string -> Parsed, atts: seq<Attachment>, fs: set<Family>): map<string, Slice> {
    (if IPv4 in fs then map[SliceName(ctx.svc.name, IPv4) := SliceFor(ctx, IPv4, OfFamily(parse, atts, IPv4))] else map[])
    + (if IPv6 in fs then map[SliceName(ctx.svc.name, IPv6) := SliceFor(ctx, IPv6, OfFamily(parse, atts, IPv6))] else map[])
  }

  function Wanted(ctx: Context, parse: string -> Parsed, atts: seq<Attachment>): map<string, Slice> {
    WantedIn(ctx, parse, atts, Families(parse, atts))
  }

  // ---------------------------------------------------------------- what the slices mean

  lemma {:induction false} OfFamilyCount(parse: string -> Parsed, atts: seq<Attachment>, f: Family, a: Attachment)
    ensures multiset(OfFamily(parse, atts, f))[a] == if FamilyOf(parse, a) == f then multiset(atts)[a] else 0
  {
    hide FamilyOf;
    if atts != [] {
      var init, x := atts[..|atts| - 1], atts[|atts| - 1];
      OfFamilyCount(parse, init, f, a);
      assert atts == init + [x];
      assert multiset(atts)[a] == multiset(init)[a] + multiset([x])[a];
    }
  }

  lemma OfFamilyMembers(parse: string -> Parsed, atts: seq<Attachment>, f: Family, a: Attachment)
    ensures a in OfFamily(parse, atts, f) <==> a in atts && FamilyOf(parse, a) == f
  {
    hide OfFamily, FamilyOf;
    OfFamilyCount(parse, atts, f, a);
    assert a in multiset(atts) <==> a in atts;
    assert a in multiset(OfFamily(parse, atts, f)) <==> a in OfFamily(parse, atts, f);
  }

  /** The endpoint stands for the attachment, ready exactly when it is. */
  predicate Shows(ctx: Context, e: SliceEndpoint, a: Attachment) {
    && e.addresses == [a.ip]
    && e.ready == Some(IsReady(a, ctx.scope, ctx.store, ctx.now)) && e.serving == e.ready && e.terminating == Some(false)
    && e.target == Some(Target("Pod", a.podNamespace, a.podName, a.podUID))
    && e.nodeName == (if a.nodeName == "" then None else Some(a.nodeName))
    && e.hostname == (if Hostname(a.podName) == "" then None else Some(Hostname(a.podName)))
  }

  lemma EndpointShows(ctx: Context, a: Attachment)
    ensures Shows(ctx, EndpointFor(ctx, a), a)
  {
    ReadyIsFiveTerms(a, ctx.scope, ctx.store, ctx.now);
    hide ComputeReady, IsReady, IsLabel;
  }

  lemma EndpointsShow(ctx: Context, f: Family, list: seq<Attachment>)
    ensures
      var u, eps := Uncontested(list), SliceFor(ctx, f, list).endpoints;
      && |eps| == (if |u| < 1000 then |u| else 1000)
      && forall i :: 0 <= i < |eps| ==> Shows(ctx, eps[i], u[i])
  {
    hide Uncontested, EndpointFor, Shows;
    forall i | 0 <= i < |Published(list)| ensures Shows(ctx, EndpointFor(ctx, Published(list)[i]), Published(list)[i]) {
      EndpointShows(ctx, Published(list)[i]);
    }
  }

  /**
   A family's slice publishes, in strictly increasing address order, exactly the first
   thousand of the addresses claimed exactly once in that family, each with the
   readiness decision for the attachment behind it.
   */
  lemma SliceMeaning(ctx: Context, parse: string -> Parsed, atts: seq<Attachment>, f: Family)
    ensures
      var list := OfFamily(parse, atts, f);
      var u, eps := Uncontested(list), SliceFor(ctx, f, list).endpoints;
      && Increasing(u)
      && (forall a :: a in u <==> a in atts && FamilyOf(parse, a) == f && ClaimCount(list, a.ip) == 1)
      && |eps| == (if |u| < 1000 then |u| else 1000)
      && forall i :: 0 <= i < |eps| ==> Shows(ctx, eps[i], u[i])
  {
    hide Uncontested, OfFamily, FamilyOf, ClaimCount, Increasing, SliceFor, Shows;
    var list := OfFamily(parse, atts, f);
    UncontestedMeaning(list);
    forall a ensures a in list <==> a in atts && FamilyOf(parse, a) == f {
      OfFamilyMembers(parse, atts, f, a);
    }
    EndpointsShow(ctx, f, list);
  }

  // ---------------------------------------------------------------- and outright, over the attachments as listed

  /** The attachment is of the family: IPv6 if its address is one, IPv4 for everything else. */
  predicate InFamily(parse: string -> Parsed, f: Family, a: Attachment) {
    if parse(a.ip) == V6 then f == IPv6 else f == IPv4
  }

  lemma OneMoreClaim(list: seq<Attachment>, a: Attachment, ip: string)
    ensures ClaimCount(list + [a], ip) == ClaimCount(list, ip) + if a.ip == ip then 1 else 0
  {
    assert (list + [a])[..|list|] == list;
  }

  /** The claims on an address in a family: the positions that carry it. */
  lemma {:induction false} ClaimPositions(parse: string -> Parsed, atts: seq<Attachment>, f: Family, ip: string) returns (at: seq<nat>)
    ensures |at| == ClaimCount(OfFamily(parse, atts, f), ip)
    ensures forall k :: 0 <= k < |at| ==> at[k] < |atts| && InFamily(parse, f, atts[at[k]]) && atts[at[k]].ip == ip
    ensures forall k, l :: 0 <= k < l < |at| ==> at[k] < at[l]
    ensures forall i :: 0 <= i < |atts| && InFamily(parse, f, atts[i]) && atts[i].ip == ip ==> i in at
  {
    at := [];
    if atts != [] {
      var n := |atts| - 1;
      at := ClaimPositions(parse, atts[..n], f, ip);
      var list := OfFamily(parse, atts[..n], f);
      OneMoreClaim(list, atts[n], ip);
      assert OfFamily(parse, atts, f) == if InFamily(parse, f, atts[n]) then list + [atts[n]] else list;
      if InFamily(parse, f, atts[n]) && atts[n].ip == ip {
        at := at + [n];
      }
    }
  }

  /** No other attachment of its family claims attachment i's address. */
  ghost predicate SoleClaim(parse: string -> Parsed, atts: seq<Attachment>, f: Family, i: int) {
    && 0 <= i < |atts| && InFamily(parse, f, atts[i])
    && forall j :: 0 <= j < |atts| && j != i && InFamily(parse, f, atts[j]) ==> atts[j].ip != atts[i].ip
  }

  lemma OneClaim(parse: string -> Parsed, atts: seq<Attachment>, f: Family, i: int)
    requires 0 <= i < |atts| && InFamily(parse, f, atts[i])
    ensures ClaimCount(OfFamily(parse, atts, f), atts[i].ip) == 1 <==> SoleClaim(parse, atts, f, i)
  {
    hide InFamily, ClaimCount, OfFamily;
    var at := ClaimPositions(parse, atts, f, atts[i].ip);
    assert i in at;
    if !SoleClaim(parse, atts, f, i) {
      var j :| 0 <= j < |atts| && j != i && InFamily(parse, f, atts[j]) && atts[j].ip == atts[i].ip;
      assert j in at;
    } else {
      assert forall k :: 0 <= k < |at| ==> at[k] == i;
      assert at[0] == i == at[|at| - 1];
    }
  }

  ghost predicate ShowsSoleClaim(ctx: Context, parse: string -> Parsed, atts: seq<Attachment>, f: Family, e: SliceEndpoint) {
    exists i :: SoleClaim(parse, atts, f, i) && Shows(ctx, e, atts[i])
  }

  predicate Shown(ctx: Context, eps: seq<SliceEndpoint>, a: Attachment) {
    exists k :: 0 <= k < |eps| && Shows(ctx, eps[k], a)
  }

  predicate AllBelow(eps: seq<SliceEndpoint>, ip: string) {
    forall k :: 0 <= k < |eps| ==> eps[k].addresses != [] && StrLess(eps[k].addresses[0], ip)
  }

  /**
   The endpoints shown for a family: each is a sole claim, in strictly increasing address
   order, at most a thousand; and a sole claim is missing only behind a thousand smaller.
   */
  ghost predicate ShowsFamily(ctx: Context, parse: string -> Parsed, atts: seq<Attachment>, f: Family, eps: seq<SliceEndpoint>) {
    && |eps| <= 1000
    && (forall k :: 0 <= k < |eps| ==> |eps[k].addresses| == 1)
    && (forall k, l :: 0 <= k < l < |eps| ==> StrLess(eps[k].addresses[0], eps[l].addresses[0]))
    && (forall k :: 0 <= k < |eps| ==> ShowsSoleClaim(ctx, parse, atts, f, eps[k]))
    && (forall i :: SoleClaim(parse, atts, f, i) ==> Shown(ctx, eps, atts[i]) || (|eps| == 1000 && AllBelow(eps, atts[i].ip)))
  }

  lemma SoleIsUncontested(parse: string -> Parsed, atts: seq<Attachment>, f: Family, i: int) returns (k: nat)
    requires SoleClaim(parse, atts, f, i)
    ensures var u := Uncontested(OfFamily(parse, atts, f)); k < |u| && u[k] == atts[i]
  {
    hide Uncontested, OfFamily, ClaimCount, Increasing;
    OneClaim(parse, atts, f, i);
    UncontestedMeaning(OfFamily(parse, atts, f));
    OfFamilyMembers(parse, atts, f, atts[i]);
    k :| 0 <= k < |Uncontested(OfFamily(parse, atts, f))| && Uncontested(OfFamily(parse, atts, f))[k] == atts[i];
  }

  lemma UncontestedIsSole(parse: string -> Parsed, atts: seq<Attachment>, f: Family, k: nat) returns (i: int)
    requires k < |Uncontested(OfFamily(parse, atts, f))|
    ensures SoleClaim(parse, atts, f, i) && atts[i] == Uncontested(OfFamily(parse, atts, f))[k]
  {
    hide Uncontested, OfFamily, ClaimCount, Increasing;
    var a := Uncontested(OfFamily(parse, atts, f))[k];
    UncontestedMeaning(OfFamily(parse, atts, f));
    assert a in OfFamily(parse, atts, f);
    OfFamilyMembers(parse, atts, f, a);
    i :| 0 <= i < |atts| && atts[i] == a;
    OneClaim(parse, atts, f, i);
  }

  /** What SliceMeaning says of the endpoints, one by one. */
  lemma EndpointAt(ctx: Context, parse: string -> Parsed, atts: seq<Attachment>, f: Family)
    ensures
      var u, eps := Uncontested(OfFamily(parse, atts, f)), SliceFor(ctx, f, OfFamily(parse, atts, f)).endpoints;
      && |eps| == (if |u| < 1000 then |u| else 1000)
      && (forall k :: 0 <= k < |eps| ==> Shows(ctx, eps[k], u[k]) && eps[k].addresses == [u[k].ip])
      && (forall k, l :: 0 <= k < l < |u| ==> StrLess(u[k].ip, u[l].ip))
  {
    hide Uncontested, OfFamily, ClaimCount, SliceFor, FamilyOf, StrLess;
    SliceMeaning(ctx, parse, atts, f);
  }

  lemma ShownIsSole(ctx: Context, parse: string -> Parsed, atts: seq<Attachment>, f: Family, k: nat)
    requires k < |SliceFor(ctx, f, OfFamily(parse, atts, f)).endpoints|
    ensures ShowsSoleClaim(ctx, parse, atts, f, SliceFor(ctx, f, OfFamily(parse, atts, f)).endpoints[k])
  {
    hide Uncontested, OfFamily, SliceFor, InFamily, Shows, StrLess;
    EndpointAt(ctx, parse, atts, f);
    var i := UncontestedIsSole(parse, atts, f, k);
  }

  lemma SoleIsShown(ctx: Context, parse: string -> Parsed, atts: seq<Attachment>, f: Family, i: int)
    requires SoleClaim(parse, atts, f, i)
    ensures
      var eps := SliceFor(ctx, f, OfFamily(parse, atts, f)).endpoints;
      Shown(ctx, eps, atts[i]) || (|eps| == 1000 && AllBelow(eps, atts[i].ip))
  {
    hide Uncontested, OfFamily, SliceFor, InFamily, Shows, StrLess;
    EndpointAt(ctx, parse, atts, f);
    var k := SoleIsUncontested(parse, atts, f, i);
  }

  lemma EndpointsMeaning(ctx: Context, parse: string -> Parsed, atts: seq<Attachment>, f: Family)
    ensures ShowsFamily(ctx, parse, atts, f, SliceFor(ctx, f, OfFamily(parse, atts, f)).endpoints)
  {
    hide Uncontested, OfFamily, SliceFor, InFamily, Shows, StrLess, Shown, AllBelow, ShowsSoleClaim;
    EndpointAt(ctx, parse, atts, f);
    forall k | 0 <= k < |SliceFor(ctx, f, OfFamily(parse, atts, f)).endpoints|
      ensures ShowsSoleClaim(ctx, parse, atts, f, SliceFor(ctx, f, OfFamily(parse, atts, f)).endpoints[k])
    {
      ShownIsSole(ctx, parse, atts, f, k);
    }
    forall i | SoleClaim(parse, atts, f, i)
      ensures
        var eps := SliceFor(ctx, f, OfFamily(parse, atts, f)).endpoints;
        Shown(ctx, eps, atts[i]) || (|eps| == 1000 && AllBelow(eps, atts[i].ip))
    {
      SoleIsShown(ctx, parse, atts, f, i);
    }
    var eps := SliceFor(ctx, f, OfFamily(parse, atts, f)).endpoints;
    assert forall k, l :: 0 <= k < l < |eps| ==> StrLess(eps[k].addresses[0], eps[l].addresses[0]);
  }

  /** The slice is the Service's for the family, under the given name. */
  ghost predicate ShowsService(ctx: Context, parse: string -> Parsed, atts: seq<Attachment>, f: Family, n: string, s: Slice) {
    && s.name == n && s.namespace == ctx.svc.namespace && s.addressType == f
    && s.labels == map["kubernetes.io/service-name" := ctx.svc.name,
                       "endpointslice.kubernetes.io/managed-by" := "secondary-service.boanlab.io"]
    && s.annotations == map["secondary-service.boanlab.io/network" := ctx.nad]
    && s.owners == [Owner("Service", ctx.svc.name, ctx.svc.uid)]
    && ShowsPorts(s.ports, ctx.svc.ports)
    && ShowsFamily(ctx, parse, atts, f, s.endpoints)
  }

  lemma SliceShows(ctx: Context, parse: string -> Parsed, atts: seq<Attachment>, f: Family)
    ensures ShowsService(ctx, parse, atts, f, SliceName(ctx.svc.name, f), SliceFor(ctx, f, OfFamily(parse, atts, f)))
  {
    hide PortsFor, EndpointsFor, Published, OfFamily, ShowsFamily, ShowsPorts;
    PortsMeaning(ctx.svc.ports);
    EndpointsMeaning(ctx, parse, atts, f);
  }

  lemma FamiliesMeaning(parse: string -> Parsed, atts: seq<Attachment>)
    ensures IPv4 in Families(parse, atts) <==> exists a :: a in atts && parse(a.ip) != V6
    ensures IPv6 in Families(parse, atts) <==> exists a :: a in atts && parse(a.ip) == V6
    ensures FQDN !in Families(parse, atts)
  {
  }

  /**
   What is wanted, outright: a slice per family some attachment is of, named after it and
   labelled, annotated and owned as the Service's, with its ports and the endpoints its
   attachments deserve.
   */
  lemma WantedMeaning(ctx: Context, parse: string -> Parsed, atts: seq<Attachment>, n: string)
    ensures
      var want, n4, n6 := Wanted(ctx, parse, atts), ctx.svc.name + "-secondary-ipv4", ctx.svc.name + "-secondary-ipv6";
      && (n in want <==>
            || (n == n4 && exists a :: a in atts && parse(a.ip) != V6)
            || (n == n6 && exists a :: a in atts && parse(a.ip) == V6))
      && (n in want ==> ShowsService(ctx, parse, atts, if n == n6 then IPv6 else IPv4, n, want[n]))
  {
    hide OfFamily, SliceFor, ShowsService;
    SliceNamesDiffer(ctx.svc.name);
    SliceShows(ctx, parse, atts, IPv4);
    SliceShows(ctx, parse, atts, IPv6);
    FamiliesMeaning(parse, atts);
    hide Families;
  }

  lemma FamilyPermutes(parse: string -> Parsed, a: seq<Attachment>, b: seq<Attachment>, f: Family)
    requires multiset(a) == multiset(b)
    ensures Uncontested(OfFamily(parse, a, f)) == Uncontested(OfFamily(parse, b, f))
  {
    hide Uncontested, OfFamily, FamilyOf;
    var x, y := OfFamily(parse, a, f), OfFamily(parse, b, f);
    forall e: Attachment ensures multiset(x)[e] == multiset(y)[e] {
      OfFamilyCount(parse, a, f, e);
      OfFamilyCount(parse, b, f, e);
    }
    assert multiset(x) == multiset(y);
    UncontestedPermutes(x, y);
  }

  lemma FamiliesPermute(parse: string -> Parsed, a: seq<Attachment>, b: seq<Attachment>)
    requires multiset(a) == multiset(b)
    ensures Families(parse, a) == Families(parse, b)
  {
    hide FamilyOf;
    forall e ensures e in a <==> e in b {
      assert e in multiset(a) <==> e in a;
      assert e in multiset(b) <==> e in b;
    }
  }

  /** Whatever order the lister returned, and however ties fell in sorting, the same slices are wanted. */
  lemma WantedPermutes(ctx: Context, parse: string -> Parsed, a: seq<Attachment>, b: seq<Attachment>)
    requires multiset(a) == multiset(b)
    ensures Wanted(ctx, parse, a) == Wanted(ctx, parse, b)
  {
    hide Uncontested, OfFamily, Families, EndpointsFor;
    FamiliesPermute(parse, a, b);
    FamilyPermutes(parse, a, b, IPv4);
    FamilyPermutes(parse, a, b, IPv6);
  }

  // ---------------------------------------------------------------- what is wrong with the claims

  /** One warning per contested address of a sorted list, in address order, naming its claimants as the list has them. */
  ghost predicate Contested(ws: seq<Warning>, sorted: seq<Attachment>) {
    && (forall i :: 0 <= i < |ws| ==>
          && ws[i].DuplicateAddress? && ClaimCount(sorted, ws[i].ip) > 1
          && ws[i].pods == Claimants(sorted, ws[i].ip))
    && (forall i, j :: 0 <= i < j < |ws| ==> ws[i].DuplicateAddress? && ws[j].DuplicateAddress? && StrLess(ws[i].ip, ws[j].ip))
    && (forall ip :: ClaimCount(sorted, ip) > 1 ==> exists i :: 0 <= i < |ws| && ws[i].DuplicateAddress? && ws[i].ip == ip)
  }

  ghost predicate WarnedAs(ws: seq<Warning>, f: Family, list: seq<Attachment>, sorted: seq<Attachment>) {
    var n, over := |ws|, |Uncontested(list)| > MAX_ENDPOINTS_PER_SLICE;
    if over then n > 0 && ws[n - 1] == SliceLimit(|Uncontested(list)|, f) && Contested(ws[..n - 1], sorted)
    else Contested(ws, sorted)
  }

  /** All the warnings about one family's list, under some outcome of sorting it by address and Pod UID. */
  ghost predicate WarnedOf(ws: seq<Warning>, f: Family, list: seq<Attachment>) {
    exists sorted :: SortsTo(list, AttLess, sorted) && WarnedAs(ws, f, list, sorted)
  }

  lemma StringOrder()
    ensures WeakOrder(StrLess)
  {
    forall x, y | StrLess(x, y) ensures !StrLess(y, x) {
      StrLessAsymmetric(x, y);
    }
    forall x, y, z | !StrLess(x, y) && !StrLess(y, z) ensures !StrLess(x, z) {
      StrLessNegTransitive(x, y, z);
    }
  }

  /** The keys of a map, collected in any order and then sorted. */
  method SortedKeys<V>(m: map<string, V>) returns (keys: seq<string>)
    ensures forall k :: k in keys <==> k in m
    ensures forall i, j :: 0 <= i < j < |keys| ==> StrLess(keys[i], keys[j]) && keys[i] != keys[j]
  {
    var unsorted: seq<string> := [];
    var todo := m.Keys;
    while todo != {}
      invariant todo <= m.Keys
      invariant forall k :: k in unsorted <==> k in m && k !in todo
      invariant forall i, j :: 0 <= i < j < |unsorted| ==> unsorted[i] != unsorted[j]
    {
      var k :| k in todo;
      unsorted, todo := unsorted + [k], todo - {k};
    }
    StringOrder();
    keys := Sort(unsorted, StrLess);
    DistinctPermutation(unsorted, keys);
    forall i, j | 0 <= i < j < |keys| ensures StrLess(keys[i], keys[j]) {
      StrLessTotal(keys[i], keys[j]);
    }
    forall k ensures k in keys <==> k in unsorted {
      assert k in multiset(keys) <==> k in keys;
      assert k in multiset(unsorted) <==> k in unsorted;
    }
  }

  lemma ListsContested(sorted: seq<Attachment>, ips: seq<string>, conflicts: map<string, seq<string>>, ws: seq<Warning>)
    requires forall ip :: ip in ips <==> ClaimCount(sorted, ip) > 1
    requires forall ip :: ip in ips ==> ip in conflicts && conflicts[ip] == Claimants(sorted, ip)
    requires forall i, j :: 0 <= i < j < |ips| ==> StrLess(ips[i], ips[j])
    requires |ws| == |ips|
    requires forall k :: 0 <= k < |ips| ==> ips[k] in conflicts && ws[k] == DuplicateAddress(ips[k], conflicts[ips[k]])
    ensures Contested(ws, sorted)
  {
    hide ClaimCount, Claimants, StrLess;
    forall ip | ClaimCount(sorted, ip) > 1 ensures exists i :: 0 <= i < |ws| && ws[i].DuplicateAddress? && ws[i].ip == ip {
      assert ip in ips;
      var i :| 0 <= i < |ips| && ips[i] == ip;
      assert ws[i].ip == ip;
    }
  }

  method ReportConflicts(sorted: seq<Attachment>, conflicts: map<string, seq<string>>) returns (ws: seq<Warning>)
    requires forall ip :: ip in conflicts <==> ClaimCount(sorted, ip) > 1
    requires forall ip :: ip in conflicts ==> conflicts[ip] == Claimants(sorted, ip)
    ensures Contested(ws, sorted)
  {
    hide ClaimCount, Claimants, StrLess, Contested;
    var dupIPs := SortedKeys(conflicts);
    ws := [];
    for i := 0 to |dupIPs|
      invariant |ws| == i
      invariant forall k :: 0 <= k < i ==> ws[k] == DuplicateAddress(dupIPs[k], conflicts[dupIPs[k]])
    {
      ws := ws + [DuplicateAddress(dupIPs[i], conflicts[dupIPs[i]])];
    }
    ListsContested(sorted, dupIPs, conflicts, ws);
  }

  // ---------------------------------------------------------------- desiredSlices

  method BuildEndpoints(ctx: Context, list: seq<Attachment>) returns (eps: seq<SliceEndpoint>, readiness: seq<Readiness>)
    ensures eps == EndpointsFor(ctx, list) && readiness == ReadinessFor(ctx, list)
    ensures |readiness| == |eps| && forall i :: 0 <= i < |readiness| ==> eps[i].ready == Some(readiness[i].ready)
  {
    eps, readiness := [], [];
    for i := 0 to |list|
      invariant eps == EndpointsFor(ctx, list[..i]) && readiness == ReadinessFor(ctx, list[..i])
    {
      var a := list[i];
      var r := ComputeReady(a, ctx.scope, ctx.store, ctx.now);
      var h := ScanHostname(a.podName);
      readiness := readiness + [r];
      eps := eps + [SliceEndpoint(
        [a.ip], Some(r.ready), Some(r.ready), Some(false),
        if h != "" then Some(h) else None,
        if a.nodeName != "" then Some(a.nodeName) else None,
        Some(Target("Pod", a.podNamespace, a.podName, a.podUID)))];
    }
    assert list[..|list|] == list;
  }

  /** The body of the loop over families: ties may fall any way in the sort, and the result is the same. */
  method BuildFamily(ctx: Context, f: Family, list: seq<Attachment>, ports: seq<Port>)
    returns (s: Slice, readiness: seq<Readiness>, warnings: seq<Warning>)
    requires ports == PortsFor(ctx.svc.ports)
    ensures s == SliceFor(ctx, f, list)
    ensures readiness == ReadinessFor(ctx, Published(list))
    ensures |readiness| == |s.endpoints| && forall i :: 0 <= i < |readiness| ==> s.endpoints[i].ready == Some(readiness[i].ready)
    ensures WarnedOf(warnings, f, list)
  {
    hide ClaimCount, Claimants, EndpointsFor, ReadinessFor, Contested, Uncontested, PortsFor;
    AttOrder();
    var sorted := Sort(list, AttLess);
    var kept, conflicts := DropConflictingAddresses(sorted);
    SortedYieldsUncontested(sorted, list);
    warnings := ReportConflicts(sorted, conflicts);
    if |kept| > MAX_ENDPOINTS_PER_SLICE {
      ghost var before := warnings;
      warnings := warnings + [SliceLimit(|kept|, f)];
      assert warnings[..|warnings| - 1] == before;
      kept := kept[..MAX_ENDPOINTS_PER_SLICE];
    }
    var eps: seq<SliceEndpoint>;
    eps, readiness := BuildEndpoints(ctx, kept);
    s := Slice(
      SliceName(ctx.svc.name, f), ctx.svc.namespace,
      map[SERVICE_NAME := ctx.svc.name, MANAGED_BY_LABEL := MANAGED_BY],
      map[NETWORK_ANNOTATION := ctx.nad],
      [Owner("Service", ctx.svc.name, ctx.svc.uid)],
      f, ports, eps);
    assert WarnedAs(warnings, f, list, sorted);
  }

  function ListOf(m: map<Family, seq<Attachment>>, f: Family): seq<Attachment> {
    if f in m then m[f] else []
  }

  lemma OneMore(parse: string -> Parsed, atts: seq<Attachment>, i: int, f: Family)
    requires 0 <= i < |atts|
    ensures Families(parse, atts[..i + 1]) == Families(parse, atts[..i]) + {FamilyOf(parse, atts[i])}
    ensures OfFamily(parse, atts[..i + 1], f)
         == OfFamily(parse, atts[..i], f) + if FamilyOf(parse, atts[i]) == f then [atts[i]] else []
  {
    hide FamilyOf;
    assert atts[..i + 1] == atts[..i] + [atts[i]];
    assert atts[..i + 1][..i] == atts[..i];
  }

  method ByFamily(parse: string -> Parsed, atts: seq<Attachment>) returns (m: map<Family, seq<Attachment>>)
    ensures m.Keys == Families(parse, atts)
    ensures forall f :: f in m ==> m[f] == OfFamily(parse, atts, f)
  {
    m := map[];
    assert m.Keys == Families(parse, atts[..0]);
    assert forall f :: ListOf(m, f) == OfFamily(parse, atts[..0], f);
    hide OfFamily, FamilyOf, Families;
    for i := 0 to |atts|
      invariant m.Keys == Families(parse, atts[..i])
      invariant forall f :: ListOf(m, f) == OfFamily(parse, atts[..i], f)
    {
      var at := FamilyOf(parse, atts[i]);
      OneMore(parse, atts, i, at);
      var m' := m[at := ListOf(m, at) + [atts[i]]];
      forall f ensures ListOf(m', f) == OfFamily(parse, atts[..i + 1], f) {
        OneMore(parse, atts, i, f);
        assert ListOf(m, f) == OfFamily(parse, atts[..i], f);
      }
      m := m';
    }
    assert atts[..|atts|] == atts;
    forall f | f in m ensures m[f] == OfFamily(parse, atts, f) {
      assert m[f] == ListOf(m, f);
    }
  }

  /** The readiness decisions of the families visited, in the order of the visit. */
  function ReadinessIn(ctx: Context, parse: string -> Parsed, atts: seq<Attachment>, order: seq<Family>): seq<Readiness> {
    if order == [] then []
    else
      ReadinessIn(ctx, parse, atts, order[..|order| - 1])
        + ReadinessFor(ctx, Published(OfFamily(parse, atts, order[|order| - 1])))
  }

  lemma ReadinessMore(ctx: Context, parse: string -> Parsed, atts: seq<Attachment>, order: seq<Family>, f: Family)
    ensures ReadinessIn(ctx, parse, atts, order + [f])
         == ReadinessIn(ctx, parse, atts, order) + ReadinessFor(ctx, Published(OfFamily(parse, atts, f)))
  {
    hide OfFamily, Published, ReadinessFor;
    assert (order + [f])[..|order|] == order;
  }

  /** Each family's warnings stand together, in the order of the visit. */
  ghost predicate WarnedIn(ws: seq<Warning>, parse: string -> Parsed, atts: seq<Attachment>, order: seq<Family>)
    decreases |order|
  {
    if order == [] then ws == []
    else
      exists n: nat :: n <= |ws|
        && WarnedIn(ws[..n], parse, atts, order[..|order| - 1])
        && WarnedOf(ws[n..], order[|order| - 1], OfFamily(parse, atts, order[|order| - 1]))
  }

  lemma WarnedMore(ws: seq<Warning>, more: seq<Warning>, parse: string -> Parsed, atts: seq<Attachment>, order: seq<Family>, f: Family)
    requires WarnedIn(ws, parse, atts, order) && WarnedOf(more, f, OfFamily(parse, atts, f))
    ensures WarnedIn(ws + more, parse, atts, order + [f])
  {
    hide WarnedOf, OfFamily;
    var all, o := ws + more, order + [f];
    assert all[..|ws|] == ws && all[|ws|..] == more && o[..|o| - 1] == order;
  }

  /** Each of the families, once. */
  ghost predicate Visits(order: seq<Family>, fs: set<Family>) {
    && (forall f :: f in order <==> f in fs)
    && forall i, j :: 0 <= i < j < |order| ==> order[i] != order[j]
  }

  lemma VisitsMore(order: seq<Family>, fs: set<Family>, f: Family)
    requires Visits(order, fs) && f !in fs
    ensures Visits(order + [f], fs + {f})
  {
  }

  /** The state of the loop once the families fs have been visited, in this order. */
  ghost predicate Built(ctx: Context, parse: string -> Parsed, atts: seq<Attachment>, fs: set<Family>,
                        out: map<string, Slice>, readiness: seq<Readiness>, warnings: seq<Warning>, order: seq<Family>) {
    && out == WantedIn(ctx, parse, atts, fs)
    && Visits(order, fs)
    && readiness == ReadinessIn(ctx, parse, atts, order)
    && WarnedIn(warnings, parse, atts, order)
  }

  lemma BuiltParts(ctx: Context, parse: string -> Parsed, atts: seq<Attachment>, fs: set<Family>,
                   out: map<string, Slice>, readiness: seq<Readiness>, warnings: seq<Warning>, order: seq<Family>)
    requires Built(ctx, parse, atts, fs, out, readiness, warnings, order)
    ensures out == WantedIn(ctx, parse, atts, fs) && Visits(order, fs)
    ensures readiness == ReadinessIn(ctx, parse, atts, order) && WarnedIn(warnings, parse, atts, order)
  {
  }

  lemma WantedMore(ctx: Context, parse: string -> Parsed, atts: seq<Attachment>, fs: set<Family>, f: Family)
    requires f in Families(parse, atts)
    ensures WantedIn(ctx, parse, atts, fs + {f})
         == WantedIn(ctx, parse, atts, fs)[SliceName(ctx.svc.name, f) := SliceFor(ctx, f, OfFamily(parse, atts, f))]
  {
    hide SliceFor, OfFamily, SliceName;
    SliceNamesDiffer(ctx.svc.name);
  }

  lemma BuiltMore(ctx: Context, parse: string -> Parsed, atts: seq<Attachment>, fs: set<Family>,
                  out: map<string, Slice>, readiness: seq<Readiness>, warnings: seq<Warning>, order: seq<Family>,
                  f: Family, s: Slice, r: seq<Readiness>, w: seq<Warning>)
    requires Built(ctx, parse, atts, fs, out, readiness, warnings, order) && f !in fs && f in Families(parse, atts)
    requires s == SliceFor(ctx, f, OfFamily(parse, atts, f))
    requires r == ReadinessFor(ctx, Published(OfFamily(parse, atts, f)))
    requires WarnedOf(w, f, OfFamily(parse, atts, f))
    ensures Built(ctx, parse, atts, fs + {f}, out[SliceName(ctx.svc.name, f) := s], readiness + r, warnings + w, order + [f])
  {
    hide WantedIn, SliceFor, WarnedOf, WarnedIn, ReadinessFor, ReadinessIn, Published, OfFamily, Families, SliceName, Visits;
    WantedMore(ctx, parse, atts, fs, f);
    VisitsMore(order, fs, f);
    ReadinessMore(ctx, parse, atts, order, f);
    WarnedMore(warnings, w, parse, atts, order, f);
  }

  lemma BuiltNone(ctx: Context, parse: string -> Parsed, atts: seq<Attachment>)
    ensures Built(ctx, parse, atts, {}, map[], [], [], [])
  {
  }

  /** The loop over the map of families, in any order. */
  method BuildFamilies(ctx: Context, parse: string -> Parsed, atts: seq<Attachment>, byFamily: map<Family, seq<Attachment>>,
                       ports: seq<Port>)
    returns (out: map<string, Slice>, readiness: seq<Readiness>, warnings: seq<Warning>, ghost order: seq<Family>)
    requires ports == PortsFor(ctx.svc.ports)
    requires byFamily.Keys == Families(parse, atts)
    requires forall f :: f in byFamily ==> byFamily[f] == OfFamily(parse, atts, f)
    ensures Built(ctx, parse, atts, byFamily.Keys, out, readiness, warnings, order)
  {
    hide Built, SliceFor, WarnedOf, ReadinessFor, Published, OfFamily, Families, SliceName, PortsFor;
    out, readiness, warnings, order := map[], [], [], [];
    BuiltNone(ctx, parse, atts);
    var todo := byFamily.Keys;
    ghost var done: set<Family> := {};
    while todo != {}
      invariant todo + done == byFamily.Keys && todo !! done
      invariant Built(ctx, parse, atts, done, out, readiness, warnings, order)
    {
      var f :| f in todo;
      var s, r, w := BuildFamily(ctx, f, byFamily[f], ports);
      BuiltMore(ctx, parse, atts, done, out, readiness, warnings, order, f, s, r, w);
      out := out[SliceName(ctx.svc.name, f) := s];
      readiness, warnings, order := readiness + r, warnings + w, order + [f];
      todo, done := todo - {f}, done + {f};
    }
    assert done == byFamily.Keys;
  }

  /** The decisions, one for each of these endpoints and in their order. */
  predicate DecidesEach(rs: seq<Readiness>, eps: seq<SliceEndpoint>) {
    |rs| == |eps| && forall k :: 0 <= k < |rs| ==> eps[k].ready == Some(rs[k].ready)
  }

  function EndpointsUnder(out: map<string, Slice>, n: string): seq<SliceEndpoint> {
    if n in out then out[n].endpoints else []
  }

  lemma FamilyDecides(ctx: Context, f: Family, list: seq<Attachment>)
    ensures DecidesEach(ReadinessFor(ctx, Published(list)), SliceFor(ctx, f, list).endpoints)
  {
    hide Published, ComputeReady, Hostname;
  }

  lemma DecidesBoth(rs: seq<Readiness>, ts: seq<Readiness>, x: seq<SliceEndpoint>, y: seq<SliceEndpoint>)
    requires DecidesEach(rs, x) && DecidesEach(ts, y)
    ensures DecidesEach(rs + ts, x + y) && DecidesEach([], [])
  {
  }

  lemma WantedUnder(ctx: Context, parse: string -> Parsed, atts: seq<Attachment>)
    ensures
      EndpointsUnder(Wanted(ctx, parse, atts), ctx.svc.name + "-secondary-ipv4")
        == if IPv4 in Families(parse, atts) then SliceFor(ctx, IPv4, OfFamily(parse, atts, IPv4)).endpoints else []
    ensures
      EndpointsUnder(Wanted(ctx, parse, atts), ctx.svc.name + "-secondary-ipv6")
        == if IPv6 in Families(parse, atts) then SliceFor(ctx, IPv6, OfFamily(parse, atts, IPv6)).endpoints else []
  {
    hide OfFamily, SliceFor, SliceName, Families;
    SliceNamesDiffer(ctx.svc.name);
  }

  lemma VisitsTwo(order: seq<Family>, fs: set<Family>)
    requires Visits(order, fs) && FQDN !in fs
    ensures order == [] || order == [IPv4] || order == [IPv6] || order == [IPv4, IPv6] || order == [IPv6, IPv4]
    ensures (IPv4 in fs <==> IPv4 in order) && (IPv6 in fs <==> IPv6 in order)
  {
    forall i | 0 <= i < |order| ensures order[i] == IPv4 || order[i] == IPv6 {
      assert order[i] in fs;
    }
    if |order| == 2 {
      assert order == [order[0], order[1]];
    } else if |order| == 1 {
      assert order == if order[0] == IPv4 then [IPv4] else [IPv6];
    } else {
      assert |order| > 2 ==> order[0] != order[1] && order[1] != order[2] && order[0] != order[2];
      assert order == [];
    }
  }

  lemma ReadinessOfOrder(ctx: Context, parse: string -> Parsed, atts: seq<Attachment>, f: Family, g: Family)
    ensures ReadinessIn(ctx, parse, atts, []) == []
    ensures ReadinessIn(ctx, parse, atts, [f]) == ReadinessFor(ctx, Published(OfFamily(parse, atts, f)))
    ensures ReadinessIn(ctx, parse, atts, [f, g])
         == ReadinessFor(ctx, Published(OfFamily(parse, atts, f))) + ReadinessFor(ctx, Published(OfFamily(parse, atts, g)))
  {
    hide OfFamily, Published, ReadinessFor;
    assert ReadinessIn(ctx, parse, atts, []) == [];
    hide ReadinessIn;
    ReadinessMore(ctx, parse, atts, [], f);
    ReadinessMore(ctx, parse, atts, [f], g);
    assert [] + [f] == [f] && [f] + [g] == [f, g];
  }

  /** The decisions returned are those of the endpoints published, family by family. */
  lemma DecisionsMeaning(ctx: Context, parse: string -> Parsed, atts: seq<Attachment>, order: seq<Family>)
    requires Visits(order, Families(parse, atts))
    ensures
      var out, rs := Wanted(ctx, parse, atts), ReadinessIn(ctx, parse, atts, order);
      var v4 := EndpointsUnder(out, ctx.svc.name + "-secondary-ipv4");
      var v6 := EndpointsUnder(out, ctx.svc.name + "-secondary-ipv6");
      DecidesEach(rs, v4 + v6) || DecidesEach(rs, v6 + v4)
  {
    hide Visits, OfFamily, SliceFor, ReadinessFor, ReadinessIn, Families, Published, DecidesEach, EndpointsUnder, Wanted;
    FamiliesMeaning(parse, atts);
    VisitsTwo(order, Families(parse, atts));
    WantedUnder(ctx, parse, atts);
    var l4, l6 := OfFamily(parse, atts, IPv4), OfFamily(parse, atts, IPv6);
    var v4, v6 := SliceFor(ctx, IPv4, l4).endpoints, SliceFor(ctx, IPv6, l6).endpoints;
    var r4, r6 := ReadinessFor(ctx, Published(l4)), ReadinessFor(ctx, Published(l6));
    FamilyDecides(ctx, IPv4, l4);
    FamilyDecides(ctx, IPv6, l6);
    ReadinessOfOrder(ctx, parse, atts, IPv4, IPv6);
    ReadinessOfOrder(ctx, parse, atts, IPv6, IPv4);
    DecidesBoth(r4, r6, v4, v6);
    DecidesBoth(r6, r4, v6, v4);
    var none: seq<SliceEndpoint> := [];
    assert v4 + none == v4 == none + v4 && none + v6 == v6 == v6 + none && none + none == none;
  }

  /**
   desiredSlices. The map of families is visited in any order; the slices do not show
   it, the lists of decisions and warnings are grouped by it, after the port warnings.
   */
  method DesiredSlices(ctx: Context, parse: string -> Parsed, atts: seq<Attachment>)
    returns (out: map<string, Slice>, readiness: seq<Readiness>, warnings: seq<Warning>, ghost order: seq<Family>)
    ensures out == Wanted(ctx, parse, atts)
    ensures forall n :: n in out ==>
      ShowsService(ctx, parse, atts, if n == ctx.svc.name + "-secondary-ipv6" then IPv6 else IPv4, n, out[n])
    ensures Visits(order, Families(parse, atts))
    ensures readiness == ReadinessIn(ctx, parse, atts, order)
    ensures
      var v4 := EndpointsUnder(out, ctx.svc.name + "-secondary-ipv4");
      var v6 := EndpointsUnder(out, ctx.svc.name + "-secondary-ipv6");
      DecidesEach(readiness, v4 + v6) || DecidesEach(readiness, v6 + v4)
    ensures PortWarnings(ctx.svc.ports) <= warnings
    ensures WarnedIn(warnings[|PortWarnings(ctx.svc.ports)|..], parse, atts, order)
  {
    hide Built, WarnedIn, ReadinessIn, WantedIn, Visits, OfFamily, Families, PortsFor, PortWarnings, ShowsService;
    var ports, portWarnings, named := ServicePorts(ctx.svc.ports);
    var byFamily := ByFamily(parse, atts);
    var more: seq<Warning>;
    out, readiness, more, order := BuildFamilies(ctx, parse, atts, byFamily, ports);
    BuiltParts(ctx, parse, atts, Families(parse, atts), out, readiness, more, order);
    warnings := portWarnings + more;
    DecisionsMeaning(ctx, parse, atts, order);
    hide DecidesEach, EndpointsUnder;
    assert warnings[|portWarnings|..] == more;
    forall n | n in out
      ensures ShowsService(ctx, parse, atts, if n == ctx.svc.name + "-secondary-ipv6" then IPv6 else IPv4, n, out[n])
    {
      WantedMeaning(ctx, parse, atts, n);
    }
  }
}
