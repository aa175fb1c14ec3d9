/**
 Attachments, health reports and the keys they are filed under
 (internal/model/attachment.go, internal/model/health.go).

 A key is the hex digest of a byte preimage. The model keeps the preimage in the
 constructor `Digest`, that is, it takes the hash to be injective; what remains to
 be proved is that the preimages themselves are unambiguous.
 */
module HealthModel {
  datatype Key = Digest(preimage: string)

  datatype ProbeScope = Endpoint | Node

  datatype State = Healthy | Unhealthy | Unknown

  /** What Attachment.ID feeds the hasher: four parts, each followed by a NUL. */
  function IDPreimage(podUID: string, nad: string, iface: string, ip: string): string {
    podUID + [NUL] + (nad + [NUL] + (iface + [NUL] + (ip + [NUL])))
  }

  /** What PathDomainID feeds the hasher: one separator, no terminator. */
  function DomainPreimage(nodeName: string, nad: string): string {
    nodeName + [NUL] + nad
  }

  function PathDomainID(nodeName: string, nad: string): Key {
    Digest(DomainPreimage(nodeName, nad))
  }

  predicate NoNul(s: string) {
    NUL !in s
  }

  datatype Attachment = Attachment(
    podUID: string, podName: string, podNamespace: string, nodeName: string,
    nad: string, iface: string, ip: string, podReady: bool)
  {
    /** The attachment's identity across controller and agent. */
    function ID(): Key {
      Digest(IDPreimage(podUID, nad, iface, ip))
    }

    /** The key this attachment reads its path state under. */
    function PathKey(scope: ProbeScope): Key {
      if scope == Node then PathDomainID(nodeName, nad) else ID()
    }

    predicate NulFree() {
      NoNul(podUID) && NoNul(nodeName) && NoNul(nad) && NoNul(iface) && NoNul(ip)
    }
  }

  datatype LocalHealth = LocalHealth(
    attachmentID: Key, podUID: string, namespace: string, podName: string,
    nad: string, iface: string, ip: string, nodeName: string,
    interfaceExists: bool, addressPresent: bool, linkUsable: bool, observedAt: int)
  {
    predicate Ready() {
      interfaceExists && addressPresent && linkUsable
    }
  }

  datatype PathHealth = PathHealth(
    scope: ProbeScope, scopeID: Key, nodeName: string, nad: string, target: string,
    pathReady: bool, observedAt: int)

  datatype ReportOrigin = ReportOrigin(nodeName: string, agentInstance: string, sequence: nat)

  // ---------------------------------------------------------------- preimages

  const NUL: char := '\0'

  function Terminated(parts: seq<string>): string {
    if parts == [] then "" else Terminated(parts[..|parts| - 1]) + parts[|parts| - 1] + [NUL]
  }

  lemma TerminatedMore(parts: seq<string>, part: string)
    ensures Terminated(parts + [part]) == Terminated(parts) + part + [NUL]
  {
    assert (parts + [part])[..|parts|] == parts;
  }

  lemma NoneTerminated()
    ensures Terminated([]) == ""
  {
  }

  lemma FourTerminated(p: string, q: string, r: string, s: string)
    ensures Terminated([p, q, r, s]) == IDPreimage(p, q, r, s)
  {
    hide Terminated;
    assert Terminated([]) == "" by { NoneTerminated(); }
    TerminatedMore([], p);
    TerminatedMore([p], q);
    TerminatedMore([p, q], r);
    TerminatedMore([p, q, r], s);
    assert [] + [p] == [p] && [p] + [q] == [p, q] && [p, q] + [r] == [p, q, r] && [p, q, r] + [s] == [p, q, r, s];
  }

  lemma FlatPreimage(p: string, q: string, r: string, s: string)
    ensures IDPreimage(p, q, r, s) == p + [NUL] + q + [NUL] + r + [NUL] + s + [NUL]
  {
    assert r + [NUL] + (s + [NUL]) == r + [NUL] + s + [NUL];
    assert q + [NUL] + (r + [NUL] + s + [NUL]) == q + [NUL] + r + [NUL] + s + [NUL];
    assert p + [NUL] + (q + [NUL] + r + [NUL] + s + [NUL]) == p + [NUL] + q + [NUL] + r + [NUL] + s + [NUL];
  }

  /** Attachment.ID's loop over its four parts. */
  method HashedBytes(a: Attachment) returns (written: string)
    ensures Digest(written) == a.ID()
    ensures written == a.podUID + [NUL] + a.nad + [NUL] + a.iface + [NUL] + a.ip + [NUL]
  {
    var parts := [a.podUID, a.nad, a.iface, a.ip];
    written := "";
    for i := 0 to |parts|
      invariant written == Terminated(parts[..i])
    {
      assert parts[..i + 1][..i] == parts[..i];
      written := written + parts[i] + [NUL];
    }
    assert parts[..4] == parts;
    FourTerminated(a.podUID, a.nad, a.iface, a.ip);
    FlatPreimage(a.podUID, a.nad, a.iface, a.ip);
  }

  // ---------------------------------------------------------------- hostnames

  predicate LabelChar(c: char) {
    'a' <= c <= 'z' || '0' <= c <= '9' || c == '-'
  }

  /** A Pod name usable as one DNS label. */
  predicate IsLabel(n: string) {
    && 0 < |n| <= 63
    && (forall c :: c in n ==> LabelChar(c))
    && n[0] != '-' && n[|n| - 1] != '-'
  }

  /** Attachment.Hostname. */
  function Hostname(podName: string): string {
    if IsLabel(podName) then podName else ""
  }

  method ScanHostname(podName: string) returns (h: string)
    ensures h == Hostname(podName)
    ensures h != "" ==> h == podName
    ensures h != "" <==>
      && 1 <= |podName| <= 63 && podName[0] != '-' && podName[|podName| - 1] != '-'
      && forall i :: 0 <= i < |podName| ==> 'a' <= podName[i] <= 'z' || '0' <= podName[i] <= '9' || podName[i] == '-'
  {
    var n := podName;
    if n == "" || |n| > 63 || '.' in n {
      return "";
    }
    for i := 0 to |n|
      invariant forall k :: 0 <= k < i ==> LabelChar(n[k])
    {
      var c := n[i];
      var ok := ('a' <= c <= 'z') || ('0' <= c <= '9') || c == '-';
      if !ok {
        assert c in n && !LabelChar(c);
        return "";
      }
    }
    if n[0] == '-' || n[|n| - 1] == '-' {
      return "";
    }
    return n;
  }

  /** A NUL-free head is recovered from what follows it. */
  lemma NulSplits(a: string, x: string, b: string, y: string)
    requires NoNul(a) && NoNul(b)
    requires a + [NUL] + x == b + [NUL] + y
    ensures a == b && x == y
  {
    var s, t := a + [NUL] + x, b + [NUL] + y;
    assert s[|a|] == NUL && t[|b|] == NUL;
    assert forall k :: 0 <= k < |a| ==> s[k] == a[k] && s[k] != NUL;
    assert forall k :: 0 <= k < |b| ==> t[k] == b[k] && t[k] != NUL;
    assert a == s[..|a|] && b == t[..|b|];
    assert x == s[|a| + 1..] && y == t[|b| + 1..];
  }

  /** Two attachments share an ID exactly when the four identifying fields agree. */
  lemma IDIdentifies(a: Attachment, b: Attachment)
    requires a.NulFree() && b.NulFree()
    ensures a.ID() == b.ID() <==> a.podUID == b.podUID && a.nad == b.nad && a.iface == b.iface && a.ip == b.ip
  {
    if a.ID() == b.ID() {
      var x, y := a.ip + [NUL] + [], b.ip + [NUL] + [];
      assert x == a.ip + [NUL] && y == b.ip + [NUL];
      NulSplits(a.podUID, a.nad + [NUL] + (a.iface + [NUL] + x), b.podUID, b.nad + [NUL] + (b.iface + [NUL] + y));
      NulSplits(a.nad, a.iface + [NUL] + x, b.nad, b.iface + [NUL] + y);
      NulSplits(a.iface, x, b.iface, y);
      NulSplits(a.ip, [], b.ip, []);
    }
  }

  /** Only the node name has to be NUL-free for a path domain to be unambiguous. */
  lemma DomainIdentifies(node1: string, nad1: string, node2: string, nad2: string)
    requires NoNul(node1) && NoNul(node2)
    ensures PathDomainID(node1, nad1) == PathDomainID(node2, nad2) <==> node1 == node2 && nad1 == nad2
  {
    if PathDomainID(node1, nad1) == PathDomainID(node2, nad2) {
      NulSplits(node1, nad1, node2, nad2);
    }
  }

  /** An Endpoint-scope key is never a Node-scope key: one NUL cannot be four. */
  lemma IDIsNoDomain(a: Attachment, node: string, nad: string)
    requires a.NulFree() && NoNul(node) && NoNul(nad)
    ensures a.ID() != PathDomainID(node, nad)
  {
    var tail := a.nad + [NUL] + (a.iface + [NUL] + (a.ip + [NUL]));
    assert tail[|a.nad|] == NUL;
    if a.ID() == PathDomainID(node, nad) {
      NulSplits(a.podUID, tail, node, nad);
    }
  }

  /**
   The keys path evidence is read under. At Endpoint scope each identity has its own, at
   Node scope each node and network; and no key belongs to both scopes.
   */
  lemma PathKeyIdentifies(a: Attachment, b: Attachment)
    requires a.NulFree() && b.NulFree()
    ensures a.PathKey(Endpoint) == b.PathKey(Endpoint) <==>
      a.podUID == b.podUID && a.nad == b.nad && a.iface == b.iface && a.ip == b.ip
    ensures a.PathKey(Node) == b.PathKey(Node) <==> a.nodeName == b.nodeName && a.nad == b.nad
    ensures a.PathKey(Endpoint) != b.PathKey(Node)
  {
    hide IDPreimage, DomainPreimage;
    IDIdentifies(a, b);
    DomainIdentifies(a.nodeName, a.nad, b.nodeName, b.nad);
    IDIsNoDomain(a, b.nodeName, b.nad);
  }

  /** With a NUL inside a field two different attachments would share one ID. */
  lemma NulBreaksIdentity()
    ensures exists a: Attachment, b: Attachment :: a.ID() == b.ID() && a.ip == b.ip && a.podUID != b.podUID
  {
    var a := Attachment("u", "", "", "", "x\0n", "i", "", false);
    var b := Attachment("u\0x", "", "", "", "n", "i", "", false);
    var tail := "i" + [NUL] + ("" + [NUL]);
    assert "u" + [NUL] + ("x\0n" + [NUL] + tail) == "u\0x" + [NUL] + ("n" + [NUL] + tail);
    assert a.ID() == b.ID();
  }
}
