/** Whether one attachment may appear in DNS (internal/controller/readiness.go). */
module Readiness {
  import opened HealthModel
  import opened Store

  datatype Reason =
    | PodNotReady
    | NoLocalReport
    | LocalReportStale
    | InterfaceMissing
    | LinkDown
    | AddressMissing
    | NoPathReport
    | PathReportStale
    | PathNotReady
    | AllHealthy

  datatype Readiness = Readiness(attachmentID: Key, ready: bool, reason: Reason, local: State, path: State)

  /** The source reads the clock once per lookup; here the whole decision reads it once. */
  function ComputeReady(a: Attachment, scope: ProbeScope, st: StoreState, now: int): Readiness {
    var id, pathKey := a.ID(), a.PathKey(scope);
    var r := Readiness(id, false, PodNotReady, st.LocalState(id, now), st.PathState(pathKey, now));
    if !a.podReady then r
    else
      match FreshAt(st.local, id, st.ttl, now)
      case None => r.(reason := if id in st.local then LocalReportStale else NoLocalReport)
      case Some(local) =>
        if !local.Ready() then
          r.(reason :=
            if !local.interfaceExists then InterfaceMissing
            else if !local.linkUsable then LinkDown
            else AddressMissing)
        else
          match FreshAt(st.path, pathKey, st.ttl, now)
          case None => r.(reason := if pathKey in st.path then PathReportStale else NoPathReport)
          case Some(path) =>
            if !path.pathReady then r.(reason := PathNotReady)
            else r.(ready := true, reason := AllHealthy)
  }

  /** An entry backs its key now: fresh, and its report positive. */
  predicate LocalBacked(st: StoreState, id: Key, now: int) {
    id in st.local && now - st.local[id].acceptedAt <= st.ttl && st.local[id].report.Ready()
  }

  predicate PathBacked(st: StoreState, pk: Key, now: int) {
    pk in st.path && now - st.path[pk].acceptedAt <= st.ttl && st.path[pk].report.pathReady
  }

  predicate IsReady(a: Attachment, scope: ProbeScope, st: StoreState, now: int) {
    a.podReady && LocalBacked(st, a.ID(), now) && PathBacked(st, a.PathKey(scope), now)
  }

  /**
   Ready is exactly the five-term conjunction, and each reason names the first term that
   fails. Local evidence is read under the attachment's ID; path evidence too at Endpoint
   scope, and under the domain of its node and network at Node scope.
   */
  lemma ReadyIsFiveTerms(a: Attachment, scope: ProbeScope, st: StoreState, now: int)
    ensures
      var r := ComputeReady(a, scope, st, now);
      var id, pk := a.ID(), match scope case Endpoint => a.ID() case Node => PathDomainID(a.nodeName, a.nad);
      && (r.ready <==> IsReady(a, scope, st, now))
      && (r.ready <==>
            && a.podReady
            && id in st.local && now - st.local[id].acceptedAt <= st.ttl
            && st.local[id].report.interfaceExists && st.local[id].report.addressPresent && st.local[id].report.linkUsable
            && pk in st.path && now - st.path[pk].acceptedAt <= st.ttl && st.path[pk].report.pathReady)
      && (r.ready <==> a.podReady && r.local == Healthy && r.path == Healthy)
      && (r.ready <==> r.reason == AllHealthy)
      && (r.reason == PodNotReady <==> !a.podReady)
      && (r.reason in {NoLocalReport, LocalReportStale} <==> a.podReady && r.local == Unknown)
      && (r.reason in {InterfaceMissing, LinkDown, AddressMissing} <==> a.podReady && r.local == Unhealthy)
      && (r.reason in {NoPathReport, PathReportStale} <==> a.podReady && r.local == Healthy && r.path == Unknown)
      && (r.reason == PathNotReady <==> a.podReady && r.local == Healthy && r.path == Unhealthy)
      && (r.reason == LocalReportStale ==> a.ID() in st.local)
      && (r.reason == NoLocalReport ==> a.ID() !in st.local)
  {
  }

  /**
   The reasons in full: with a ready Pod, a missing report is told from a stale one,
   and a negative local report names the first of interface, link and address to fail.
   */
  lemma ReasonsAreExact(a: Attachment, scope: ProbeScope, st: StoreState, now: int)
    requires a.podReady
    ensures
      var r, id, pk := ComputeReady(a, scope, st, now), a.ID(), a.PathKey(scope);
      && r.attachmentID == id && r.local == st.LocalState(id, now) && r.path == st.PathState(pk, now)
      && (r.reason == NoLocalReport <==> id !in st.local)
      && (r.reason == LocalReportStale <==> id in st.local && now - st.local[id].acceptedAt > st.ttl)
      && (r.local == Unhealthy ==>
            var l := st.local[id].report;
            && (r.reason == InterfaceMissing <==> !l.interfaceExists)
            && (r.reason == LinkDown <==> l.interfaceExists && !l.linkUsable)
            && (r.reason == AddressMissing <==> l.interfaceExists && l.linkUsable && !l.addressPresent))
      && (r.reason == NoPathReport <==> r.local == Healthy && pk !in st.path)
      && (r.reason == PathReportStale <==> r.local == Healthy && pk in st.path && now - st.path[pk].acceptedAt > st.ttl)
  {
  }

  /** Readiness decays with time and never returns without a new acceptance. */
  lemma ReadinessOnlyDecays(a: Attachment, scope: ProbeScope, st: StoreState, now: int, later: int)
    requires now <= later && !ComputeReady(a, scope, st, now).ready
    ensures !ComputeReady(a, scope, st, later).ready
  {
  }
}
