/** The later steps of a sync, on the objects that rendering made: create the forks, then rewrite the generated
    originals and the cached ones in place and update the originals in the cluster. */
module Sync {
  import opened Kube
  import opened Upstream
  import opened Objects
  import opened Takeover
  import opened Protocol
  import opened ApiServer
  import opened Plan

  // ---------------------------------------------------------------- which objects are different

  predicate SelfSeparated(c: ServiceCollection) {
    && c.origin != c.inCluster && c.forked != c.origin && c.forked != c.inCluster
    && c.origin.ports != c.inCluster.ports
  }

  predicate Separated(a: ServiceCollection, b: ServiceCollection) {
    && a.canaryPorts != b.canaryPorts
    && {a.origin, a.inCluster, a.forked} !! {b.origin, b.inCluster, b.forked}
    && {a.origin.ports, a.inCluster.ports} !! {b.origin.ports, b.inCluster.ports}
  }

  /** A fork shares its ports with its own origin; apart from that the collections share nothing that a sync writes. */
  predicate AllSeparated(cols: seq<ServiceCollection>) {
    && (forall c | c in cols :: SelfSeparated(c) && c.forked.ports == c.origin.ports)
    && (forall i, j | 0 <= i < |cols| && 0 <= j < |cols| && i != j :: cols[i] != cols[j] && Separated(cols[i], cols[j]))
  }

  // ---------------------------------------------------------------- the forks

  /** Neither the generated original nor its fork has been rewritten. */
  predicate Prepared(c: ServiceCollection, t: Target)
    reads c.origin, c.origin.ports, c.forked, c.forked.ports
  {
    c.service == t.manifest.name && c.origin.View() == Forked(t.manifest) && c.forked.View() == Fork(t.manifest)
  }

  /** The target's fork was stored where there was none. */
  ghost predicate ForkStored(now: Services, next: Services, t: Target, canary: OwnerReference) {
    var f := t.manifest.name + FORKED_SUFFIX;
    f !in now && exists v: nat :: next == now[f := WantedFork(t, canary).(resourceVersion := v)]
  }

  method ForkOne(cluster: Cluster, c: ServiceCollection, canary: OwnerReference, ghost t: Target) returns (ok: bool)
    requires cluster.Valid() && cluster.State().pc.Forking? && t.manifest.name in cluster.names
    requires Prepared(c, t) && t.manifest.selector != cluster.proxySelector
    modifies cluster, c.forked`owners
    ensures cluster.Continues() && cluster.SameNginx() && cluster.State().pc.Forking?
    ensures c.forked.View() == WantedFork(t, canary)
    ensures ok ==> cluster.State().pc.forked == old(cluster.State().pc.forked) + {t.manifest.name}
    ensures ok ==> t.manifest.name + FORKED_SUFFIX in cluster.services
    ensures cluster.reliable ==> ok
    ensures cluster.services == old(cluster.services) || ForkStored(old(cluster.services), cluster.services, t, canary)
  {
    hide After, Throughout, Canaries, CoversAll, Reflects, Named, NoClash;
    c.forked.owners := AppendOwnerIfNotExists(c.forked.owners, canary);
    var result := cluster.CreateFork(c.service, c.forked.View());
    ok := result != Failed;
  }

  lemma ForkStep(start: Services, now: Services, next: Services, plan: seq<Target>, k: nat, canary: OwnerReference,
                 names: set<string>)
    requires PlanFor(plan, names) && NoClash(names) && k < |plan|
    requires ForksRight(start, now, plan, canary) && OthersKept(start, now, names) && SameOriginals(start, now, names)
    requires next == now || ForkStored(now, next, plan[k], canary)
    ensures ForksRight(start, next, plan, canary) && OthersKept(start, next, names) && SameOriginals(start, next, names)
    ensures forall x | x in now :: x in next
  {
    hide ForksRight, OthersKept, WantedFork, PlanFor, NoClash;
    if next != now {
      var f := plan[k].manifest.name + FORKED_SUFFIX;
      var v: nat :| next == now[f := WantedFork(plan[k], canary).(resourceVersion := v)];
      ForkCreated(start, now, next, map[], plan, k, map[], canary, names, v);
    }
  }

  /** The collections from `k` on have not been rewritten. */
  predicate PreparedFrom(cols: seq<ServiceCollection>, plan: seq<Target>, k: nat)
    reads set c | c in cols :: c.origin
    reads set c | c in cols :: c.origin.ports
    reads set c | c in cols :: c.forked
    reads set c | c in cols :: c.forked.ports
  {
    |plan| == |cols| && forall i | k <= i < |cols| :: Prepared(cols[i], plan[i])
  }

  /** One round of the loop. */
  method ForkNext(cluster: Cluster, cols: seq<ServiceCollection>, i: nat, canary: OwnerReference,
                  ghost plan: seq<Target>, ghost start: Services)
    returns (ok: bool)
    requires cluster.Valid() && cluster.State().pc.Forking?
    requires AllSeparated(cols) && i < |cols| && PreparedFrom(cols, plan, i) && PlanFor(plan, cluster.names)
    requires plan[i].manifest.selector != cluster.proxySelector
    requires ForksRight(start, cluster.services, plan, canary) && OthersKept(start, cluster.services, cluster.names)
    requires SameOriginals(start, cluster.services, cluster.names)
    modifies cluster, cols[i].forked`owners
    ensures cluster.Continues() && cluster.SameNginx() && cluster.State().pc.Forking?
    ensures PreparedFrom(cols, plan, i + 1)
    ensures ok ==> cluster.State().pc.forked == old(cluster.State().pc.forked) + {plan[i].manifest.name}
    ensures ok ==> plan[i].manifest.name + FORKED_SUFFIX in cluster.services
    ensures cluster.reliable ==> ok
    ensures forall x | x in old(cluster.services) :: x in cluster.services
    ensures ForksRight(start, cluster.services, plan, canary) && OthersKept(start, cluster.services, cluster.names)
    ensures SameOriginals(start, cluster.services, cluster.names)
  {
    hide After, Throughout, Canaries, CoversAll, Reflects, Named, NoClash, ForksRight, OthersKept, SameOriginals,
         WantedFork, Fork, Forked;
    ghost var before := cluster.services;
    ok := ForkOne(cluster, cols[i], canary, plan[i]);
    ForkStep(start, before, cluster.services, plan, i, canary, cluster.names);
    forall k | i < k < |cols| ensures Prepared(cols[k], plan[k]) {
      assert Separated(cols[i], cols[k]);
      assert unchanged(cols[k].origin, cols[k].origin.ports, cols[k].forked, cols[k].forked.ports);
    }
  }

  /** Creates the forks that do not exist yet, before any port array is rewritten. */
  method CreateForks(cluster: Cluster, cols: seq<ServiceCollection>, canary: OwnerReference,
                     ghost plan: seq<Target>, ghost start: Services)
    returns (ok: bool)
    requires cluster.Valid() && cluster.State().pc == Forking({})
    requires AllSeparated(cols) && PreparedFrom(cols, plan, 0) && PlanFor(plan, cluster.names)
    requires forall n | n in cluster.names :: exists i :: 0 <= i < |plan| && plan[i].manifest.name == n
    requires forall i | 0 <= i < |plan| :: plan[i].manifest.selector != cluster.proxySelector
    requires ForksRight(start, cluster.services, plan, canary) && OthersKept(start, cluster.services, cluster.names)
    requires SameOriginals(start, cluster.services, cluster.names)
    modifies cluster, (set c | c in cols :: c.forked)`owners
    ensures cluster.Continues() && cluster.SameNginx()
    ensures cluster.State().pc.Forking? && (ok ==> cluster.State().pc == Forking(cluster.names))
    ensures ForksRight(start, cluster.services, plan, canary) && OthersKept(start, cluster.services, cluster.names)
    ensures SameOriginals(start, cluster.services, cluster.names)
    ensures ok ==> AllForked(cluster.services, plan)
    ensures cluster.reliable ==> ok
  {
    hide After, Throughout, Canaries, CoversAll, Reflects, Named, NoClash, ForksRight, OthersKept, SameOriginals,
         AllSeparated, Prepared;
    ok := true;
    var i := 0;
    while i < |cols| && ok
      invariant 0 <= i <= |cols| && cluster.Continues() && cluster.SameNginx()
      invariant cluster.State().pc.Forking? && PreparedFrom(cols, plan, i)
      invariant ok ==> cluster.State().pc.forked == set k | 0 <= k < i :: plan[k].manifest.name
      invariant ok ==> forall k | 0 <= k < i :: plan[k].manifest.name + FORKED_SUFFIX in cluster.services
      invariant ForksRight(start, cluster.services, plan, canary) && OthersKept(start, cluster.services, cluster.names)
      invariant SameOriginals(start, cluster.services, cluster.names)
      invariant cluster.reliable ==> ok
    {
      ok := ForkNext(cluster, cols, i, canary, plan, start);
      i := i + 1;
    }
  }

  // ---------------------------------------------------------------- the originals

  method Retarget(ports: array<ServicePort>, table: map<string, int>)
    modifies ports
    ensures ports[..] == RetargetedPorts(old(ports[..]), table)
  {
    var i := 0;
    while i < ports.Length
      invariant 0 <= i <= ports.Length
      invariant forall k | 0 <= k < i :: ports[k] == Retargeted(old(ports[k]), table)
      invariant forall k | i <= k < ports.Length :: ports[k] == old(ports[k])
    {
      var port := ports[i];
      port := port.(targetPort := FromInt(ListenPort(table, ProtoPortKey(port.protocol, port.port))));
      ports[i] := port;
      i := i + 1;
    }
  }

  /** One accepted update, with what a takeover makes of the cached service. */
  ghost predicate StoredOver(now: Services, next: Services, t: Target, cached: Service, selector: map<string, string>,
                             canary: OwnerReference) {
    && t.manifest.name in now && cached.resourceVersion == now[t.manifest.name].resourceVersion
    && var after := AfterTakeover(cached, WantedOriginal(t, selector), canary);
       exists v: nat :: next == now[t.manifest.name := after.(resourceVersion := v)]
  }

  /** One original.  The generated and the cached service are rewritten in place, whatever becomes of the update: if
      it fails, the cached service already looks taken over. */
  method TakeOverOne(cluster: Cluster, c: ServiceCollection, selector: map<string, string>, canary: OwnerReference,
                     ghost t: Target, ghost cached: Service)
    returns (ok: bool)
    requires cluster.Valid() && cluster.State().pc.Pointing? && t.manifest.name in cluster.names
    requires selector == cluster.proxySelector
    requires SelfSeparated(c) && c.origin.View() == Forked(t.manifest) && c.upstreamPorts == t.table
    requires c.inCluster.View() == cached && cached.name == t.manifest.name
    modifies cluster, c.origin`selector, c.origin.ports, c.inCluster`owners, c.inCluster`selector, c.inCluster.ports
    ensures cluster.Continues() && cluster.SameNginx() && cluster.State().pc.Pointing?
    ensures c.origin.View() == WantedOriginal(t, selector)
    ensures c.inCluster.View() == AfterTakeover(cached, WantedOriginal(t, selector), canary)
    ensures AlreadyPoints(cached, WantedOriginal(t, selector)) ==> ok && cluster.services == old(cluster.services)
    ensures
      var stored := StoredOver(old(cluster.services), cluster.services, t, cached, selector, canary);
      && (cluster.services != old(cluster.services) ==> stored)
      && (ok && !AlreadyPoints(cached, WantedOriginal(t, selector)) ==> stored)
    ensures cluster.reliable && t.manifest.name in old(cluster.services)
            && old(cluster.services)[t.manifest.name].resourceVersion == cached.resourceVersion
        ==> ok
  {
    hide After, Throughout, Canaries, CoversAll, Reflects, Named, NoClash, WithOwner;
    c.origin.selector := selector;
    Retarget(c.origin.ports, c.upstreamPorts);
    assert c.origin.View() == WantedOriginal(t, selector);
    if c.origin.ports[..] == c.inCluster.ports[..] && c.origin.selector == c.inCluster.selector {
      return true;
    }
    c.inCluster.owners := AppendOwnerIfNotExists(c.inCluster.owners, canary);
    PatchTargetPort(c.inCluster.ports, c.origin.ports);
    c.inCluster.selector := c.origin.selector;
    assert c.inCluster.View() == TakenOver(cached, WantedOriginal(t, selector), canary);
    ok := cluster.UpdateService(c.inCluster.View());
  }

  // ---------------------------------------------------------------- all originals

  /** The collections from `k` on still hold the forked manifests and the services the lister handed out. */
  predicate WaitingFrom(cols: seq<ServiceCollection>, plan: seq<Target>, lister: Services, k: nat)
    reads cols
    reads set c | c in cols :: c.origin
    reads set c | c in cols :: c.origin.ports
    reads set c | c in cols :: c.inCluster
    reads set c | c in cols :: c.inCluster.ports
  {
    |plan| == |cols| && forall i | k <= i < |cols| :: Waiting(cols[i], plan[i], lister)
  }

  predicate Waiting(c: ServiceCollection, t: Target, lister: Services)
    reads c, c.origin, c.origin.ports, c.inCluster, c.inCluster.ports
  {
    && c.origin.View() == Forked(t.manifest) && c.upstreamPorts == t.table
    && t.manifest.name in lister && lister[t.manifest.name].name == t.manifest.name
    && c.inCluster.View() == lister[t.manifest.name]
  }

  /** The originals from target `k` on have not changed. */
  predicate PendingFrom(start: Services, now: Services, plan: seq<Target>, k: nat) {
    forall i | k <= i < |plan| ::
      var n := plan[i].manifest.name;
      (n in start <==> n in now) && (n in start ==> now[n] == start[n])
  }

  lemma OneMoreTakenOver(start: Services, now: Services, lister: Services, plan: seq<Target>, k: nat,
                         selector: map<string, string>, canary: OwnerReference)
    requires k < |plan| && AllTakenOver(start, now, lister, plan[..k], selector, canary)
    requires TakenOverAt(start, now, lister, plan[k], selector, canary)
    ensures AllTakenOver(start, now, lister, plan[..k + 1], selector, canary)
  {
  }

  /** What the step for one original leaves of the whole progress. */
  lemma TakeOverStep(start: Services, now: Services, next: Services, lister: Services, plan: seq<Target>, k: nat,
                     selector: map<string, string>, canary: OwnerReference, names: set<string>, ok: bool)
    requires PlanFor(plan, names) && NoClash(names) && k < |plan| && plan[k].manifest.name in lister
    requires ForksRight(start, now, plan, canary) && OthersKept(start, now, names) && AllForked(now, plan)
    requires OriginalsRight(start, now, lister, plan, selector, canary) && PendingFrom(start, now, plan, k)
    requires AllTakenOver(start, now, lister, plan[..k], selector, canary)
    requires var cached := lister[plan[k].manifest.name];
             && (next == now || StoredOver(now, next, plan[k], cached, selector, canary))
             && (AlreadyPoints(cached, WantedOriginal(plan[k], selector)) ==> next == now)
             && (ok ==>
                   || AlreadyPoints(cached, WantedOriginal(plan[k], selector))
                   || StoredOver(now, next, plan[k], cached, selector, canary))
    ensures ForksRight(start, next, plan, canary) && OthersKept(start, next, names) && AllForked(next, plan)
    ensures OriginalsRight(start, next, lister, plan, selector, canary) && PendingFrom(start, next, plan, k + 1)
    ensures ok ==> AllTakenOver(start, next, lister, plan[..k + 1], selector, canary)
  {
    hide ForksRight, OthersKept, AllForked, OriginalsRight, AllTakenOver, NoClash, AfterTakeover, WantedOriginal,
         StoredOver, AlreadyPoints;
    var cached := lister[plan[k].manifest.name];
    if AlreadyPoints(cached, WantedOriginal(plan[k], selector)) {
      assert TakenOverAt(start, next, lister, plan[k], selector, canary);
    } else if StoredOver(now, next, plan[k], cached, selector, canary) {
      StoreStep(start, now, next, lister, plan, k, selector, canary, names);
    }
    if ok {
      OneMoreTakenOver(start, next, lister, plan, k, selector, canary);
    }
  }

  lemma StoreStep(start: Services, now: Services, next: Services, lister: Services, plan: seq<Target>, k: nat,
                  selector: map<string, string>, canary: OwnerReference, names: set<string>)
    requires PlanFor(plan, names) && NoClash(names) && k < |plan| && plan[k].manifest.name in lister
    requires StoredOver(now, next, plan[k], lister[plan[k].manifest.name], selector, canary)
    requires !AlreadyPoints(lister[plan[k].manifest.name], WantedOriginal(plan[k], selector))
    requires ForksRight(start, now, plan, canary) && OthersKept(start, now, names) && AllForked(now, plan)
    requires OriginalsRight(start, now, lister, plan, selector, canary) && PendingFrom(start, now, plan, k)
    requires AllTakenOver(start, now, lister, plan[..k], selector, canary)
    ensures ForksRight(start, next, plan, canary) && OthersKept(start, next, names) && AllForked(next, plan)
    ensures OriginalsRight(start, next, lister, plan, selector, canary) && PendingFrom(start, next, plan, k + 1)
    ensures AllTakenOver(start, next, lister, plan[..k], selector, canary)
    ensures TakenOverAt(start, next, lister, plan[k], selector, canary)
  {
    hide ForksRight, OthersKept, AllForked, OriginalsRight, AllTakenOver, TakenOverAt, NoClash, AfterTakeover,
         WantedOriginal, StoredOver, AlreadyPoints;
    StoredMeans(start, now, next, lister, plan[k], selector, canary);
    OriginalUpdated(start, now, next, lister, plan, k, selector, canary, names, next[plan[k].manifest.name]);
  }

  lemma StoredMeans(start: Services, now: Services, next: Services, lister: Services, t: Target,
                    selector: map<string, string>, canary: OwnerReference)
    requires t.manifest.name in lister && StoredOver(now, next, t, lister[t.manifest.name], selector, canary)
    requires !AlreadyPoints(lister[t.manifest.name], WantedOriginal(t, selector))
    requires PendingFrom(start, now, [t], 0)
    ensures TakenOverAt(start, next, lister, t, selector, canary)
    ensures t.manifest.name in now && t.manifest.name in next && next == now[t.manifest.name := next[t.manifest.name]]
  {
    hide AfterTakeover, WantedOriginal, AlreadyPoints;
    var n := t.manifest.name;
    var wanted := AfterTakeover(lister[n], WantedOriginal(t, selector), canary);
    var v: nat :| next == now[n := wanted.(resourceVersion := v)];
    assert [t][0] == t;
    assert wanted.(resourceVersion := v).SameAs(wanted);
  }

  /** Collection `k` holds what the lister handed out, or what a takeover makes of it. */
  predicate Rewritten(c: ServiceCollection, t: Target, lister: Services, selector: map<string, string>,
                      canary: OwnerReference)
    reads c.inCluster, c.inCluster.ports
  {
    var n := t.manifest.name;
    n in lister
    && (c.inCluster.View() == lister[n]
        || c.inCluster.View() == AfterTakeover(lister[n], WantedOriginal(t, selector), canary))
  }

  predicate AllRewritten(cols: seq<ServiceCollection>, plan: seq<Target>, lister: Services,
                         selector: map<string, string>, canary: OwnerReference)
    reads set c | c in cols :: c.inCluster
    reads set c | c in cols :: c.inCluster.ports
  {
    |plan| == |cols| && forall i | 0 <= i < |cols| :: Rewritten(cols[i], plan[i], lister, selector, canary)
  }

  /** What holds of the services while the originals up to `k` have been dealt with, if `ok` completely. */
  ghost predicate Progress(start: Services, now: Services, lister: Services, plan: seq<Target>,
                           selector: map<string, string>, canary: OwnerReference, names: set<string>, k: nat,
                           ok: bool) {
    && ForksRight(start, now, plan, canary) && OthersKept(start, now, names) && AllForked(now, plan)
    && OriginalsRight(start, now, lister, plan, selector, canary) && PendingFrom(start, now, plan, k)
    && (ok ==> k <= |plan| && AllTakenOver(start, now, lister, plan[..k], selector, canary))
  }

  /** The collections from `k` on wait; all hold what the lister handed out or what a takeover makes of that. */
  predicate Underway(cols: seq<ServiceCollection>, plan: seq<Target>, lister: Services, selector: map<string, string>,
                     canary: OwnerReference, k: nat)
    reads cols
    reads set c | c in cols :: c.origin
    reads set c | c in cols :: c.origin.ports
    reads set c | c in cols :: c.inCluster
    reads set c | c in cols :: c.inCluster.ports
  {
    WaitingFrom(cols, plan, lister, k) && AllRewritten(cols, plan, lister, selector, canary)
  }

  /** The lister shows the version that the server had. */
  predicate Fresh(start: Services, lister: Services, n: string) {
    n in start && n in lister && start[n].resourceVersion == lister[n].resourceVersion
  }

  lemma PendingIsFresh(start: Services, now: Services, lister: Services, plan: seq<Target>, k: nat)
    requires PendingFrom(start, now, plan, k) && k < |plan|
    ensures var n := plan[k].manifest.name;
            Fresh(start, lister, n) ==> n in now && now[n].resourceVersion == lister[n].resourceVersion
  {
  }

  /** One round of the loop. */
  method TakeOverNext(cluster: Cluster, cols: seq<ServiceCollection>, i: nat, selector: map<string, string>,
                      canary: OwnerReference, ghost plan: seq<Target>, ghost start: Services, ghost lister: Services)
    returns (ok: bool)
    requires cluster.Valid() && cluster.State().pc.Pointing? && selector == cluster.proxySelector
    requires AllSeparated(cols) && i < |cols| && PlanFor(plan, cluster.names)
    requires Underway(cols, plan, lister, selector, canary, i)
    requires Progress(start, cluster.services, lister, plan, selector, canary, cluster.names, i, true)
    modifies cluster, cols[i].origin`selector, cols[i].origin.ports
    modifies cols[i].inCluster`owners, cols[i].inCluster`selector, cols[i].inCluster.ports
    ensures cluster.Continues() && cluster.SameNginx() && cluster.State().pc.Pointing?
    ensures Underway(cols, plan, lister, selector, canary, i + 1)
    ensures Progress(start, cluster.services, lister, plan, selector, canary, cluster.names, i + 1, ok)
    ensures cluster.reliable && Fresh(start, lister, plan[i].manifest.name) ==> ok
  {
    hide After, Throughout, Canaries, CoversAll, Reflects, Named, NoClash, ForksRight, OthersKept, AllForked,
         OriginalsRight, AllTakenOver, PendingFrom, AfterTakeover, WantedOriginal, AlreadyPoints, StoredOver,
         Takeover.Forked;
    ghost var before := cluster.services;
    PendingIsFresh(start, before, lister, plan, i);
    ok := TakeOverOne(cluster, cols[i], selector, canary, plan[i], lister[plan[i].manifest.name]);
    TakeOverStep(start, before, cluster.services, lister, plan, i, selector, canary, cluster.names, ok);
    forall k | i < k < |cols| ensures Waiting(cols[k], plan[k], lister) {
      assert Separated(cols[i], cols[k]);
      assert unchanged(cols[k], cols[k].origin, cols[k].origin.ports, cols[k].inCluster, cols[k].inCluster.ports);
    }
    forall k | 0 <= k < |cols| && k != i ensures Rewritten(cols[k], plan[k], lister, selector, canary) {
      assert Separated(cols[i], cols[k]);
      assert unchanged(cols[k].inCluster, cols[k].inCluster.ports);
    }
  }

  /** Points the originals at the proxy, one after the other, up to the first failing update. */
  method PointOriginals(cluster: Cluster, cols: seq<ServiceCollection>, selector: map<string, string>,
                        canary: OwnerReference, ghost plan: seq<Target>, ghost start: Services, ghost lister: Services)
    returns (ok: bool)
    requires cluster.Valid() && cluster.State().pc.Pointing? && selector == cluster.proxySelector
    requires AllSeparated(cols) && WaitingFrom(cols, plan, lister, 0) && PlanFor(plan, cluster.names)
    requires Progress(start, cluster.services, lister, plan, selector, canary, cluster.names, 0, true)
    modifies cluster
    modifies (set c | c in cols :: c.origin)`selector, set c | c in cols :: c.origin.ports
    modifies (set c | c in cols :: c.inCluster)`owners, (set c | c in cols :: c.inCluster)`selector
    modifies set c | c in cols :: c.inCluster.ports
    ensures cluster.Continues() && cluster.SameNginx() && cluster.State().pc.Pointing?
    ensures AllRewritten(cols, plan, lister, selector, canary)
    ensures Progress(start, cluster.services, lister, plan, selector, canary, cluster.names, |cols|, ok)
    ensures |plan| == |cols|
    ensures cluster.reliable && (forall k | 0 <= k < |plan| :: Fresh(start, lister, plan[k].manifest.name)) ==> ok
  {
    hide After, Throughout, Canaries, CoversAll, Reflects, Named, NoClash, Progress, WaitingFrom, AllRewritten,
         Underway, AllSeparated, PlanFor;
    NoneRewritten(cols, plan, lister, selector, canary);
    ok := true;
    var i := 0;
    while i < |cols| && ok
      invariant 0 <= i <= |cols| && cluster.Continues() && cluster.SameNginx()
      invariant cluster.State().pc.Pointing?
      invariant Underway(cols, plan, lister, selector, canary, i)
      invariant Progress(start, cluster.services, lister, plan, selector, canary, cluster.names, i, ok)
      invariant cluster.reliable && (forall k | 0 <= k < |plan| :: Fresh(start, lister, plan[k].manifest.name)) ==> ok
    {
      ok := TakeOverNext(cluster, cols, i, selector, canary, plan, start, lister);
      i := i + 1;
    }
    ProgressStays(start, cluster.services, lister, plan, selector, canary, cluster.names, i, |cols|, ok);
    UnderwayMeans(cols, plan, lister, selector, canary, i);
  }

  lemma ProgressAtFirst(start: Services, now: Services, lister: Services, plan: seq<Target>,
                        selector: map<string, string>, canary: OwnerReference, names: set<string>)
    requires ForksRight(start, now, plan, canary) && OthersKept(start, now, names) && AllForked(now, plan)
    requires OriginalsRight(start, now, lister, plan, selector, canary) && PendingFrom(start, now, plan, 0)
    ensures Progress(start, now, lister, plan, selector, canary, names, 0, true)
  {
    hide ForksRight, OthersKept, AllForked, OriginalsRight, PendingFrom;
  }

  lemma ProgressStays(start: Services, now: Services, lister: Services, plan: seq<Target>,
                      selector: map<string, string>, canary: OwnerReference, names: set<string>, k: nat, m: nat,
                      ok: bool)
    requires Progress(start, now, lister, plan, selector, canary, names, k, ok) && k <= m && (ok ==> k == m)
    ensures Progress(start, now, lister, plan, selector, canary, names, m, ok)
  {
  }

  lemma UnderwayMeans(cols: seq<ServiceCollection>, plan: seq<Target>, lister: Services, selector: map<string, string>,
                      canary: OwnerReference, k: nat)
    requires Underway(cols, plan, lister, selector, canary, k)
    ensures AllRewritten(cols, plan, lister, selector, canary)
  {
  }

  lemma NoneRewritten(cols: seq<ServiceCollection>, plan: seq<Target>, lister: Services, selector: map<string, string>,
                      canary: OwnerReference)
    requires WaitingFrom(cols, plan, lister, 0)
    ensures |plan| == |cols| && AllRewritten(cols, plan, lister, selector, canary)
    ensures Underway(cols, plan, lister, selector, canary, 0)
  {
  }
}
