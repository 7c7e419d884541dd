/** What the runs of the proxy come to: safety of the traffic at every moment, where a taken over port leads, and what
    syncs followed by a deprecation leave. */
module Outcomes {
  import opened Text
  import opened Sequences
  import opened Kube
  import opened Upstream
  import opened Objects
  import opened Takeover
  import opened Rendering
  import opened Allocator
  import opened ChangeCheck
  import opened Routing
  import opened Protocol
  import opened ApiServer
  import opened Plan
  import opened Cleaning
  import opened Preparation
  import opened Proxy
  import opened Reconciliation

  // ---------------------------------------------------------------- safety

  /** nginx has a configuration that serves exactly the ports of `n` that were asked for when it was loaded. */
  ghost predicate Configured(cluster: Cluster, n: string)
    reads cluster
  {
    cluster.nginx.Some? && n in cluster.asked && Covers(cluster.nginx.value, n, cluster.asked[n])
  }

  /** Whatever failed and whatever listers showed: in every state of the log nginx has every original that selects the
      proxy loaded, exactly if the proxy process was only ever started while none did; and then what it has loaded
      serves exactly the ports of them that were asked for. */
  lemma TrafficIsConfigured(cluster: Cluster)
    requires cluster.Valid()
    ensures AlwaysConfigured(cluster.names, cluster.found, cluster.log) <==> cluster.Steady()
    ensures cluster.Steady() || cluster.nginx.Some? ==>
              forall n | n in cluster.names && Selects(cluster.services, n, cluster.proxySelector) ::
                Configured(cluster, n)
  {
    hide After, Throughout, Covers, AlwaysConfigured;
    ConfiguredExactlyWhenStartsUnused(cluster.names, cluster.found, cluster.log);
  }

  /** As long as listers were current at cleanup and no failed recovery was ignored, whatever calls failed: at the end
      and after every earlier event, an original that selects the proxy has its fork and its canary service, and none
      does once the phase is written; and unless the proxy was started while some did, nginx serves exactly the ports of
      each that were asked for. */
  lemma TrafficIsSafe(cluster: Cluster)
    requires cluster.Valid() && cluster.Careful()
    ensures AlwaysSafe(cluster.names, cluster.found, cluster.log)
    ensures cluster.Steady() ==> AlwaysConfigured(cluster.names, cluster.found, cluster.log)
    ensures forall n | n in cluster.names && Selects(cluster.services, n, cluster.proxySelector) ::
              && n + FORKED_SUFFIX in cluster.services && n + CANARY_SUFFIX in cluster.services
              && Last(cluster.crs).phase == NoTransition
              && (cluster.Steady() ==> Configured(cluster, n))
  {
    hide After, Throughout, AlwaysSafe, AlwaysConfigured, Covers, Configured, CoversAll;
    TrafficIsConfigured(cluster);
    CarefulRunsAreSafe(cluster.names, cluster.found, cluster.log);
    FinallySafe(cluster.names, cluster.found, cluster.log);
  }

  lemma FinallySafe(names: set<string>, found: Found, run: seq<Event>)
    requires After(names, found, run).Reached? && AlwaysSafe(names, found, run)
    ensures Safe(After(names, found, run).state)
  {
  }

  /** Of a proxy whose syncs have failed, since it started, after they had loaded nginx if at all, and outside the part
      of a sync before that: nginx serves every original that selects the proxy exactly if there is none, or some sync
      since the start rendered a manifest other than the one recorded. */
  lemma ConfiguredExactlyWhenChanged(cluster: Cluster)
    requires cluster.Valid() && cluster.Careful() && SmoothSinceStart(cluster.names, cluster.found, cluster.log)
    requires !cluster.State().pc.Syncing? && !cluster.State().pc.Forking?
    ensures (forall n | n in cluster.names && Selects(cluster.services, n, cluster.proxySelector) ::
               Configured(cluster, n))
       <==> (|| (forall n | n in cluster.names :: !Selects(cluster.services, n, cluster.proxySelector))
             || ChangedSinceStart(cluster.names, cluster.found, cluster.log))
  {
    hide After, Throughout, Covers, ChangedSinceStart, SmoothSinceStart;
    ConfiguredExactlyWhenManifestChanged(cluster.names, cluster.found, cluster.log);
    var s := cluster.State();
    assert forall n | n in cluster.names :: n in s.toProxy <==> Selects(cluster.services, n, cluster.proxySelector);
    if s.toProxy != {} {
      var n :| n in s.toProxy;
      if Configured(cluster, n) {
        assert s.toProxy <= s.loaded;
      }
    }
  }

  // ---------------------------------------------------------------- routing

  /** The port leads to an entry that splits it as asked between the fork and the canary service of its own original
      `n`. */
  ghost predicate LeadsHome(config: TemplateConfig, n: string, asked: seq<CanaryPort>, p: ServicePort) {
    exists e :: InConfig(e, config) && Serves(e, Own(n, asked), p) && p.targetPort == FromInt(e.port)
  }

  /** What a takeover makes of a port, of which the lister showed `before`.  If it matches a manifest port first, by
      name or by number: it leads home exactly if that was asked for and has its protocol and number, and it gets target
      0 if that was not asked for.  If it matches none it is as before.  No second entry listens where one does. */
  ghost predicate Routed(config: TemplateConfig, views: seq<Column>, k: nat, n: string, asked: seq<CanaryPort>,
                         manifest: Service, before: ServicePort, p: ServicePort)
    requires k < |views|
  {
    var m := FirstMatch(p, manifest.ports);
    && p == before.(targetPort := p.targetPort)
    && (m < |manifest.ports| ==>
          && (LeadsHome(config, n, asked, p) <==>
                && Listed(asked, manifest.ports[m])
                && manifest.ports[m].protocol == p.protocol && manifest.ports[m].port == p.port)
          && (!Listed(asked, manifest.ports[m]) ==> p.targetPort == FromInt(0)))
    && (m == |manifest.ports| ==>
          && p == before
          && (LeadsHome(config, n, asked, p) <==>
                p.targetPort.FromInt? && AtOwnPlace(views, k, p, p.targetPort.number)))
    && (forall e, d | InConfig(e, config) && InConfig(d, config) && e.port == d.port :: e == d)
  }

  /** In particular, a port that a manifest of unique ports describes as it is leads home exactly if it was asked for,
      and gets target 0 if it was not. */
  lemma DescribedIsRouted(config: TemplateConfig, views: seq<Column>, k: nat, n: string, asked: seq<CanaryPort>,
                          manifest: Service, before: ServicePort, s: Service, x: nat)
    requires k < |views| && x < |s.ports| && Routed(config, views, k, n, asked, manifest, before, s.ports[x])
    requires UniquePorts(manifest.ports) && InManifest(s, manifest, x)
    ensures LeadsHome(config, n, asked, s.ports[x]) <==> Listed(asked, s.ports[x])
    ensures !Listed(asked, s.ports[x]) ==> s.ports[x].targetPort == FromInt(0)
  {
    hide LeadsHome, FirstMatch, InConfig;
    DescribedMatchesItsOwn(s, manifest, x);
  }

  /** The ports of the service are unique, as the API server demands, and the protocol of the one that port `x` matches
      has no dash. */
  predicate Routable(s: Service, manifest: Service, x: nat) {
    UniquePorts(s.ports) && x < |s.ports| && MatchesDashFree(s.ports[x], manifest)
  }

  /** The lister shows the ports and the selector that the server has. */
  predicate ShowsPorts(start: Services, lister: Services, n: string) {
    n in start && n in lister && lister[n].ports == start[n].ports && lister[n].selector == start[n].selector
  }

  /** What a port matches does not depend on node ports. */
  lemma ForkedMatches(p: ServicePort, q: ServicePort, manifest: Service)
    requires SameShape(p, q)
    ensures FirstMatch(q, Forked(manifest).ports) == FirstMatch(p, manifest.ports)
    ensures |Forked(manifest).ports| == |manifest.ports|
    ensures forall k | 0 <= k < |manifest.ports| :: SameShape(Forked(manifest).ports[k], manifest.ports[k])
    ensures forall table :: TargetFor(p, Forked(manifest), table) == TargetFor(p, manifest, table)
  {
    ShapesOfForked(manifest);
    FirstMatchByShape(q, p, Forked(manifest).ports, manifest.ports);
    FirstMatchByShape(p, p, Forked(manifest).ports, manifest.ports);
  }

  /** Sent or skipped: the port has the target that the table gives it.  What the lister hands out may look as if it
      pointed at the proxy; then it has to show what the server has. */
  lemma TargetOfTakenOver(start: Services, now: Services, lister: Services, t: Target, selector: map<string, string>,
                          canary: OwnerReference, x: nat)
    requires TakenOverAt(start, now, lister, t, selector, canary) && t.manifest.name in start
    requires UniquePorts(lister[t.manifest.name].ports) && x < |lister[t.manifest.name].ports|
    requires AlreadyPoints(lister[t.manifest.name], WantedOriginal(t, selector)) ==>
               ShowsPorts(start, lister, t.manifest.name)
    ensures var n, p := t.manifest.name, lister[t.manifest.name].ports[x];
            && n in now && now[n].selector == selector && |now[n].ports| == |lister[n].ports|
            && now[n].ports[x] == p.(targetPort := TargetFor(p, t.manifest, t.table))
  {
    hide AfterTakeover, Generated, UniquePorts, Forked, TargetFor;
    var n := t.manifest.name;
    var p := lister[n].ports[x];
    ForkedMatches(p, p, t.manifest);
    TargetAfterTakeover(lister[n], Forked(t.manifest), selector, t.table, canary, x);
    var after := AfterTakeover(lister[n], WantedOriginal(t, selector), canary);
    SkippedStays(lister[n], WantedOriginal(t, selector), canary);
    assert now[n].ports == after.ports && now[n].selector == after.selector by {
      if !AlreadyPoints(lister[n], WantedOriginal(t, selector)) {
        SameReads(now[n], after);
      }
    }
  }

  lemma SkippedStays(s: Service, generated: Service, canary: OwnerReference)
    ensures AlreadyPoints(s, generated) ==> AfterTakeover(s, generated, canary) == s
  {
  }

  lemma SameReads(s: Service, t: Service)
    requires s.SameAs(t)
    ensures s.ports == t.ports && s.selector == t.selector
  {
  }

  /** What was asked for is what the service's column lists. */
  lemma AskedIsListed(n: string, view: Column, services: seq<string>, ports: seq<seq<CanaryPort>>, p: ServicePort)
    requires ViewFor(n, view, services, ports) && NoRepeats(services)
    ensures n in AskedFor(services, ports) && multiset(view.ports) == multiset(AskedFor(services, ports)[n])
    ensures Listed(view.ports, p) <==> Listed(AskedFor(services, ports)[n], p)
  {
    hide Listed;
    var j :| 0 <= j < |services| == |ports| && services[j] == n && SortedPorts(view.ports)
             && multiset(view.ports) == multiset(ports[j]);
    AskedAt(services, ports, j);
    if Listed(view.ports, p) {
      ListedInPermutation(view.ports, ports[j], p);
    }
    if Listed(ports[j], p) {
      ListedInPermutation(ports[j], view.ports, p);
    }
  }

  /** After a sync that dealt with every original, under the configuration it generated, every port is routed. */
  lemma TakenOverIsRouted(namespace: string, views: seq<Column>, plan: seq<Target>, origins: Items,
                          services: seq<string>, ports: seq<seq<CanaryPort>>, start: Services, now: Services,
                          lister: Services, selector: map<string, string>, canary: OwnerReference, k: nat, x: nat)
    requires |views| == |plan| && PlannedFor(views, plan, origins) && ViewsFor(views, plan, services, ports)
    requires NoRepeats(services)
    requires forall i, j | 0 <= i < j < |plan| :: plan[i].manifest.name != plan[j].manifest.name
    requires AllTakenOver(start, now, lister, plan, selector, canary) && k < |plan| && plan[k].manifest.name in start
    requires plan[k].manifest.name in lister && Routable(lister[plan[k].manifest.name], plan[k].manifest, x)
    requires AlreadyPoints(lister[plan[k].manifest.name], WantedOriginal(plan[k], selector)) ==>
               ShowsPorts(start, lister, plan[k].manifest.name)
    ensures var n := plan[k].manifest.name;
            && n in now && now[n].selector == selector && x < |now[n].ports| && n in AskedFor(services, ports)
            && Routed(Generate(namespace, views), views, k, n, AskedFor(services, ports)[n], plan[k].manifest,
                      lister[n].ports[x], now[n].ports[x])
  {
    hide Generate, Table, Base, AfterTakeover, UniquePorts, Forked, Listed, InConfig, SortedPorts, ViewFor, AskedFor,
         AlreadyPoints, FirstMatch, Serves;
    var t, n := plan[k], plan[k].manifest.name;
    var p := lister[n].ports[x];
    assert PlannedAt(n, views, t, k, origins);
    assert TakenOverAt(start, now, lister, t, selector, canary);
    ForksDiffer(views, plan, origins);
    TargetOfTakenOver(start, now, lister, t, selector, canary, x);
    var q := now[n].ports[x];
    ForkedMatches(p, q, t.manifest);
    FirstMatchByShape(q, p, t.manifest.ports, t.manifest.ports);
    LeadsToOwnByTarget(namespace, views, k, t.manifest, p, q);
    var m := FirstMatch(p, t.manifest.ports);
    AskedIsListed(n, views[k], services, ports, p);
    if m < |t.manifest.ports| {
      AskedIsListed(n, views[k], services, ports, t.manifest.ports[m]);
      TableLeadsToOwn(views, k, t.manifest.ports[m], p);
    }
    OwnServes(n, views[k], AskedFor(services, ports)[n], q);
    OneEntryEach(namespace, views);
  }

  /** The port with the target that the table gives it. */
  lemma LeadsToOwnByTarget(namespace: string, views: seq<Column>, k: nat, manifest: Service, p: ServicePort,
                           q: ServicePort)
    requires k < |views| && NoRepeats(ForkedNames(views)) && MatchesDashFree(p, manifest)
    requires q == p.(targetPort := TargetFor(p, manifest, Table(views[k].ports, Base(views, k))))
    ensures (exists e ::
               InConfig(e, Generate(namespace, views)) && Serves(e, views[k], q) && q.targetPort == FromInt(e.port))
       <==> LeadsToOwn(views, k, manifest, p)
  {
    hide Table, Generate, InConfig, Serves, Listed, FirstMatch, ListenPort, ProtoPortKey;
    if q.targetPort.FromInt? {
      OwnEntryExactly(namespace, views, k, q, q.targetPort.number);
    }
    var m := FirstMatch(p, manifest.ports);
    if m < |manifest.ports| {
      TableLeadsToOwn(views, k, manifest.ports[m], p);
    }
  }

  lemma OwnServes(n: string, view: Column, asked: seq<CanaryPort>, p: ServicePort)
    requires view.forked == n + FORKED_SUFFIX && view.canary == n + CANARY_SUFFIX && view.name == ""
    requires multiset(view.ports) == multiset(asked)
    ensures forall e :: Serves(e, Own(n, asked), p) <==> Serves(e, view, p)
  {
    hide Serves;
    assert Own(n, asked) == view.(ports := asked);
    forall e ensures Serves(e, Own(n, asked), p) <==> Serves(e, view, p) {
      ServesInPermutation(e, view, asked, p);
    }
  }

  /** Of all columns, `views[k]` is the one of original `n`. */
  predicate IsColumnOf(views: seq<Column>, k: nat, n: string) {
    k < |views| && views[k].forked == n + FORKED_SUFFIX && NoRepeats(ForkedNames(views))
  }

  /** On the cluster: nginx has the configuration of `views`, and port `x` of the original selects the proxy and is
      routed by it. */
  ghost predicate RoutedNow(cluster: Cluster, namespace: string, views: seq<Column>, k: nat, manifest: Service,
                            before: ServicePort, n: string, x: nat)
    requires k < |views|
    reads cluster
  {
    && n in cluster.services && cluster.services[n].selector == cluster.proxySelector && x < |cluster.services[n].ports|
    && cluster.nginx == Some(Generate(namespace, views)) && n in cluster.asked
    && Routed(Generate(namespace, views), views, k, n, cluster.asked[n], manifest, before, cluster.services[n].ports[x])
  }

  /** After a sync of the proxy that dealt with every original: each port `x` of an original `n` of which the
      lister showed what the server had is routed by the configuration in nginx, in which `views[k]` is its column. */
  method TakeOverAndRoute(proxy: Proxy, originObjs: ObjectList, canaryObjs: ObjectList, spec: seq<CanaryService>,
                          cached: Cache, canary: OwnerReference, releaseOwner: OwnerReference, recorded: Services,
                          manifest: Manifest, ghost origins: Items,
                          ghost canaries: Items, ghost lister: Services, ghost ports: seq<seq<CanaryPort>>,
                          ghost n: string, ghost x: nat)
    returns (ok: bool, ghost done: bool, ghost views: seq<Column>, ghost k: nat)
    requires proxy.Valid() && proxy.cluster.State().pc == Idle
    requires proxy.cluster.crs[proxy.cluster.view].transition == NoTransition
    requires Held(originObjs, origins) && Held(canaryObjs, canaries) && Mirrors(cached, lister)
    requires Unshared(originObjs, canaryObjs, spec, cached)
    requires RendersOnce(canaries, ServiceNames(spec))
    requires (forall n :: n in ServiceNames(spec) <==> n in proxy.cluster.names) && Asks(spec, ports)
    requires NotOurs(origins, proxy.cluster.proxySelector) && NotOurs(canaries, proxy.cluster.proxySelector)
    modifies proxy`runningConfig, proxy.cluster
    modifies set o: ServiceObject | o in originObjs, set o: ServiceObject | o in originObjs :: o.ports
    modifies set o: ServiceObject | o in canaryObjs, set o: ServiceObject | o in canaryObjs :: o.ports
    modifies cached.Values, set o | o in cached.Values :: o.ports, set s | s in spec :: s.ports
    ensures proxy.Valid() && proxy.cluster.Advances()
    ensures done ==> ok && old(proxy.cluster.crs[proxy.cluster.view]).manifest != manifest
    ensures done && n in proxy.cluster.names && ShowsPorts(old(proxy.cluster.services), lister, n)
            && Find(origins, n) < |origins| ==>
              (Routable(lister[n], ManifestOf(origins, n), x) ==>
                 IsColumnOf(views, k, n)
                 && RoutedNow(proxy.cluster, proxy.namespace, views, k, ManifestOf(origins, n), lister[n].ports[x], n,
                              x))
  {
    hide After, Throughout, Canaries, CoversAll, Reflects, Named, NoClash, Asks, Held, Mirrors, RendersOnce, Generate,
         WasGenerated, NotOurs, CacheRewritten, ServicesSynced, AllForked, AllTakenOver, AskedFor, Routed, Routable,
         Unshared, Find, ManifestOf, IsColumnOf;
    ghost var planned, plan;
    k := 0;
    ghost var start := proxy.cluster.services;
    ok, done, planned, views, plan := proxy.Sync(originObjs, canaryObjs, spec, cached, canary, releaseOwner, recorded,
                                                 manifest, origins, canaries, lister, ports);
    if && done && n in proxy.cluster.names && ShowsPorts(start, lister, n)
       && Find(origins, n) < |origins| && Routable(lister[n], ManifestOf(origins, n), x) {
      k := SyncedIsRouted(proxy.namespace, views, plan, origins, ServiceNames(spec), ports, start,
                          proxy.cluster.services, lister, proxy.cluster.proxySelector, canary, proxy.cluster.names, n,
                          x);
    }
  }

  lemma SyncedIsRouted(namespace: string, views: seq<Column>, plan: seq<Target>, origins: Items, services: seq<string>,
                       ports: seq<seq<CanaryPort>>, start: Services, now: Services, lister: Services,
                       selector: map<string, string>, canary: OwnerReference, names: set<string>, n: string, x: nat)
    returns (k: nat)
    requires ServicesSynced(start, now, names, services, ports, origins, lister, selector, canary, views, plan)
    requires AllTakenOver(start, now, lister, plan, selector, canary)
    requires n in names && ShowsPorts(start, lister, n) && Find(origins, n) < |origins|
    requires Routable(lister[n], ManifestOf(origins, n), x)
    ensures && IsColumnOf(views, k, n) && n in now && now[n].selector == selector && x < |now[n].ports|
            && n in AskedFor(services, ports)
            && Routed(Generate(namespace, views), views, k, n, AskedFor(services, ports)[n], ManifestOf(origins, n),
                      lister[n].ports[x], now[n].ports[x])
  {
    hide PartlySynced, AllForked, ViewsFor, AllTakenOver, Generate, Routed, Routable, AskedFor, Table, Base, NoRepeats,
         WantedOriginal;
    k :| 0 <= k < |plan| && plan[k].manifest.name == n;
    assert PlannedAt(n, views, plan[k], k, origins);
    ForksDiffer(views, plan, origins);
    TakenOverIsRouted(namespace, views, plan, origins, services, ports, start, now, lister, selector, canary, k, x);
  }

  // ---------------------------------------------------------------- between nginx and the originals

  /** A later sync loads nginx before it points the originals, so an original may have a target from an earlier
      allocation. Whatever it has: under the configuration of `views`, its port leads home exactly if its target is a
      place in its own block where it was asked for. */
  lemma LeadsHomeExactly(cluster: Cluster, namespace: string, views: seq<Column>, plan: seq<Target>, origins: Items,
                         k: nat, x: nat)
    requires |views| == |plan| && PlannedFor(views, plan, origins) && PlanCovers(plan, cluster.names) && k < |plan|
    requires cluster.nginx == Some(Generate(namespace, views))
    requires plan[k].manifest.name in cluster.services && x < |cluster.services[plan[k].manifest.name].ports|
    ensures var n, p := plan[k].manifest.name, cluster.services[plan[k].manifest.name].ports[x];
            LeadsHome(cluster.nginx.value, n, views[k].ports, p) <==>
              p.targetPort.FromInt? && AtOwnPlace(views, k, p, p.targetPort.number)
  {
    hide Generate, Base, Table, InConfig;
    var n, p := plan[k].manifest.name, cluster.services[plan[k].manifest.name].ports[x];
    ForksDiffer(views, plan, origins);
    assert PlannedAt(n, views, plan[k], k, origins);
    if p.targetPort.FromInt? {
      OwnEntryExactly(namespace, views, k, p, p.targetPort.number);
    }
    OwnServes(n, views[k], views[k].ports, p);
  }

  /** Original `n` was taken over by a complete sync under `before`; a later sync has loaded nginx with `views` and has
      not pointed `n` yet.  Its port leads home exactly if the manifest port it matches first was asked for and its
      listen port is now a place in its own block where the port itself is asked for.  If the service asks for no port
      twice, that is if both allocations gave the two one listen port; if they also have one protocol and number and the
      service asks for the same ports as before, that is if the services before it ask for as many.  A port that matches
      none leads home by chance. */
  lemma NotYetPointedLeadsHomeExactly(cluster: Cluster, namespace: string, before: seq<Column>, earlier: seq<Target>,
                                      views: seq<Column>, plan: seq<Target>, origins: Items, start: Services,
                                      now: Services, lister: Services, canary: OwnerReference, j: nat, k: nat, x: nat)
    requires |before| == |earlier| && PlannedFor(before, earlier, origins) && j < |earlier|
    requires |views| == |plan| && PlannedFor(views, plan, origins) && PlanCovers(plan, cluster.names) && k < |plan|
    requires earlier[j].manifest.name == plan[k].manifest.name
    requires TakenOverAt(start, now, lister, earlier[j], cluster.proxySelector, canary)
    requires ShowsPorts(start, lister, plan[k].manifest.name)
    requires UniquePorts(lister[plan[k].manifest.name].ports) && x < |lister[plan[k].manifest.name].ports|
    requires cluster.nginx == Some(Generate(namespace, views)) && plan[k].manifest.name in cluster.services
    requires plan[k].manifest.name in now && cluster.services[plan[k].manifest.name] == now[plan[k].manifest.name]
    ensures var n, manifest := plan[k].manifest.name, plan[k].manifest;
            && x < |cluster.services[n].ports|
            && var p := cluster.services[n].ports[x];
               var m := FirstMatch(p, manifest.ports);
               var home := LeadsHome(cluster.nginx.value, n, views[k].ports, p);
               if m == |manifest.ports|
               then && p == lister[n].ports[x]
                    && (home <==> p.targetPort.FromInt? && AtOwnPlace(views, k, p, p.targetPort.number))
               else var q := manifest.ports[m];
                    var was, will := ProtoPortKey(q.protocol, q.port), ProtoPortKey(p.protocol, p.port);
                    && (home <==> was in earlier[j].table && AtOwnPlace(views, k, p, earlier[j].table[was]))
                    && (DistinctKinds(views[k].ports) && Free(p.protocol, '-') ==>
                          && (home <==>
                                was in earlier[j].table && will in plan[k].table
                                && earlier[j].table[was] == plan[k].table[will])
                          && (before[j].ports == views[k].ports && q.protocol == p.protocol && q.port == p.port ==>
                                (home <==>
                                   Listed(views[k].ports, p) && PortCount(before[..j]) == PortCount(views[..k]))))
  {
    hide Generate, Base, Table, InConfig, Listed, PortCount, DistinctKinds, ProtoPortKey, UniquePorts, FirstMatch,
         Serves;
    var n, manifest := plan[k].manifest.name, plan[k].manifest;
    assert PlannedAt(n, views, plan[k], k, origins) && PlannedAt(n, before, earlier[j], j, origins);
    TargetOfTakenOver(start, now, lister, earlier[j], cluster.proxySelector, canary, x);
    ForksDiffer(views, plan, origins);
    var p := cluster.services[n].ports[x];
    FirstMatchByShape(p, lister[n].ports[x], manifest.ports, manifest.ports);
    OwnServes(n, views[k], views[k].ports, p);
    var m := FirstMatch(p, manifest.ports);
    LeadsHomeExactly(cluster, namespace, views, plan, origins, k, x);
    if m < |manifest.ports| && DistinctKinds(views[k].ports) && Free(p.protocol, '-') {
      ShiftedExactly(namespace, before, j, views, k, manifest.ports[m], p);
      if before[j].ports == views[k].ports && manifest.ports[m].protocol == p.protocol
         && manifest.ports[m].port == p.port {
        ShiftedByOthersExactly(namespace, before, j, views, k, p);
      }
    }
    BaseIsPositive(views, k);
  }

  // ---------------------------------------------------------------- forks

  /** Although a fork shares its port array with the generated original, which is rewritten in place later: a fork that
      a sync created is what the release manifest says, with its selector and its target ports at the same ports, but as
      ClusterIP, without node ports that the original could hold, and with the canary among its owners. */
  lemma NewForksCarryTheManifest(start: Services, now: Services, plan: seq<Target>, canary: OwnerReference, k: nat)
    requires k < |plan| && ForksRight(start, now, plan, canary)
    requires plan[k].manifest.name + FORKED_SUFFIX !in start && plan[k].manifest.name + FORKED_SUFFIX in now
    ensures var fork, manifest := now[plan[k].manifest.name + FORKED_SUFFIX], plan[k].manifest;
            AsRendered(fork, manifest) && manifest.owners <= fork.owners && HasOwner(fork.owners, canary.uid)
  {
    var fork, wanted := now[plan[k].manifest.name + FORKED_SUFFIX], WantedFork(plan[k], canary);
    assert ForkRight(start, now, plan[k], canary);
    assert fork == wanted.(resourceVersion := fork.resourceVersion);
    OwnerIsAppended(plan[k].manifest.owners, canary);
  }

  // ---------------------------------------------------------------- canary services

  /** After a sync that had its manifest recorded, the canary service of `n`, if it was as the manifest recorded before
      has it, is as rendered exactly if it is new, or that manifest had it, or it was so before: one that an earlier
      sync wrote before it failed to record its manifest is never brought up to date. */
  lemma CanaryIsAsRenderedExactly(start: Services, now: Services, recorded: Services, n: string, canaries: Items,
                                  owners: seq<OwnerReference>)
    requires CanarySent(start, now, recorded, n, canaries, owners)
    requires var x := n + "-canary"; x in start && x in recorded ==> Carries(start[x], recorded[x])
    ensures var x, rendered := n + "-canary", canaries[Find(canaries, n)].value;
            AsRendered(now[x], rendered) <==> x !in start || x in recorded || AsRendered(start[x], rendered)
  {
    hide AsRendered, Carries, Find;
  }

  // ---------------------------------------------------------------- syncs and deprecation

  /** What a sync leaves, complete or not, is what a round of a reconciliation does. */
  lemma SyncIsRound(start: Services, now: Services, names: set<string>, services: seq<string>,
                    ports: seq<seq<CanaryPort>>, origins: Items, lister: Services, selector: map<string, string>,
                    canary: OwnerReference, planned: bool, views: seq<Column>, plan: seq<Target>)
    requires if planned
             then ServicesSynced(start, now, names, services, ports, origins, lister, selector, canary, views, plan)
             else plan == [] && OnlyCanariesChanged(start, now, names)
    ensures IsRound(start, now, Round(plan, lister), names, origins, selector, canary)
  {
    hide PartlySynced, ViewsFor, NoRepeats, Table, Base, Find, OnlyCanariesChanged;
    if planned {
      forall k | 0 <= k < |plan|
        ensures Find(origins, plan[k].manifest.name) < |origins|
        ensures plan[k].manifest == ManifestOf(origins, plan[k].manifest.name)
      {
        assert PlannedAt(plan[k].manifest.name, views, plan[k], k, origins);
      }
    }
  }

  /** One sync more, on objects that the lister hands out: whatever it comes to, and whatever it leaves of those
      objects, can be gone on with. */
  method SyncOnceMore(proxy: Proxy, originObjs: ObjectList, canaryObjs: ObjectList, spec: seq<CanaryService>,
                      cached: Cache, canary: OwnerReference, releaseOwner: OwnerReference, recorded: Services,
                          manifest: Manifest, ghost origins: Items,
                      ghost canaries: Items, ghost lister: Services, ghost ports: seq<seq<CanaryPort>>,
                      ghost history: seq<Services>, ghost rounds: seq<Round>)
    returns (ok: bool, ghost longer: seq<Services>, ghost more: seq<Round>)
    requires proxy.Valid() && proxy.cluster.State().pc == Idle
    requires proxy.cluster.crs[proxy.cluster.view].transition == NoTransition
    requires Held(originObjs, origins) && Held(canaryObjs, canaries) && Mirrors(cached, lister)
    requires Unshared(originObjs, canaryObjs, spec, cached)
    requires RendersOnce(canaries, ServiceNames(spec))
    requires (forall n :: n in ServiceNames(spec) <==> n in proxy.cluster.names) && Asks(spec, ports)
    requires NotOurs(origins, proxy.cluster.proxySelector) && NotOurs(canaries, proxy.cluster.proxySelector)
    requires Reconciled(history, rounds, proxy.cluster.names, origins, proxy.cluster.proxySelector, canary)
    requires history[|rounds|] == proxy.cluster.services
    requires forall n | n in proxy.cluster.names ::
               HandedOut(history, rounds, lister, n, proxy.cluster.proxySelector, canary)
    modifies proxy`runningConfig, proxy.cluster
    modifies set o: ServiceObject | o in originObjs, set o: ServiceObject | o in originObjs :: o.ports
    modifies set o: ServiceObject | o in canaryObjs, set o: ServiceObject | o in canaryObjs :: o.ports
    modifies cached.Values, set o | o in cached.Values :: o.ports, set s | s in spec :: s.ports
    ensures proxy.Valid() && proxy.cluster.Advances()
    ensures Reconciled(longer, more, proxy.cluster.names, origins, proxy.cluster.proxySelector, canary)
    ensures history <= longer && |more| == |rounds| + 1 && longer[|more|] == proxy.cluster.services
    ensures forall n, left: Services | n in proxy.cluster.names && n in cached && n in left
                                       && left[n] == cached[n].View() ::
              HandedOut(longer, more, left, n, proxy.cluster.proxySelector, canary)
  {
    hide After, Throughout, Canaries, CoversAll, Reflects, Named, NoClash, Asks, Held, Mirrors, RendersOnce, Generate,
         WasGenerated, NotOurs, CacheRewritten, Unshared, Reconciled, HandedOut, IsRound, ServicesSynced, AllForked,
         AllTakenOver, AskedFor;
    ghost var done, planned, views, plan;
    ghost var start := proxy.cluster.services;
    ReconciledLengths(history, rounds, proxy.cluster.names, origins, proxy.cluster.proxySelector, canary);
    ok, done, planned, views, plan := proxy.Sync(originObjs, canaryObjs, spec, cached, canary, releaseOwner, recorded,
                                                 manifest, origins, canaries, lister, ports);
    SyncIsRound(start, proxy.cluster.services, proxy.cluster.names, ServiceNames(spec), ports, origins, lister,
                proxy.cluster.proxySelector, canary, planned, views, plan);
    ghost var r := Round(plan, lister);
    OneMoreRound(history, rounds, proxy.cluster.services, r, proxy.cluster.names, origins, proxy.cluster.proxySelector,
                 canary);
    longer, more := history + [proxy.cluster.services], rounds + [r];
    forall n, left: Services | n in proxy.cluster.names && n in cached && n in left && left[n] == cached[n].View()
      ensures HandedOut(longer, more, left, n, proxy.cluster.proxySelector, canary)
    {
      CacheIsHandedOut(cached, proxy.cluster.names, history, rounds, proxy.cluster.services, r,
                       proxy.cluster.proxySelector, canary,
                       n, left);
    }
  }

  lemma ReconciledLengths(history: seq<Services>, rounds: seq<Round>, names: set<string>, origins: Items,
                          selector: map<string, string>, canary: OwnerReference)
    requires Reconciled(history, rounds, names, origins, selector, canary)
    ensures |history| == |rounds| + 1
  {
  }

  lemma CacheIsHandedOut(cached: Cache, names: set<string>, history: seq<Services>, rounds: seq<Round>, after: Services,
                         r: Round, selector: map<string, string>, canary: OwnerReference, n: string, left: Services)
    requires CacheRewritten(cached, names, r.lister, r.plan, selector, canary) && n in cached && n in names
    requires n in left && left[n] == cached[n].View()
    ensures HandedOut(history + [after], rounds + [r], left, n, selector, canary)
  {
    hide AfterTakeover, WantedOriginal;
    assert LeftInCache(r, n, left[n], selector, canary);
    assert (rounds + [r])[|rounds|] == r;
  }

  /** One sync that failed at any point, or completed, and a deprecation that recovered. */
  lemma PartialTakeoverIsUndone(start: Services, mid: Services, end: Services, r: Round, names: set<string>,
                                origins: Items, selector: map<string, string>, canary: OwnerReference, n: string)
    requires NoClash(names) && n in names && IsRound(start, mid, r, names, origins, selector, canary)
    requires forall m | m in names && m in r.lister :: m in start && r.lister[m] == start[m]
    requires n in start && n + FORKED_SUFFIX !in start && Reverted(mid, end, names, canary)
    ensures n in end && OnlyTargetsDiffer(end[n], start[n])
    ensures end[n].SameAs(start[n]) <==>
              || (n + FORKED_SUFFIX !in mid && n in mid && mid[n] == start[n])
              || (Find(origins, n) < |origins| && Agrees(start[n], ManifestOf(origins, n))
                  && !HasOwner(start[n].owners, canary.uid))
  {
    hide IsRound, OnlyTargetsDiffer, Agrees, HasOwner, Reverted, PartlyReverted;
    RevertedIsPartly(mid, end, names, canary);
    TakeoverThenDeprecationRestores([start, mid], [r], names, origins, selector, canary, [mid, end], 0, n);
  }

  lemma RevertedIsPartly(before: Services, now: Services, names: set<string>, canary: OwnerReference)
    requires Reverted(before, now, names, canary)
    ensures PartlyReverted(before, now, names, canary)
  {
  }
}
