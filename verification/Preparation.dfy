/** From the rendered objects to a sorted list of collections with their listen ports: everything a sync computes
    before it touches the cluster. */
module Preparation {
  import opened Text
  import opened Kube
  import opened Upstream
  import opened Objects
  import opened Takeover
  import opened Rendering
  import opened Allocator
  import opened ChangeCheck
  import opened ApiServer
  import opened Plan
  import opened Sync

  // ---------------------------------------------------------------- what a sync starts from

  type Cache = map<string, ServiceObject>

  /** The lister's objects, keyed by name, are these values. */
  predicate Mirrors(cached: Cache, lister: Services)
    reads set n | n in cached :: cached[n]
    reads set n | n in cached :: cached[n].ports
  {
    cached.Keys == lister.Keys && forall n | n in cached :: cached[n].View() == lister[n] && lister[n].name == n
  }

  /** Objects decoded from different texts share nothing with each other or with the lister's. */
  predicate Unshared(originObjs: ObjectList, canaryObjs: ObjectList, spec: seq<CanaryService>, cached: Cache) {
    && Apart(originObjs) && Apart(canaryObjs) && ApartFrom(originObjs, canaryObjs)
    && (forall a, b | a in cached && b in cached && a != b ::
          cached[a] != cached[b] && cached[a].ports != cached[b].ports)
    && (forall o: ServiceObject, n | o in originObjs + canaryObjs && n in cached ::
          o != cached[n] && o.ports != cached[n].ports)
    && (forall i, j | 0 <= i < j < |spec| :: spec[i].ports != spec[j].ports)
  }

  function ManifestOf(origins: Items, n: string): Service
    requires Find(origins, n) < |origins|
  {
    origins[Find(origins, n)].value
  }

  /** Collection `c` holds the forked manifest, its fork, the renamed canary service and the lister's service. */
  predicate Ready(c: ServiceCollection, origins: Items, canaries: Items, lister: Services)
    reads c.origin, c.origin.ports, c.forked, c.forked.ports, c.canary, c.canary.ports, c.inCluster, c.inCluster.ports
  {
    var k, m := Find(origins, c.service), Find(canaries, c.service);
    && k < |origins| && m < |canaries| && c.service in lister
    && c.origin.View() == Forked(origins[k].value) && c.forked.View() == Fork(origins[k].value)
    && c.canary.View() == Renamed(canaries[m].value, CANARY_SUFFIX)
    && c.inCluster.View() == lister[c.service] && lister[c.service].name == c.service && c.name == ""
  }

  // ---------------------------------------------------------------- rendering

  lemma MadeIsReady(c: ServiceCollection, svc: CanaryService, originObjs: ObjectList, canaryObjs: ObjectList,
                    cached: Cache, origins: Items, canaries: Items, names: seq<string>, lister: Services)
    requires MadeFor(c, svc, originObjs, canaryObjs, cached, origins, Find(canaries, svc.service))
    requires svc.service in names
    requires Held(originObjs, ForkedItems(origins, names)) && Mirrors(cached, lister)
    requires InOrder(canaries, names) && Held(canaryObjs, RenamedItems(canaries, names))
    ensures Ready(c, origins, canaries, lister) && c.forked.ports == c.origin.ports
    ensures c.origin in originObjs && c.canary in canaryObjs && c.service in cached && c.inCluster == cached[c.service]
  {
  }

  lemma MadeAreSeparated(a: ServiceCollection, b: ServiceCollection, s: CanaryService, t: CanaryService,
                         originObjs: ObjectList, canaryObjs: ObjectList, spec: seq<CanaryService>, cached: Cache,
                         origins: Items, canaries: Items)
    requires MadeFor(a, s, originObjs, canaryObjs, cached, origins, Find(canaries, s.service))
    requires MadeFor(b, t, originObjs, canaryObjs, cached, origins, Find(canaries, t.service))
    requires Unshared(originObjs, canaryObjs, spec, cached) && s.service != t.service && s.ports != t.ports
    requires a.forked !in originObjs && b.forked !in originObjs && a.forked !in cached.Values
    requires b.forked !in cached.Values
    ensures SelfSeparated(a) && Separated(a, b) && a != b
  {
  }

  /** One collection per entry of the specification, and no two alike. */
  predicate Collected(cols: seq<ServiceCollection>, origins: Items, canaries: Items, lister: Services)
    reads cols
    reads set c | c in cols :: c.origin
    reads set c | c in cols :: c.origin.ports
    reads set c | c in cols :: c.forked
    reads set c | c in cols :: c.forked.ports
    reads set c | c in cols :: c.canary
    reads set c | c in cols :: c.canary.ports
    reads set c | c in cols :: c.inCluster
    reads set c | c in cols :: c.inCluster.ports
  {
    && AllSeparated(cols)
    && (forall i, j | 0 <= i < j < |cols| :: cols[i].service != cols[j].service)
    && (forall c | c in cols :: Ready(c, origins, canaries, lister) && c.upstreamPorts == map[])
  }

  /** Renders the services; what the collections hold is known by value from here on. */
  method Prepare(originObjs: ObjectList, canaryObjs: ObjectList, spec: seq<CanaryService>, cached: Cache,
                 ghost origins: Items, ghost canaries: Items, ghost lister: Services)
    returns (result: Option<seq<ServiceCollection>>)
    requires Held(originObjs, origins) && Held(canaryObjs, canaries) && Mirrors(cached, lister)
    requires Unshared(originObjs, canaryObjs, spec, cached)
    requires RenameInTurn(canaries, ServiceNames(spec)).Some? ==> InOrder(canaries, ServiceNames(spec))
    modifies set o: ServiceObject | o in originObjs :: o.ports
    modifies set o: ServiceObject | o in canaryObjs :: o.ports
    modifies (set o: ServiceObject | o in canaryObjs)`name, (set o: ServiceObject | o in canaryObjs)`serviceType
    ensures Mirrors(cached, lister)
    ensures result.Some? <==> Renders(origins, canaries, ServiceNames(spec), cached.Keys)
    ensures result.Some? ==>
              && |result.value| == |spec| && Collected(result.value, origins, canaries, lister)
              && (forall j | 0 <= j < |spec| ::
                    result.value[j].service == spec[j].service && result.value[j].canaryPorts == spec[j].ports)
              && (forall c | c in result.value ::
                    fresh(c) && fresh(c.forked) && c.origin in originObjs && c.canary in canaryObjs
                    && c.service in cached && c.inCluster == cached[c.service])
  {
    hide Find, Forked, Renamed, ForkOf, Held, Apart, ApartFrom, RenameInTurn, InOrder, RenamedItems, TurnOf, MadeFor,
         ForkedItems, Ready, Fork, Renders;
    result := RenderService(originObjs, canaryObjs, spec, cached, origins, canaries);
    if result.Some? {
      RendersMeans(origins, canaries, ServiceNames(spec), cached.Keys);
      var cols, names := result.value, ServiceNames(spec);
      assert Mirrors(cached, lister);
      EachRenamedOnce(canaries, names);
      InOrderIsDistinct(canaries, names);
      forall j | 0 <= j < |cols|
        ensures Ready(cols[j], origins, canaries, lister) && cols[j].forked.ports == cols[j].origin.ports
        ensures cols[j].service == spec[j].service && cols[j].canaryPorts == spec[j].ports
        ensures cols[j].upstreamPorts == map[]
        ensures cols[j].origin in originObjs && cols[j].canary in canaryObjs
        ensures cols[j].service in cached && cols[j].inCluster == cached[cols[j].service]
      {
        TurnInOrder(canaries, names, j);
        MadeIsReady(cols[j], spec[j], originObjs, canaryObjs, cached, origins, canaries, names, lister);
        MadeHolds(cols[j], spec[j], originObjs, canaryObjs, cached, origins, canaries);
      }
      forall i, j | 0 <= i < |cols| && 0 <= j < |cols| && i != j
        ensures SelfSeparated(cols[i]) && Separated(cols[i], cols[j]) && cols[i] != cols[j]
        ensures cols[i].service != cols[j].service
      {
        TurnInOrder(canaries, names, i);
        TurnInOrder(canaries, names, j);
        MadeAreSeparated(cols[i], cols[j], spec[i], spec[j], originObjs, canaryObjs, spec, cached, origins, canaries);
      }
    }
  }

  lemma RendersMeans(origins: Items, canaries: Items, names: seq<string>, cached: set<string>)
    requires Renders(origins, canaries, names, cached)
    ensures RenameInTurn(canaries, names).Some?
  {
  }

  lemma MadeHolds(c: ServiceCollection, svc: CanaryService, originObjs: ObjectList, canaryObjs: ObjectList,
                  cached: Cache, origins: Items, canaries: Items)
    requires MadeFor(c, svc, originObjs, canaryObjs, cached, origins, Find(canaries, svc.service))
    ensures c.service == svc.service && c.canaryPorts == svc.ports && c.upstreamPorts == map[]
  {
  }

  // ---------------------------------------------------------------- allocation

  /** Target `k` of the plan is the manifest of collection `k` with the table that the allocation over `views` gave
      it. */
  ghost predicate Planned(cols: seq<ServiceCollection>, views: seq<Column>, plan: seq<Target>, origins: Items) {
    |cols| == |views| == |plan| && forall k | 0 <= k < |cols| :: PlannedAt(cols[k].service, views, plan[k], k, origins)
  }

  ghost predicate PlannedAt(service: string, views: seq<Column>, t: Target, k: nat, origins: Items)
    requires k < |views|
  {
    && Find(origins, service) < |origins|
    && t == Target(ManifestOf(origins, service), Table(views[k].ports, Base(views, k)))
    && views[k].forked == t.manifest.name + FORKED_SUFFIX && views[k].canary == t.manifest.name + CANARY_SUFFIX
    && views[k].name == ""
  }

  /** The target made for collection `k`. */
  ghost function TargetAt(c: ServiceCollection, view: Column, first: int, origins: Items): Target
    requires Find(origins, c.service) < |origins|
  {
    Target(ManifestOf(origins, c.service), Table(view.ports, first))
  }

  lemma TargetIsRight(c: ServiceCollection, views: seq<Column>, k: nat, ports: seq<CanaryPort>, origins: Items,
                      canaries: Items, lister: Services)
    requires k < |views| && Ready(c, origins, canaries, lister)
    requires Done(c, views[k], Base(views, k), ports, map[])
    ensures var t := TargetAt(c, views[k], Base(views, k), origins);
            PlannedAt(c.service, views, t, k, origins) && Prepared(c, t) && Waiting(c, t, lister)
    ensures ManifestOf(origins, c.service).name == c.service
    ensures SortedPorts(views[k].ports) && multiset(views[k].ports) == multiset(ports)
  {
  }

  lemma SeparatedPermuted(a: seq<ServiceCollection>, b: seq<ServiceCollection>)
    requires AllSeparated(a) && (forall c :: c in a <==> c in b) && Separate(b)
    requires forall i, j | 0 <= i < j < |a| :: a[i].service != a[j].service
    ensures AllSeparated(b) && forall i, j | 0 <= i < j < |b| :: b[i].service != b[j].service
  {
    forall i, j | 0 <= i < |b| && 0 <= j < |b| && i != j
      ensures b[i] != b[j] && Separated(b[i], b[j]) && b[i].service != b[j].service
    {
      assert b[i] in a && b[j] in a;
      assert b[i] != b[j];
      var k :| 0 <= k < |a| && a[k] == b[i];
      var l :| 0 <= l < |a| && a[l] == b[j];
    }
  }

  lemma SeparatedMeans(cols: seq<ServiceCollection>)
    requires AllSeparated(cols)
    ensures Separate(cols)
  {
  }

  /** Column `k` of `views` is what some collection was sorted and allocated as. */
  ghost predicate DoneFor(c: ServiceCollection, views: seq<Column>, k: nat, cols: seq<ServiceCollection>,
                          ports: seq<seq<CanaryPort>>)
    requires k < |views| && |cols| == |ports|
    reads c, c.canaryPorts, c.forked, c.canary
  {
    exists j :: 0 <= j < |cols| && cols[j] == c && Done(c, views[k], Base(views, k), ports[j], map[])
  }

  /** Collection `c` is still ready, and was sorted and allocated as column `k` of `views`. */
  ghost predicate AllocatedAt(c: ServiceCollection, views: seq<Column>, k: nat, cols: seq<ServiceCollection>,
                              ports: seq<seq<CanaryPort>>, origins: Items, canaries: Items, lister: Services)
    requires k < |views| && |cols| == |ports|
    reads c, c.canaryPorts, c.origin, c.origin.ports, c.forked, c.forked.ports, c.canary, c.canary.ports, c.inCluster,
          c.inCluster.ports
  {
    Ready(c, origins, canaries, lister) && DoneFor(c, views, k, cols, ports)
  }

  /** Column `k` lists the ports requested for its service, in ascending order. */
  ghost predicate ViewFor(service: string, view: Column, services: seq<string>, ports: seq<seq<CanaryPort>>) {
    exists j :: 0 <= j < |services| == |ports| && services[j] == service && SortedPorts(view.ports)
                && multiset(view.ports) == multiset(ports[j])
  }

  function ServicesOf(cols: seq<ServiceCollection>): (r: seq<string>)
    ensures |r| == |cols| && forall i | 0 <= i < |r| :: r[i] == cols[i].service
  {
    seq(|cols|, i requires 0 <= i < |cols| => cols[i].service)
  }

  /** The collections in a slice of their own, which is sorted. */
  method AllocateSlice(namespace: string, cols: seq<ServiceCollection>)
    returns (sorted: seq<ServiceCollection>, config: TemplateConfig, ghost views: seq<Column>)
    requires Separate(cols)
    modifies set c | c in cols :: c.canaryPorts
    modifies (set c | c in cols)`upstreamPorts
    ensures |sorted| == |cols| == |views| && (forall c :: c in sorted <==> c in cols) && Separate(sorted)
    ensures SortedNames(Names(sorted)) && config == Generate(namespace, views)
    ensures forall k | 0 <= k < |sorted| ::
              var c := sorted[k];
              c in cols && Done(c, views[k], Base(views, k), old(c.canaryPorts[..]), old(c.upstreamPorts))
  {
    hide Generate, SortedNames, Done, Base, Less, WithProtocol, Entries, Separate, Columns, PortCount, Names;
    var slice := new ServiceCollection[|cols|](i requires 0 <= i < |cols| => cols[i]);
    assert slice[..] == cols;
    var tcp, udp;
    tcp, udp, views := GetUpstreamServices(namespace, slice);
    sorted, config := slice[..], TemplateConfig(tcp, udp);
    ConfigIsGenerated(namespace, views, config);
  }

  /** The same, with what was requested. */
  method AllocateRequested(namespace: string, cols: seq<ServiceCollection>, ghost ports: seq<seq<CanaryPort>>)
    returns (sorted: seq<ServiceCollection>, config: TemplateConfig, ghost views: seq<Column>)
    requires Separate(cols) && |ports| == |cols|
    requires forall j | 0 <= j < |cols| :: cols[j].canaryPorts[..] == ports[j] && cols[j].upstreamPorts == map[]
    modifies set c | c in cols :: c.canaryPorts
    modifies (set c | c in cols)`upstreamPorts
    ensures |sorted| == |cols| == |views| && (forall c :: c in sorted <==> c in cols) && Separate(sorted)
    ensures SortedNames(Names(sorted)) && config == Generate(namespace, views)
    ensures forall k | 0 <= k < |sorted| :: DoneFor(sorted[k], views, k, cols, ports)
  {
    hide Generate, SortedNames, Done, Base, Separate, Names;
    sorted, config, views := AllocateSlice(namespace, cols);
    forall k | 0 <= k < |sorted| ensures DoneFor(sorted[k], views, k, cols, ports) {
      var c := sorted[k];
      var j :| 0 <= j < |cols| && cols[j] == c;
      assert old(c.canaryPorts[..]) == ports[j] && old(c.upstreamPorts) == map[];
    }
  }

  method AllocateReady(namespace: string, cols: seq<ServiceCollection>, ghost origins: Items, ghost canaries: Items,
                       ghost lister: Services, ghost ports: seq<seq<CanaryPort>>)
    returns (sorted: seq<ServiceCollection>, config: TemplateConfig, ghost views: seq<Column>)
    requires Collected(cols, origins, canaries, lister) && |ports| == |cols|
    requires forall j | 0 <= j < |cols| :: cols[j].canaryPorts[..] == ports[j]
    modifies set c | c in cols :: c.canaryPorts
    modifies (set c | c in cols)`upstreamPorts
    ensures |sorted| == |cols| == |views| && (forall c :: c in sorted <==> c in cols) && AllSeparated(sorted)
    ensures forall i, j | 0 <= i < j < |sorted| :: sorted[i].service != sorted[j].service
    ensures SortedNames(Names(sorted)) && config == Generate(namespace, views)
    ensures forall k | 0 <= k < |sorted| :: AllocatedAt(sorted[k], views, k, cols, ports, origins, canaries, lister)
  {
    hide Generate, SortedNames, DoneFor, Ready, AllSeparated, Separate, AllocatedAt;
    SeparatedMeans(cols);
    sorted, config, views := AllocateRequested(namespace, cols, ports);
    SeparatedPermuted(cols, sorted);
    forall k | 0 <= k < |sorted| ensures AllocatedAt(sorted[k], views, k, cols, ports, origins, canaries, lister) {
      assert sorted[k] in cols;
      AllocatedFrom(sorted[k], views, k, cols, ports, origins, canaries, lister);
    }
  }

  lemma AllocatedFrom(c: ServiceCollection, views: seq<Column>, k: nat, cols: seq<ServiceCollection>,
                      ports: seq<seq<CanaryPort>>, origins: Items, canaries: Items, lister: Services)
    requires k < |views| && |cols| == |ports|
    requires Ready(c, origins, canaries, lister) && DoneFor(c, views, k, cols, ports)
    ensures AllocatedAt(c, views, k, cols, ports, origins, canaries, lister)
  {
  }

  lemma MakePlan(cols: seq<ServiceCollection>, sorted: seq<ServiceCollection>, views: seq<Column>,
                 ports: seq<seq<CanaryPort>>, origins: Items, canaries: Items, lister: Services)
    returns (plan: seq<Target>)
    requires |sorted| == |views| && |cols| == |ports|
    requires forall k | 0 <= k < |sorted| :: AllocatedAt(sorted[k], views, k, cols, ports, origins, canaries, lister)
    ensures Planned(sorted, views, plan, origins) && PreparedFrom(sorted, plan, 0)
    ensures WaitingFrom(sorted, plan, lister, 0)
    ensures |plan| == |sorted| && forall k | 0 <= k < |sorted| ::
              plan[k].manifest.name == sorted[k].service
              && ViewFor(sorted[k].service, views[k], ServicesOf(cols), ports)
  {
    hide Done, Base, Table, Ready, Prepared, Waiting, PlannedAt, SortedPorts, Find;
    forall k | 0 <= k < |sorted| ensures Find(origins, sorted[k].service) < |origins| {
      ReadyFinds(sorted[k], origins, canaries, lister);
    }
    plan := seq(|sorted|, k requires 0 <= k < |sorted| => TargetAt(sorted[k], views[k], Base(views, k), origins));
    forall k | 0 <= k < |sorted|
      ensures PlannedAt(sorted[k].service, views, plan[k], k, origins) && Prepared(sorted[k], plan[k])
      ensures Waiting(sorted[k], plan[k], lister)
      ensures plan[k].manifest.name == sorted[k].service
      ensures ViewFor(sorted[k].service, views[k], ServicesOf(cols), ports)
    {
      var j :| 0 <= j < |cols| && cols[j] == sorted[k] && Done(sorted[k], views[k], Base(views, k), ports[j], map[]);
      TargetIsRight(sorted[k], views, k, ports[j], origins, canaries, lister);
      assert ServicesOf(cols)[j] == sorted[k].service;
    }
  }

  /** The listen ports are allocated in the order that sorting leaves the collections in; the later steps follow it. */
  method Allocate(namespace: string, cols: seq<ServiceCollection>, ghost origins: Items, ghost canaries: Items,
                  ghost lister: Services, ghost ports: seq<seq<CanaryPort>>)
    returns (sorted: seq<ServiceCollection>, config: TemplateConfig, ghost views: seq<Column>, ghost plan: seq<Target>)
    requires Collected(cols, origins, canaries, lister) && |ports| == |cols|
    requires forall j | 0 <= j < |cols| :: cols[j].canaryPorts[..] == ports[j]
    modifies set c | c in cols :: c.canaryPorts
    modifies (set c | c in cols)`upstreamPorts
    ensures (forall c :: c in sorted <==> c in cols) && AllSeparated(sorted)
    ensures SortedNames(Names(sorted)) && config == Generate(namespace, views)
    ensures Planned(sorted, views, plan, origins) && PreparedFrom(sorted, plan, 0)
    ensures WaitingFrom(sorted, plan, lister, 0)
    ensures forall i, j | 0 <= i < j < |sorted| :: sorted[i].service != sorted[j].service
    ensures |plan| == |views| == |sorted| && forall k | 0 <= k < |sorted| ::
              plan[k].manifest.name == sorted[k].service
              && ViewFor(sorted[k].service, views[k], ServicesOf(cols), ports)
  {
    hide Generate, SortedNames, AllocatedAt, Collected, Planned, PreparedFrom, WaitingFrom, ViewFor, AllSeparated;
    sorted, config, views := AllocateReady(namespace, cols, origins, canaries, lister, ports);
    plan := MakePlan(cols, sorted, views, ports, origins, canaries, lister);
  }

  lemma ConfigIsGenerated(namespace: string, views: seq<Column>, config: TemplateConfig)
    requires config.tcp == WithProtocol(Entries(namespace, views), TCP)
    requires config.udp == WithProtocol(Entries(namespace, views), UDP)
    ensures config == Generate(namespace, views)
  {
  }

  lemma ReadyFinds(c: ServiceCollection, origins: Items, canaries: Items, lister: Services)
    requires Ready(c, origins, canaries, lister)
    ensures Find(origins, c.service) < |origins| && c.service in lister
  {
  }
}
