/** The proxy: its sync, which takes the originals over, and its cleanup, which gives them back or hands them to the
    release. */
module Proxy {
  import opened Text
  import opened Kube
  import opened Upstream
  import opened Objects
  import opened Takeover
  import opened Rendering
  import opened Allocator
  import opened ChangeCheck
  import opened Routing
  import opened Sequences
  import opened Protocol
  import opened ApiServer
  import opened Plan
  import opened Sync
  import opened Preparation
  import opened Recovery
  import opened Cleaning
  import opened JsonTree
  import opened Adoption

  // ---------------------------------------------------------------- from the forks to the originals

  /** The targets of the plan are exactly the originals. */
  ghost predicate PlanCovers(plan: seq<Target>, names: set<string>) {
    PlanFor(plan, names) && forall n | n in names :: exists i :: 0 <= i < |plan| && plan[i].manifest.name == n
  }

  lemma PlanMeans(plan: seq<Target>, names: set<string>)
    requires PlanCovers(plan, names)
    ensures PlanFor(plan, names)
  {
  }

  lemma ClusterMeans(cluster: Cluster)
    requires cluster.Valid()
    ensures NoClash(cluster.names)
  {
  }

  /** As no original is named like another one's canary service. */
  lemma RendersInOrder(canaries: Items, services: seq<string>, names: set<string>)
    requires RendersOnce(canaries, services) && NoClash(names) && forall n | n in services :: n in names
    ensures RenameInTurn(canaries, services).Some? ==> InOrder(canaries, services)
  {
    hide InOrder, RenameInTurn;
    UnrelatedIsInOrder(canaries, services);
  }

  lemma WaitingKept(cols: seq<ServiceCollection>)
    requires AllSeparated(cols)
    ensures forall c, d | c in cols && d in cols :: c.forked != d.origin && c.forked != d.inCluster
  {
  }

  /** The forks, with what they leave for the later steps. */
  method ForkAll(cluster: Cluster, cols: seq<ServiceCollection>, canary: OwnerReference, ghost plan: seq<Target>,
                 ghost start: Services, ghost lister: Services)
    returns (ok: bool)
    requires cluster.Valid() && cluster.State().pc == Forking({})
    requires AllSeparated(cols) && PreparedFrom(cols, plan, 0) && WaitingFrom(cols, plan, lister, 0)
    requires PlanCovers(plan, cluster.names)
    requires forall i | 0 <= i < |plan| :: plan[i].manifest.selector != cluster.proxySelector
    requires OnlyForksMade(start, cluster.services, plan, canary, cluster.names)
    modifies cluster, (set c | c in cols :: c.forked)`owners
    ensures cluster.Continues() && cluster.SameNginx() && cluster.State().pc.Forking?
    ensures ok ==> cluster.State().pc == Forking(cluster.names)
    ensures |plan| == |cols| && WaitingFrom(cols, plan, lister, 0)
    ensures PartlySynced(start, cluster.services, lister, plan, cluster.proxySelector, canary, cluster.names)
    ensures ok ==>
              Progress(start, cluster.services, lister, plan, cluster.proxySelector, canary, cluster.names, 0, true)
    ensures cluster.reliable ==> ok
  {
    hide After, Throughout, Canaries, CoversAll, Reflects, Named, NoClash, ForksRight, OthersKept, SameOriginals,
         AllForked, OriginalsRight, AllTakenOver, PendingFrom, AllSeparated, Prepared, Waiting, Progress;
    WaitingKept(cols);
    ok := CreateForks(cluster, cols, canary, plan, start);
    SameMeans(start, cluster.services, lister, plan, cluster.names, cluster.proxySelector, canary);
    forall k | 0 <= k < |cols| ensures Waiting(cols[k], plan[k], lister) {
      assert unchanged(cols[k], cols[k].origin, cols[k].origin.ports, cols[k].inCluster, cols[k].inCluster.ports);
    }
    if ok {
      ProgressAtFirst(start, cluster.services, lister, plan, cluster.proxySelector, canary, cluster.names);
    }
  }

  /** The lister is up to date on all targets. */
  predicate AllFresh(start: Services, lister: Services, plan: seq<Target>) {
    forall k | 0 <= k < |plan| :: Fresh(start, lister, plan[k].manifest.name)
  }

  /** The steps that change what traffic sees, in the order that keeps it flowing: forks, nginx, originals. */
  method Rollout(cluster: Cluster, cols: seq<ServiceCollection>, config: TemplateConfig, canary: OwnerReference,
                 ghost plan: seq<Target>, ghost start: Services, ghost lister: Services, ghost asked: Asked)
    returns (ok: bool)
    requires cluster.Valid() && cluster.State().pc == Forking({}) && CoversAll(config, cluster.names, asked)
    requires AllSeparated(cols) && PreparedFrom(cols, plan, 0) && WaitingFrom(cols, plan, lister, 0)
    requires PlanCovers(plan, cluster.names)
    requires forall i | 0 <= i < |plan| :: plan[i].manifest.selector != cluster.proxySelector
    requires OnlyForksMade(start, cluster.services, plan, canary, cluster.names)
    modifies cluster, (set c | c in cols :: c.forked)`owners
    modifies (set c | c in cols :: c.origin)`selector, set c | c in cols :: c.origin.ports
    modifies (set c | c in cols :: c.inCluster)`owners, (set c | c in cols :: c.inCluster)`selector
    modifies set c | c in cols :: c.inCluster.ports
    ensures cluster.Continues() && (cluster.State().pc.Forking? || cluster.State().pc.Pointing?)
    ensures cluster.SameNginx() || (cluster.nginx == Some(config) && cluster.asked == asked)
    ensures AllRewritten(cols, plan, lister, cluster.proxySelector, canary)
    ensures PartlySynced(start, cluster.services, lister, plan, cluster.proxySelector, canary, cluster.names)
    ensures ok ==>
              && cluster.State().pc.Pointing? && cluster.nginx == Some(config) && cluster.asked == asked
              && AllForked(cluster.services, plan)
              && AllTakenOver(start, cluster.services, lister, plan, cluster.proxySelector, canary)
    ensures cluster.reliable && AllFresh(start, lister, plan) ==> ok
  {
    hide After, Throughout, Canaries, CoversAll, Reflects, Named, NoClash, OnlyForksMade, PartlySynced, Progress,
         AllForked, AllTakenOver, AllSeparated, PreparedFrom, WaitingFrom, AllRewritten;
    ok := ForkAll(cluster, cols, canary, plan, start, lister);
    if ok {
      ok := cluster.Reload(config, asked);
    }
    if !ok {
      NoneRewritten(cols, plan, lister, cluster.proxySelector, canary);
      return;
    }
    PlanMeans(plan, cluster.names);
    ok := PointOriginals(cluster, cols, cluster.proxySelector, canary, plan, start, lister);
    ProgressIsPart(start, cluster.services, lister, plan, cluster.proxySelector, canary, cluster.names, |cols|, ok);
  }

  lemma ProgressIsPart(start: Services, now: Services, lister: Services, plan: seq<Target>,
                       selector: map<string, string>, canary: OwnerReference, names: set<string>, k: nat, ok: bool)
    requires Progress(start, now, lister, plan, selector, canary, names, k, ok)
    ensures PartlySynced(start, now, lister, plan, selector, canary, names) && AllForked(now, plan)
    ensures ok && k == |plan| ==> AllTakenOver(start, now, lister, plan, selector, canary)
  {
    assert plan[..|plan|] == plan;
  }

  lemma SameMeans(start: Services, now: Services, lister: Services, plan: seq<Target>, names: set<string>,
                  selector: map<string, string>, canary: OwnerReference)
    requires SameOriginals(start, now, names) && PlanFor(plan, names)
    ensures OriginalsRight(start, now, lister, plan, selector, canary) && PendingFrom(start, now, plan, 0)
  {
  }

  /** The collections hold the lister's objects of their own names. */
  predicate FromCache(cols: seq<ServiceCollection>, cached: Cache) {
    forall c | c in cols :: c.service in cached && c.inCluster == cached[c.service]
  }

  lemma FromCachePermuted(cols: seq<ServiceCollection>, sorted: seq<ServiceCollection>, cached: Cache)
    requires FromCache(cols, cached) && forall c :: c in sorted <==> c in cols
    ensures FromCache(sorted, cached)
  {
  }

  /** The lister's originals are what it handed out, or what a takeover makes of that. */
  predicate CacheRewritten(cached: Cache, names: set<string>, lister: Services, plan: seq<Target>,
                           selector: map<string, string>, canary: OwnerReference)
    reads set n | n in cached :: cached[n]
    reads set n | n in cached :: cached[n].ports
  {
    cached.Keys == lister.Keys && forall n | n in cached && n in names ::
      || cached[n].View() == lister[n]
      || exists i :: 0 <= i < |plan| && plan[i].manifest.name == n
                     && cached[n].View() == AfterTakeover(lister[n], WantedOriginal(plan[i], selector), canary)
  }

  lemma MirrorIsRewritten(cached: Cache, names: set<string>, lister: Services, plan: seq<Target>,
                          selector: map<string, string>, canary: OwnerReference)
    requires Mirrors(cached, lister)
    ensures CacheRewritten(cached, names, lister, plan, selector, canary) && cached.Keys == lister.Keys
  {
  }

  /** The collections' objects are all the lister's originals. */
  lemma CollectionsRewritten(cols: seq<ServiceCollection>, cached: Cache, names: set<string>, lister: Services,
                             plan: seq<Target>, selector: map<string, string>, canary: OwnerReference)
    requires AllRewritten(cols, plan, lister, selector, canary) && FromCache(cols, cached) && PlanCovers(plan, names)
    requires cached.Keys == lister.Keys && |plan| == |cols| && forall k | 0 <= k < |plan| ::
               plan[k].manifest.name == cols[k].service
    ensures CacheRewritten(cached, names, lister, plan, selector, canary)
  {
  }

  // ---------------------------------------------------------------- before the forks

  /** The renamed canary services, as the release client is to write them. */
  function CanaryViews(cols: seq<ServiceCollection>): (r: seq<Service>)
    reads set c | c in cols :: c.canary
    reads set c | c in cols :: c.canary.ports
    ensures |r| == |cols| && forall i | 0 <= i < |r| :: r[i] == cols[i].canary.View()
  {
    if cols == [] then [] else CanaryViews(cols[..|cols| - 1]) + [cols[|cols| - 1].canary.View()]
  }

  lemma CanariesAreDistinct(views: seq<Service>, names: seq<string>)
    requires |names| == |views| && NoRepeats(names)
    requires forall j | 0 <= j < |views| :: views[j].name == names[j] + CANARY_SUFFIX
    ensures DistinctlyNamed(views)
  {
    forall i, j | 0 <= i < j < |views| ensures views[i].name != views[j].name {
      SuffixedNamesDiffer(names[i], names[j]);
    }
  }

  /** A canary service is what its canary object says: with its selector, its ports and their targets, as ClusterIP and
      without the node ports of a NodePort service. */
  predicate AsRendered(stored: Service, rendered: Service) {
    && stored.selector == rendered.selector && stored.serviceType == ClusterIP
    && stored.otherFields == rendered.otherFields
    && SameShapes(stored.ports, rendered.ports)
    && forall i | 0 <= i < |rendered.ports| ::
         && stored.ports[i].targetPort == rendered.ports[i].targetPort
         && stored.ports[i].nodePort == if rendered.serviceType == NodePort then 0 else rendered.ports[i].nodePort
  }

  /** What a sync that had its manifest recorded has made of the canary service of original `n`: one that was not there
      is as rendered, with its owners; so is one that was as the manifest recorded before has it.  But one that was
      there although that manifest has none is as it was. */
  predicate CanarySent(start: Services, now: Services, recorded: Services, n: string, canaries: Items,
                       owners: seq<OwnerReference>) {
    var x := n + "-canary";
    && Find(canaries, n) < |canaries| && x in now
    && var rendered := canaries[Find(canaries, n)].value;
       && (x !in start ==> AsRendered(now[x], rendered) && now[x].owners == rendered.owners + owners)
       && (x in start && x in recorded && Carries(start[x], recorded[x]) ==>
             AsRendered(now[x], rendered) && now[x].owners == start[x].owners)
       && (x in start && x !in recorded ==> now[x] == start[x])
  }

  predicate CanariesSent(start: Services, now: Services, recorded: Services, names: seq<string>, canaries: Items,
                         owners: seq<OwnerReference>) {
    forall n | n in names :: CanarySent(start, now, recorded, n, canaries, owners)
  }

  /** The release client may write all of them. */
  predicate CanariesWritable(start: Services, recorded: Services, names: seq<string>, owners: seq<OwnerReference>) {
    forall n | n in names :: Writable(start, recorded, n + "-canary", owners)
  }

  lemma RenamedIsRendered(stored: Service, rendered: Service)
    requires Carries(stored, Renamed(rendered, CANARY_SUFFIX))
    ensures AsRendered(stored, rendered)
  {
  }

  lemma WrittenIsSent(start: Services, now: Services, recorded: Services, n: string, canaries: Items,
                      owners: seq<OwnerReference>)
    requires Find(canaries, n) < |canaries|
    requires CanaryWritten(start, now, recorded, Renamed(canaries[Find(canaries, n)].value, CANARY_SUFFIX), owners)
    ensures CanarySent(start, now, recorded, n, canaries, owners)
  {
    hide Renamed, AsRendered;
    var x, s := n + "-canary", Renamed(canaries[Find(canaries, n)].value, CANARY_SUFFIX);
    RenamedKeeps(canaries[Find(canaries, n)].value, CANARY_SUFFIX);
    if x !in start || (x in recorded && Carries(start[x], recorded[x])) {
      RenamedIsRendered(now[x], canaries[Find(canaries, n)].value);
    }
  }

  lemma RenamedKeeps(rendered: Service, suffix: string)
    ensures Renamed(rendered, suffix).name == rendered.name + suffix
            && Renamed(rendered, suffix).owners == rendered.owners
  {
  }

  /** The renamed canary services, name by name. */
  predicate RenamedViews(views: seq<Service>, names: seq<string>, canaries: Items) {
    && |views| == |names| && NoRepeats(names)
    && forall j | 0 <= j < |names| ::
         Find(canaries, names[j]) < |canaries|
         && views[j] == Renamed(canaries[Find(canaries, names[j])].value, CANARY_SUFFIX)
  }

  lemma CollectedViews(cols: seq<ServiceCollection>, names: seq<string>, origins: Items, canaries: Items,
                       lister: Services)
    requires Collected(cols, origins, canaries, lister) && |names| == |cols|
    requires forall j | 0 <= j < |cols| :: cols[j].service == names[j]
    ensures RenamedViews(CanaryViews(cols), names, canaries)
  {
    hide Forked, Fork, Renamed, Find;
    forall j | 0 <= j < |cols|
      ensures Find(canaries, names[j]) < |canaries|
      ensures CanaryViews(cols)[j] == Renamed(canaries[Find(canaries, names[j])].value, CANARY_SUFFIX)
    {
      assert cols[j] in cols && Ready(cols[j], origins, canaries, lister);
    }
  }

  lemma ViewsAreOthers(views: seq<Service>, names: seq<string>, canaries: Items, selector: map<string, string>)
    requires RenamedViews(views, names, canaries) && NotOurs(canaries, selector)
    ensures |views| == |names| && DistinctlyNamed(views)
    ensures forall j | 0 <= j < |views| :: views[j].name == names[j] + CANARY_SUFFIX && views[j].selector != selector
  {
    hide Find;
    CanariesAreDistinct(views, names);
  }

  /** What was written of each of them. */
  lemma AllAreSent(views: seq<Service>, names: seq<string>, canaries: Items, start: Services, now: Services,
                   recorded: Services, owners: seq<OwnerReference>)
    requires RenamedViews(views, names, canaries) && AllWritten(start, now, recorded, views, owners)
    ensures CanariesSent(start, now, recorded, names, canaries, owners)
  {
    hide Renamed, Find, CanaryWritten, CanarySent;
    forall n | n in names ensures CanarySent(start, now, recorded, n, canaries, owners) {
      var j :| 0 <= j < |names| && names[j] == n;
      assert views[j] in views;
      WrittenIsSent(start, now, recorded, n, canaries, owners);
    }
  }

  lemma AllAreWritable(views: seq<Service>, names: seq<string>, canaries: Items, start: Services, recorded: Services,
                       owners: seq<OwnerReference>)
    requires RenamedViews(views, names, canaries)
    ensures CanariesWritable(start, recorded, names, owners) <==> AllWritable(start, recorded, views, owners)
  {
    hide Writable, Find;
    forall n | n in names && AllWritable(start, recorded, views, owners)
      ensures Writable(start, recorded, n + "-canary", owners)
    {
      var j :| 0 <= j < |names| && names[j] == n;
      assert views[j] in views;
    }
    forall s | s in views && CanariesWritable(start, recorded, names, owners)
      ensures Writable(start, recorded, s.name, owners)
    {
      var j :| 0 <= j < |views| && views[j] == s;
      assert names[j] in names;
    }
  }

  /** The steps after that do not touch canary services. */
  lemma SentStays(start: Services, mid: Services, now: Services, recorded: Services, names: seq<string>,
                  originals: set<string>, canaries: Items, owners: seq<OwnerReference>)
    requires CanariesSent(start, mid, recorded, names, canaries, owners)
    requires (forall n | n in names :: n in originals) && Canaries(mid, originals) == Canaries(now, originals)
    ensures CanariesSent(start, now, recorded, names, canaries, owners)
  {
    hide AsRendered, Find, Carries;
    forall n | n in names ensures CanarySent(start, now, recorded, n, canaries, owners) {
      assert CanarySent(start, mid, recorded, n, canaries, owners);
      var x := n + "-canary";
      assert x == n + CANARY_SUFFIX && x in Canaries(mid, originals) && x in Canaries(now, originals);
      assert now[x] == Canaries(now, originals)[x] == mid[x];
    }
  }

  predicate NotOurs(items: Items, selector: map<string, string>) {
    forall i | 0 <= i < |items| && items[i].Some? :: items[i].value.selector != selector
  }

  lemma PlanIsCovering(cols: seq<ServiceCollection>, sorted: seq<ServiceCollection>, plan: seq<Target>,
                       names: set<string>)
    requires |sorted| == |plan| && (forall c :: c in sorted <==> c in cols)
    requires forall n :: n in names <==> n in ServicesOf(cols)
    requires forall i, j | 0 <= i < j < |sorted| :: sorted[i].service != sorted[j].service
    requires forall i | 0 <= i < |plan| :: plan[i].manifest.name == sorted[i].service
    ensures PlanCovers(plan, names)
  {
    forall i | 0 <= i < |plan| ensures plan[i].manifest.name in names {
      assert sorted[i] in cols;
      var j :| 0 <= j < |cols| && cols[j] == sorted[i];
      assert ServicesOf(cols)[j] in ServicesOf(cols);
    }
    forall n | n in names ensures exists i :: 0 <= i < |plan| && plan[i].manifest.name == n {
      var j :| 0 <= j < |cols| && ServicesOf(cols)[j] == n;
      assert cols[j] in sorted;
      var i :| 0 <= i < |sorted| && sorted[i] == cols[j];
      assert plan[i].manifest.name == n;
    }
  }

  lemma PlanIsOurs(cols: seq<ServiceCollection>, views: seq<Column>, plan: seq<Target>, origins: Items,
                   selector: map<string, string>)
    requires Planned(cols, views, plan, origins) && NotOurs(origins, selector)
    ensures forall i | 0 <= i < |plan| :: plan[i].manifest.selector != selector
  {
  }

  /** What is asked for, by name; a repeated name keeps its last ports. */
  ghost function AskedFor(services: seq<string>, ports: seq<seq<CanaryPort>>): Asked
  {
    if services == [] || |ports| != |services| then map[]
    else
      var n := |services| - 1;
      AskedFor(services[..n], ports[..n])[services[n] := ports[n]]
  }

  lemma {:induction false} AskedAt(services: seq<string>, ports: seq<seq<CanaryPort>>, j: nat)
    requires |services| == |ports| && NoRepeats(services) && j < |services|
    ensures services[j] in AskedFor(services, ports) && AskedFor(services, ports)[services[j]] == ports[j]
  {
    var n := |services| - 1;
    if j < n {
      AskedAt(services[..n], ports[..n], j);
    }
  }

  lemma ForksDiffer(views: seq<Column>, plan: seq<Target>, origins: Items)
    requires |views| == |plan| && PlannedFor(views, plan, origins)
    requires forall i, j | 0 <= i < j < |plan| :: plan[i].manifest.name != plan[j].manifest.name
    ensures NoRepeats(ForkedNames(views))
  {
    hide Table, Base, Find;
    forall i, j | 0 <= i < j < |views| ensures ForkedNames(views)[i] != ForkedNames(views)[j] {
      assert PlannedAt(plan[i].manifest.name, views, plan[i], i, origins)
             && PlannedAt(plan[j].manifest.name, views, plan[j], j, origins);
      SuffixedNamesDiffer(plan[i].manifest.name, plan[j].manifest.name);
    }
  }

  /** The generated configuration serves exactly the ports asked for. */
  lemma ConfigCovers(namespace: string, views: seq<Column>, plan: seq<Target>, origins: Items, names: set<string>,
                     services: seq<string>, ports: seq<seq<CanaryPort>>)
    requires |views| == |plan| && PlannedFor(views, plan, origins) && PlanCovers(plan, names)
    requires ViewsFor(views, plan, services, ports) && NoRepeats(services) && |services| == |ports|
    ensures CoversAll(Generate(namespace, views), names, AskedFor(services, ports))
  {
    hide Table, Base, Find, Generate, SortedPorts, Listed, InConfig;
    ForksDiffer(views, plan, origins);
    forall n | n in names
      ensures n in AskedFor(services, ports) && Covers(Generate(namespace, views), n, AskedFor(services, ports)[n])
    {
      var k :| 0 <= k < |plan| && plan[k].manifest.name == n;
      assert PlannedAt(n, views, plan[k], k, origins) && ViewFor(n, views[k], services, ports);
      var j :| 0 <= j < |services| && services[j] == n && SortedPorts(views[k].ports)
               && multiset(views[k].ports) == multiset(ports[j]);
      AskedAt(services, ports, j);
      CoversFrom(namespace, views, k, n, ports[j]);
    }
  }

  lemma CoversFrom(namespace: string, views: seq<Column>, k: nat, n: string, ports: seq<CanaryPort>)
    requires k < |views| && NoRepeats(ForkedNames(views)) && multiset(views[k].ports) == multiset(ports)
    requires views[k].forked == n + FORKED_SUFFIX && views[k].canary == n + CANARY_SUFFIX && views[k].name == ""
    ensures Covers(Generate(namespace, views), n, ports)
  {
    hide Generate, Listed, InConfig, ForkedNames, Serves;
    forall p: ServicePort
      ensures (exists e :: InConfig(e, Generate(namespace, views)) && Serves(e, Own(n, ports), p)) <==> Listed(ports, p)
    {
      ServedExactly(namespace, views, k, p);
      if Listed(ports, p) {
        ListedInPermutation(ports, views[k].ports, p);
      }
      if Listed(views[k].ports, p) {
        ListedInPermutation(views[k].ports, ports, p);
      }
      forall e ensures Serves(e, Own(n, ports), p) <==> Serves(e, views[k], p) {
        ServesInPermutation(e, views[k], ports, p);
        assert Own(n, ports) == views[k].(ports := ports);
      }
    }
  }

  /** What the specification asks for before its port lists are sorted in place. */
  predicate Asks(spec: seq<CanaryService>, ports: seq<seq<CanaryPort>>)
    reads set s | s in spec :: s.ports
  {
    |ports| == |spec| && forall j | 0 <= j < |spec| :: spec[j].ports[..] == ports[j]
  }

  /** One collection per entry of the specification, in its order. */
  predicate CollectedFrom(cols: seq<ServiceCollection>, spec: seq<CanaryService>) {
    |cols| == |spec| && forall j | 0 <= j < |spec| ::
      cols[j].service == spec[j].service && cols[j].canaryPorts == spec[j].ports
  }

  lemma DistinctServices(cols: seq<ServiceCollection>, origins: Items, canaries: Items, lister: Services)
    requires Collected(cols, origins, canaries, lister)
    ensures NoRepeats(ServicesOf(cols))
  {
  }

  ghost predicate ViewsFor(views: seq<Column>, plan: seq<Target>, services: seq<string>, ports: seq<seq<CanaryPort>>) {
    |views| == |plan| && forall k | 0 <= k < |plan| :: ViewFor(plan[k].manifest.name, views[k], services, ports)
  }

  /** The configuration is what some allocation ended in. */
  ghost predicate WasGenerated(namespace: string, config: TemplateConfig) {
    exists views :: Rendered(views) && config == Generate(namespace, views)
  }

  lemma PlannedIsRendered(views: seq<Column>, plan: seq<Target>, origins: Items)
    requires |views| == |plan| && PlannedFor(views, plan, origins)
    ensures Rendered(views)
  {
    hide Table, Base;
    forall c | c in views ensures EndsWith(c.forked, FORKED_SUFFIX) && EndsWith(c.canary, CANARY_SUFFIX) {
      var k :| 0 <= k < |views| && views[k] == c;
      assert PlannedAt(plan[k].manifest.name, views, plan[k], k, origins);
    }
  }

  lemma GeneratedNow(namespace: string, views: seq<Column>)
    requires Rendered(views)
    ensures WasGenerated(namespace, Generate(namespace, views))
  {
  }

  /** A sync that finds its configuration unchanged finds the one that is running. */
  lemma AgreeingIsRunning(namespace: string, running: TemplateConfig, views: seq<Column>)
    requires WasGenerated(namespace, running) && Rendered(views)
    ensures WasGenerated(namespace, Generate(namespace, views))
    ensures ConfigsAgree(running, Generate(namespace, views)) <==> running == Generate(namespace, views)
  {
    var before :| Rendered(before) && running == Generate(namespace, before);
    ChangeCheckIsExact(namespace, before, namespace, views);
  }

  /** What a sync that got as far as the allocation leaves of the services, whatever failed then. */
  ghost predicate ServicesSynced(start: Services, now: Services, names: set<string>, services: seq<string>,
                                 ports: seq<seq<CanaryPort>>, origins: Items, lister: Services,
                                 selector: map<string, string>, canary: OwnerReference, views: seq<Column>,
                                 plan: seq<Target>) {
    && PlanCovers(plan, names) && |views| == |plan| && PlannedFor(views, plan, origins)
    && |services| == |ports| && NoRepeats(services) && ViewsFor(views, plan, services, ports)
    && PartlySynced(start, now, lister, plan, selector, canary, names)
  }

  lemma FreshByName(start: Services, lister: Services, plan: seq<Target>, names: set<string>)
    requires PlanCovers(plan, names)
    ensures (forall n | n in names :: Fresh(start, lister, n)) ==> AllFresh(start, lister, plan)
  {
  }

  lemma NothingForked(cluster: Cluster, cached: Cache, plan: seq<Target>, start: Services, lister: Services,
                      canary: OwnerReference)
    requires cluster.Valid() && OnlyCanariesChanged(start, cluster.services, cluster.names)
    requires PlanCovers(plan, cluster.names) && Mirrors(cached, lister)
    ensures OnlyForksMade(start, cluster.services, plan, canary, cluster.names)
    ensures PartlySynced(start, cluster.services, lister, plan, cluster.proxySelector, canary, cluster.names)
    ensures CacheRewritten(cached, cluster.names, lister, plan, cluster.proxySelector, canary)
  {
    hide After, Throughout, Canaries, CoversAll, Reflects, Named, NoClash, OnlyForksMade, PartlySynced, PlanCovers,
         Mirrors, CacheRewritten, OnlyCanariesChanged;
    PlanMeans(plan, cluster.names);
    ClusterMeans(cluster);
    CanariesWritten(start, cluster.services, lister, plan, cluster.proxySelector, canary, cluster.names);
    MirrorIsRewritten(cached, cluster.names, lister, plan, cluster.proxySelector, canary);
  }

  class Proxy {
    const namespace: string
    const canaryRelease: string
    const cluster: Cluster
    var runningConfig: Option<TemplateConfig>
    var exiting: bool

    constructor (namespace: string, canaryRelease: string, cluster: Cluster)
      requires cluster.Valid() && cluster.proxySelector == ProxySelector(namespace, canaryRelease)
      modifies cluster
      ensures Valid() && this.cluster == cluster && runningConfig == None && !exiting
      ensures cluster.proxySelector == map["canary.release.caicloud.io/created-by" := namespace + "." + canaryRelease]
      ensures cluster.Grows() && cluster.services == old(cluster.services) && cluster.State().pc == Idle
      ensures old(cluster.Steady())
              && (forall n | n in cluster.names :: !Selects(cluster.services, n, cluster.proxySelector)) ==>
                cluster.Steady()
      ensures cluster.nginx == None
    {
      this.namespace, this.canaryRelease, this.cluster := namespace, canaryRelease, cluster;
      runningConfig, exiting := None, false;
      new;
      cluster.StartProxy();
    }

    ghost predicate Valid()
      reads this, cluster
    {
      && cluster.Valid() && cluster.proxySelector == ProxySelector(namespace, canaryRelease)
      && (runningConfig.Some? ==> WasGenerated(namespace, runningConfig.value) && cluster.State().running)
    }

    /** What a sync that started in the old state leaves behind.  `same` says that its manifest was the one
        that the lister showed as recorded, `planned` that it got as far as the allocation,
        which is after its manifest was recorded; `done` that it dealt with every original. */
    twostate predicate Synced(same: bool, manifest: Manifest, services: seq<string>, ports: seq<seq<CanaryPort>>,
                              origins: Items, canaries: Items, lister: Services, recorded: Services,
                              canary: OwnerReference, releaseOwner: OwnerReference, ok: bool, done: bool,
                              planned: bool, views: seq<Column>, plan: seq<Target>)
      reads this, cluster
    {
      var config := Some(Generate(namespace, views));
      && (planned ==>
            && ServicesSynced(old(cluster.services), cluster.services, cluster.names, services, ports, origins, lister,
                              cluster.proxySelector,
                              canary, views, plan)
            && CanariesWritable(old(cluster.services), recorded, services, [canary, releaseOwner])
            && CanariesSent(old(cluster.services), cluster.services, recorded, services, canaries,
                            [canary, releaseOwner])
            && cluster.crs != [] && Last(cluster.crs).manifest == manifest)
      && (!planned ==> plan == [] && cluster.OnlyCanaries())
      && (done ==>
            && ok && planned && |services| == |ports| && runningConfig == cluster.nginx == config
            && cluster.asked == AskedFor(services, ports)
            && AllForked(cluster.services, plan)
            && AllTakenOver(old(cluster.services), cluster.services, lister, plan, cluster.proxySelector, canary))
      && (!done ==> runningConfig == old(runningConfig))
      && (!done && !cluster.SameNginx() ==>
            && !ok && planned && |services| == |ports| && cluster.nginx == config
            && cluster.asked == AskedFor(services, ports))
      // an unchanged manifest ends the sync before anything is looked at
      && (same ==> !done && !planned && cluster.SameNginx() && cluster.services == old(cluster.services))
      // and so does an unchanged configuration, before nginx is looked at
      && (ok && !done && !same ==> planned && cluster.OnlyCanaries() && cluster.SameNginx() && runningConfig == config)
    }

    /** A sync of a manifest that was not recorded and that reports no error has nginx on the generated configuration,
        unless it took the configuration for unchanged; then nginx is on it exactly if it was on the configuration that
        the proxy took for the running one.  A proxy that has none never takes it for unchanged. */
    twostate predicate RolledOut(ok: bool, done: bool, views: seq<Column>)
      reads this, cluster
    {
      var config := Some(Generate(namespace, views));
      && (ok && done ==> cluster.nginx == config)
      && (ok && !done ==> (cluster.nginx == config <==> old(cluster.nginx) == old(runningConfig)))
      && (ok && old(runningConfig) == None ==> done)
    }

    /** One sync, after the release and the canary objects were rendered; `manifest` is what the rendered canary
        objects are recorded as.  A lister's service that was taken over has been rewritten in place. */
    method Sync(originObjs: ObjectList, canaryObjs: ObjectList, spec: seq<CanaryService>, cached: Cache,
                canary: OwnerReference, releaseOwner: OwnerReference, recorded: Services, manifest: Manifest,
                ghost origins: Items, ghost canaries: Items, ghost lister: Services,
                ghost ports: seq<seq<CanaryPort>>)
      returns (ok: bool, ghost done: bool, ghost planned: bool, ghost views: seq<Column>, ghost plan: seq<Target>)
      requires Valid() && cluster.State().pc == Idle && cluster.crs[cluster.view].transition == NoTransition
      requires Held(originObjs, origins) && Held(canaryObjs, canaries) && Mirrors(cached, lister)
      requires Unshared(originObjs, canaryObjs, spec, cached)
      requires RendersOnce(canaries, ServiceNames(spec))
      requires (forall n :: n in ServiceNames(spec) <==> n in cluster.names) && Asks(spec, ports)
      requires NotOurs(origins, cluster.proxySelector) && NotOurs(canaries, cluster.proxySelector)
      modifies this`runningConfig, cluster
      modifies set o: ServiceObject | o in originObjs, set o: ServiceObject | o in originObjs :: o.ports
      modifies set o: ServiceObject | o in canaryObjs, set o: ServiceObject | o in canaryObjs :: o.ports
      modifies cached.Values, set o | o in cached.Values :: o.ports, set s | s in spec :: s.ports
      ensures Valid() && cluster.Advances() && cluster.State().pc == Idle
      ensures Synced(old(cluster.crs[cluster.view]).manifest == manifest, manifest, ServiceNames(spec), ports, origins,
                     canaries, lister, recorded, canary, releaseOwner, ok, done, planned, views, plan)
      ensures CacheRewritten(cached, cluster.names, lister, plan, cluster.proxySelector, canary)
      ensures old(cluster.crs[cluster.view]).manifest != manifest ==> RolledOut(ok, done, views)
      ensures ok ==> Renders(origins, canaries, ServiceNames(spec), cached.Keys)
      ensures cluster.reliable && Renders(origins, canaries, ServiceNames(spec), cached.Keys)
              && (old(cluster.crs[cluster.view]).manifest == manifest
                  || CanGoThrough(old(cluster.services), lister, recorded, cluster.names, canary, releaseOwner))
          ==> ok
    {
      hide After, Throughout, Canaries, CoversAll, Reflects, Named, NoClash, Asks, Held, Mirrors, RendersOnce, InOrder,
           RenameInTurn, Generate, WasGenerated, NotOurs, Collected, CacheRewritten, ServicesSynced, AllForked,
           AllTakenOver, AskedFor, CanGoThrough, CanariesWritable, CanariesSent, Renders;
      ok, done, planned, views, plan := false, false, false, [], [];
      ClusterMeans(cluster);
      RendersInOrder(canaries, ServiceNames(spec), cluster.names);
      var rendered := Prepare(originObjs, canaryObjs, spec, cached, origins, canaries, lister);
      MirrorIsRewritten(cached, cluster.names, lister, plan, cluster.proxySelector, canary);
      if rendered.None? {
        return;
      }
      ok, done, planned, views, plan := SyncRendered(rendered.value, spec, cached, canary, releaseOwner, recorded,
                                                     manifest,
                                                     origins, canaries, lister, ports);
    }

    /** A sync that rendered. */
    method SyncRendered(cols: seq<ServiceCollection>, spec: seq<CanaryService>, cached: Cache, canary: OwnerReference,
                        releaseOwner: OwnerReference, recorded: Services, manifest: Manifest, ghost origins: Items,
                        ghost canaries: Items, ghost lister: Services, ghost ports: seq<seq<CanaryPort>>)
      returns (ok: bool, ghost done: bool, ghost planned: bool, ghost views: seq<Column>, ghost plan: seq<Target>)
      requires Valid() && cluster.State().pc == Idle && cluster.crs[cluster.view].transition == NoTransition
      requires Collected(cols, origins, canaries, lister) && CollectedFrom(cols, spec)
      requires FromCache(cols, cached) && Mirrors(cached, lister)
      requires (forall n :: n in ServiceNames(spec) <==> n in cluster.names) && Asks(spec, ports)
      requires NotOurs(origins, cluster.proxySelector) && NotOurs(canaries, cluster.proxySelector)
      modifies this`runningConfig, cluster
      modifies (set c | c in cols)`upstreamPorts, set s | s in spec :: s.ports
      modifies (set c | c in cols :: c.forked)`owners
      modifies (set c | c in cols :: c.origin)`selector, set c | c in cols :: c.origin.ports
      modifies (set c | c in cols :: c.inCluster)`owners, (set c | c in cols :: c.inCluster)`selector
      modifies set c | c in cols :: c.inCluster.ports
      ensures Valid() && cluster.Advances() && cluster.State().pc == Idle
      ensures Synced(old(cluster.crs[cluster.view]).manifest == manifest, manifest, ServiceNames(spec), ports, origins,
                     canaries, lister, recorded, canary, releaseOwner, ok, done, planned, views, plan)
      ensures CacheRewritten(cached, cluster.names, lister, plan, cluster.proxySelector, canary)
      ensures cluster.reliable
              && (old(cluster.crs[cluster.view]).manifest == manifest
                  || CanGoThrough(old(cluster.services), lister, recorded, cluster.names, canary, releaseOwner))
          ==> ok
    {
      hide After, Throughout, Canaries, CoversAll, Reflects, Named, NoClash, Mirrors, Generate, CacheRewritten, Asks,
           WasGenerated, AskedFor, Collected, CollectedFrom, FromCache, NotOurs, Synced, CanGoThrough;
      if cluster.crs[cluster.view].manifest == manifest {
        MirrorIsRewritten(cached, cluster.names, lister, [], cluster.proxySelector, canary);
        done, planned, views, plan := false, false, [], [];
        ok := SkipSync(manifest, ServiceNames(spec), ports, origins, canaries, lister, recorded, canary, releaseOwner);
      } else {
        ok, done, planned, views, plan := SyncChanged(cols, spec, cached, canary, releaseOwner, recorded, manifest,
                                                      origins,
                                                      canaries, lister, ports);
      }
    }

    /** A sync that rendered the recorded manifest. */
    method SkipSync(manifest: Manifest, ghost services: seq<string>, ghost ports: seq<seq<CanaryPort>>,
                    ghost origins: Items, ghost canaries: Items, ghost lister: Services, ghost recorded: Services,
                    ghost canary: OwnerReference, ghost releaseOwner: OwnerReference)
      returns (ok: bool)
      requires Valid() && cluster.State().pc == Idle && cluster.crs[cluster.view].transition == NoTransition
      requires cluster.crs[cluster.view].manifest == manifest
      modifies cluster`log
      ensures Valid() && cluster.Advances() && cluster.State().pc == Idle
      ensures Synced(true, manifest, services, ports, origins, canaries, lister, recorded, canary, releaseOwner, ok,
                     false, false, [], [])
      ensures ok
    {
      hide After, Throughout, Canaries, CoversAll, Reflects, Named, NoClash, ServicesSynced, AllForked, AllTakenOver,
           Generate, WasGenerated, AskedFor;
      cluster.Record(SyncBegins(manifest));
      cluster.Record(ManifestUnchanged);
      ok := true;
    }

    /** The rest of a sync whose manifest is not the recorded one. */
    method SyncChanged(cols: seq<ServiceCollection>, spec: seq<CanaryService>, cached: Cache, canary: OwnerReference,
                       releaseOwner: OwnerReference, recorded: Services, manifest: Manifest, ghost origins: Items,
                       ghost canaries: Items, ghost lister: Services, ghost ports: seq<seq<CanaryPort>>)
      returns (ok: bool, ghost done: bool, ghost planned: bool, ghost views: seq<Column>, ghost plan: seq<Target>)
      requires Valid() && cluster.State().pc == Idle && cluster.crs[cluster.view].transition == NoTransition
      requires cluster.crs[cluster.view].manifest != manifest
      requires Collected(cols, origins, canaries, lister) && CollectedFrom(cols, spec)
      requires FromCache(cols, cached) && Mirrors(cached, lister)
      requires (forall n :: n in ServiceNames(spec) <==> n in cluster.names) && Asks(spec, ports)
      requires NotOurs(origins, cluster.proxySelector) && NotOurs(canaries, cluster.proxySelector)
      modifies this`runningConfig, cluster
      modifies (set c | c in cols)`upstreamPorts, set s | s in spec :: s.ports
      modifies (set c | c in cols :: c.forked)`owners
      modifies (set c | c in cols :: c.origin)`selector, set c | c in cols :: c.origin.ports
      modifies (set c | c in cols :: c.inCluster)`owners, (set c | c in cols :: c.inCluster)`selector
      modifies set c | c in cols :: c.inCluster.ports
      ensures Valid() && cluster.Advances() && cluster.State().pc == Idle
      ensures Synced(false, manifest, ServiceNames(spec), ports, origins, canaries, lister, recorded, canary,
                     releaseOwner, ok, done, planned, views, plan)
      ensures cluster.reliable
              && CanGoThrough(old(cluster.services), lister, recorded, cluster.names, canary, releaseOwner)
          ==> ok
      ensures CacheRewritten(cached, cluster.names, lister, plan, cluster.proxySelector, canary)
    {
      hide After, Throughout, Canaries, CoversAll, Reflects, Named, NoClash, ServicesSynced, AllForked, AllTakenOver,
           Mirrors, Generate, CacheRewritten, Asks, WasGenerated, AskedFor, Collected, CollectedFrom, FromCache,
           NotOurs, CanariesSent, CanariesWritable;
      ghost var start := cluster.services;
      done, planned, views, plan := false, false, [], [];
      MirrorIsRewritten(cached, cluster.names, lister, plan, cluster.proxySelector, canary);
      ByName(start, lister, recorded, ServiceNames(spec), cluster.names, canary, releaseOwner);
      ok := WriteCanaries(cols, spec, recorded, [canary, releaseOwner], manifest, origins, canaries, lister);
      if ok {
        planned := true;
        ghost var written := cluster.services;
        ok, done, views, plan := TakeOver(cols, spec, cached, canary, origins, canaries, lister, ports, start);
        SentStays(start, written, cluster.services, recorded, ServiceNames(spec), cluster.names, canaries,
                  [canary, releaseOwner]);
      }
    }

    /** With no call failing, what a sync still needs to go through: a lister that is up to date on the originals, and
        canary services that the release client may write. */
    static predicate CanGoThrough(start: Services, lister: Services, recorded: Services, names: set<string>,
                                  canary: OwnerReference, releaseOwner: OwnerReference) {
      forall n | n in names ::
        Fresh(start, lister, n) && Writable(start, recorded, n + "-canary", [canary, releaseOwner])
    }

    static lemma ByName(start: Services, lister: Services, recorded: Services, services: seq<string>,
                        names: set<string>, canary: OwnerReference, releaseOwner: OwnerReference)
      requires forall n | n in services :: n in names
      ensures CanGoThrough(start, lister, recorded, names, canary, releaseOwner) ==>
                && CanariesWritable(start, recorded, services, [canary, releaseOwner])
                && forall n | n in names :: Fresh(start, lister, n)
    {
      hide Writable;
    }

    /** What a sync leaves of nginx and of the running configuration after its manifest was recorded. */
    twostate predicate TookOver(start: Services, new asked: Asked, lister: Services, canary: OwnerReference, ok: bool,
                                done: bool, views: seq<Column>, plan: seq<Target>)
      reads this, cluster
    {
      var config := Some(Generate(namespace, views));
      && (cluster.SameNginx() || (cluster.nginx == config && cluster.asked == asked))
      && (done ==>
            && ok && runningConfig == cluster.nginx == config && cluster.asked == asked
            && AllForked(cluster.services, plan)
            && AllTakenOver(start, cluster.services, lister, plan, cluster.proxySelector, canary))
      && (!done ==> runningConfig == old(runningConfig))
      && (ok && !done ==> cluster.services == old(cluster.services) && cluster.SameNginx() && runningConfig == config)
    }

    /** The rest of a sync after its manifest was recorded. */
    method TakeOver(cols: seq<ServiceCollection>, spec: seq<CanaryService>, cached: Cache, canary: OwnerReference,
                    ghost origins: Items, ghost canaries: Items, ghost lister: Services,
                    ghost ports: seq<seq<CanaryPort>>, ghost start: Services)
      returns (ok: bool, ghost done: bool, ghost views: seq<Column>, ghost plan: seq<Target>)
      requires Valid() && cluster.State().pc == Forking({})
      requires OnlyCanariesChanged(start, cluster.services, cluster.names)
      requires Collected(cols, origins, canaries, lister) && CollectedFrom(cols, spec)
      requires FromCache(cols, cached) && Mirrors(cached, lister)
      requires (forall n :: n in ServiceNames(spec) <==> n in cluster.names) && Asks(spec, ports)
      requires NotOurs(origins, cluster.proxySelector)
      modifies this`runningConfig, cluster
      modifies (set c | c in cols)`upstreamPorts, set s | s in spec :: s.ports
      modifies (set c | c in cols :: c.forked)`owners
      modifies (set c | c in cols :: c.origin)`selector, set c | c in cols :: c.origin.ports
      modifies (set c | c in cols :: c.inCluster)`owners, (set c | c in cols :: c.inCluster)`selector
      modifies set c | c in cols :: c.inCluster.ports
      ensures Valid() && cluster.Advances() && cluster.State().pc == Idle
      ensures Last(cluster.crs).manifest == old(Last(cluster.crs).manifest)
      ensures ServicesSynced(start, cluster.services, cluster.names, ServiceNames(spec), ports, origins, lister,
                             cluster.proxySelector,
                             canary, views, plan)
      ensures CacheRewritten(cached, cluster.names, lister, plan, cluster.proxySelector, canary)
      ensures |spec| == |ports|
      ensures TookOver(start, AskedFor(ServiceNames(spec), ports), lister, canary, ok, done, views, plan)
      ensures cluster.reliable && (forall n | n in cluster.names :: Fresh(start, lister, n)) ==> ok
    {
      hide After, Throughout, Canaries, CoversAll, Reflects, Named, NoClash, OnlyForksMade, PartlySynced, AllForked,
           AllTakenOver, PlanCovers, PreparedFrom, WaitingFrom, AllRewritten, AllSeparated, Mirrors, Generate,
           PlannedFor, ViewsFor, NoRepeats, CacheRewritten, Asks, Ready, WasGenerated, Rendered, AskedFor, Collected,
           CollectedFrom, FromCache, NotOurs, OnlyCanariesChanged, AllFresh;
      var sorted, config;
      sorted, config, views, plan := GetConfig(cols, spec, cached, origins, canaries, lister, ports);
      NothingForked(cluster, cached, plan, start, lister, canary);
      FreshByName(start, lister, plan, cluster.names);
      ok, done := ChangeUnlessRunning(sorted, config, cached, canary, views, plan, lister,
                                      AskedFor(ServiceNames(spec), ports), start);
    }

    /** The rest of a sync after its configuration was generated. */
    method ChangeUnlessRunning(cols: seq<ServiceCollection>, config: TemplateConfig, ghost cached: Cache,
                               canary: OwnerReference, ghost views: seq<Column>, ghost plan: seq<Target>,
                               ghost lister: Services, ghost asked: Asked, ghost start: Services)
      returns (ok: bool, ghost done: bool)
      requires Valid() && cluster.State().pc == Forking({})
      requires OnlyForksMade(start, cluster.services, plan, canary, cluster.names)
      requires PartlySynced(start, cluster.services, lister, plan, cluster.proxySelector, canary, cluster.names)
      requires AllSeparated(cols) && PreparedFrom(cols, plan, 0) && WaitingFrom(cols, plan, lister, 0)
      requires FromCache(cols, cached)
      requires Mirrors(cached, lister) && PlanCovers(plan, cluster.names)
      requires |plan| == |cols| && forall k | 0 <= k < |plan| :: plan[k].manifest.name == cols[k].service
      requires config == Generate(namespace, views) && Rendered(views) && CoversAll(config, cluster.names, asked)
      requires forall i | 0 <= i < |plan| :: plan[i].manifest.selector != cluster.proxySelector
      modifies this`runningConfig, cluster
      modifies (set c | c in cols :: c.forked)`owners
      modifies (set c | c in cols :: c.origin)`selector, set c | c in cols :: c.origin.ports
      modifies (set c | c in cols :: c.inCluster)`owners, (set c | c in cols :: c.inCluster)`selector
      modifies set c | c in cols :: c.inCluster.ports
      ensures Valid() && cluster.Advances() && cluster.State().pc == Idle
      ensures Last(cluster.crs).manifest == old(Last(cluster.crs).manifest)
      ensures PartlySynced(start, cluster.services, lister, plan, cluster.proxySelector, canary, cluster.names)
      ensures CacheRewritten(cached, cluster.names, lister, plan, cluster.proxySelector, canary)
      ensures TookOver(start, asked, lister, canary, ok, done, views, plan)
      ensures cluster.reliable && AllFresh(start, lister, plan) ==> ok
    {
      hide After, Throughout, Canaries, CoversAll, Reflects, Named, NoClash, OnlyForksMade, PartlySynced, AllForked,
           AllTakenOver, PlanCovers, PreparedFrom, WaitingFrom, AllRewritten, AllSeparated, Mirrors, Generate,
           CacheRewritten, WasGenerated, Rendered, FromCache, AllFresh;
      MirrorIsRewritten(cached, cluster.names, lister, plan, cluster.proxySelector, canary);
      var same := IsRunning(config, views);
      if same {
        cluster.Record(ConfigUnchanged);
        ok, done := true, false;
      } else {
        ok := ChangeOver(cols, config, cached, canary, views, plan, lister, asked, start);
        done := ok;
      }
    }

    /** The rest of a sync whose configuration is not the running one. */
    method ChangeOver(cols: seq<ServiceCollection>, config: TemplateConfig, ghost cached: Cache, canary: OwnerReference,
                      ghost views: seq<Column>, ghost plan: seq<Target>, ghost lister: Services, ghost asked: Asked,
                      ghost start: Services)
      returns (ok: bool)
      requires Valid() && cluster.State().pc == Forking({})
      requires OnlyForksMade(start, cluster.services, plan, canary, cluster.names)
      requires AllSeparated(cols) && PreparedFrom(cols, plan, 0) && WaitingFrom(cols, plan, lister, 0)
      requires FromCache(cols, cached)
      requires Mirrors(cached, lister) && PlanCovers(plan, cluster.names)
      requires |plan| == |cols| && forall k | 0 <= k < |plan| :: plan[k].manifest.name == cols[k].service
      requires config == Generate(namespace, views) && WasGenerated(namespace, config)
      requires CoversAll(config, cluster.names, asked)
      requires forall i | 0 <= i < |plan| :: plan[i].manifest.selector != cluster.proxySelector
      modifies this`runningConfig, cluster
      modifies (set c | c in cols :: c.forked)`owners
      modifies (set c | c in cols :: c.origin)`selector, set c | c in cols :: c.origin.ports
      modifies (set c | c in cols :: c.inCluster)`owners, (set c | c in cols :: c.inCluster)`selector
      modifies set c | c in cols :: c.inCluster.ports
      ensures Valid() && cluster.Advances() && cluster.State().pc == Idle
      ensures Last(cluster.crs).manifest == old(Last(cluster.crs).manifest)
      ensures PartlySynced(start, cluster.services, lister, plan, cluster.proxySelector, canary, cluster.names)
      ensures CacheRewritten(cached, cluster.names, lister, plan, cluster.proxySelector, canary)
      ensures TookOver(start, asked, lister, canary, ok, ok, views, plan)
      ensures cluster.reliable && AllFresh(start, lister, plan) ==> ok
    {
      hide After, Throughout, Canaries, CoversAll, Reflects, Named, NoClash, OnlyForksMade, PartlySynced, AllForked,
           AllTakenOver, PlanCovers, PreparedFrom, WaitingFrom, AllRewritten, AllSeparated, Mirrors, Generate,
           CacheRewritten, WasGenerated, Rendered, FromCache, AllFresh;
      MirrorIsRewritten(cached, cluster.names, lister, plan, cluster.proxySelector, canary);
      ok := Rollout(cluster, cols, config, canary, plan, start, lister, asked);
      CollectionsRewritten(cols, cached, cluster.names, lister, plan, cluster.proxySelector, canary);
      End(config, ok);
    }

    /** Is the configuration the one that is running? */
    method IsRunning(config: TemplateConfig, ghost views: seq<Column>) returns (same: bool)
      requires Valid() && Rendered(views) && config == Generate(namespace, views)
      ensures WasGenerated(namespace, config) && (same <==> runningConfig == Some(config))
      ensures same ==> cluster.State().running
    {
      hide After, Generate, WasGenerated, Rendered, ConfigsAgree, Reflects, Named, NoClash, CoversAll;
      GeneratedNow(namespace, views);
      same := false;
      if runningConfig.Some? {
        AgreeingIsRunning(namespace, runningConfig.value, views);
        same := ConfigEqual(runningConfig, Some(config));
      }
    }

    /** The end of a rollout. */
    method End(config: TemplateConfig, ok: bool)
      requires Valid() && WasGenerated(namespace, config)
      requires cluster.State().pc.Pointing? || (!ok && cluster.State().pc.Forking?)
      modifies this`runningConfig, cluster`log
      ensures Valid() && cluster.Advances() && cluster.State().pc == Idle
      ensures runningConfig == if ok then Some(config) else old(runningConfig)
    {
      hide After, Throughout, Canaries, CoversAll, Reflects, Named, NoClash, WasGenerated;
      if ok {
        cluster.Record(SyncCompletes);
        runningConfig := Some(config);
      } else {
        cluster.Record(SyncFails);
      }
    }

    /** The configuration for nginx, and what it means for the originals. */
    method GetConfig(cols: seq<ServiceCollection>, spec: seq<CanaryService>, ghost cached: Cache, ghost origins: Items,
                     ghost canaries: Items, ghost lister: Services, ghost ports: seq<seq<CanaryPort>>)
      returns (sorted: seq<ServiceCollection>, config: TemplateConfig, ghost views: seq<Column>,
               ghost plan: seq<Target>)
      requires Valid() && Collected(cols, origins, canaries, lister) && NotOurs(origins, cluster.proxySelector)
      requires CollectedFrom(cols, spec) && FromCache(cols, cached) && Asks(spec, ports)
      requires forall n :: n in ServiceNames(spec) <==> n in cluster.names
      modifies set s | s in spec :: s.ports
      modifies (set c | c in cols)`upstreamPorts
      ensures Valid() && config == Generate(namespace, views) && (forall c :: c in sorted <==> c in cols)
              && AllSeparated(sorted)
      ensures PreparedFrom(sorted, plan, 0) && WaitingFrom(sorted, plan, lister, 0) && FromCache(sorted, cached)
      ensures |plan| == |sorted| && forall k | 0 <= k < |plan| :: plan[k].manifest.name == sorted[k].service
      ensures PlanCovers(plan, cluster.names) && |views| == |plan| && PlannedFor(views, plan, origins)
      ensures Rendered(views)
      ensures |spec| == |ports| && NoRepeats(ServiceNames(spec)) && ViewsFor(views, plan, ServiceNames(spec), ports)
      ensures CoversAll(config, cluster.names, AskedFor(ServiceNames(spec), ports))
      ensures forall i | 0 <= i < |plan| :: plan[i].manifest.selector != cluster.proxySelector
    {
      hide After, Throughout, Canaries, CoversAll, Reflects, Named, NoClash, PreparedFrom, WaitingFrom, AllSeparated,
           Generate, Ready, PlannedAt, ViewFor, AskedFor;
      assert forall c | c in cols :: c.canaryPorts in set s | s in spec :: s.ports;
      assert ServicesOf(cols) == ServiceNames(spec);
      hide Collected, PlanCovers, FromCache, CollectedFrom;
      DistinctServices(cols, origins, canaries, lister);
      sorted, config, views, plan := Allocate(namespace, cols, origins, canaries, lister, ports);
      PlanIsCovering(cols, sorted, plan, cluster.names);
      FromCachePermuted(cols, sorted, cached);
      PlanIsOurs(sorted, views, plan, origins, cluster.proxySelector);
      PlannedIsRendered(views, plan, origins);
      ConfigCovers(namespace, views, plan, origins, cluster.names, ServiceNames(spec), ports);
    }

    /** The part of a sync that has the canary resources written and their manifest recorded. */
    method WriteCanaries(cols: seq<ServiceCollection>, spec: seq<CanaryService>, recorded: Services,
                         owners: seq<OwnerReference>, manifest: Manifest, ghost origins: Items, ghost canaries: Items,
                         ghost lister: Services)
      returns (ok: bool)
      requires Valid() && cluster.State().pc == Idle && cluster.crs[cluster.view].transition == NoTransition
      requires cluster.crs[cluster.view].manifest != manifest
      requires Collected(cols, origins, canaries, lister) && CollectedFrom(cols, spec)
      requires (forall n :: n in ServiceNames(spec) <==> n in cluster.names) && NotOurs(canaries, cluster.proxySelector)
      modifies cluster
      ensures Valid() && cluster.Advances() && cluster.SameNginx() && cluster.OnlyCanaries()
      ensures if ok then cluster.State().pc == Forking({}) && Last(cluster.crs).manifest == manifest
              else cluster.State().pc == Idle
      ensures ok ==>
                && CanariesWritable(old(cluster.services), recorded, ServiceNames(spec), owners)
                && CanariesSent(old(cluster.services), cluster.services, recorded, ServiceNames(spec), canaries, owners)
      ensures cluster.reliable && CanariesWritable(old(cluster.services), recorded, ServiceNames(spec), owners) ==> ok
    {
      hide After, Throughout, Canaries, CoversAll, Reflects, Named, NoClash, Collected, CollectedFrom, NotOurs,
           WasGenerated, CanariesSent, CanariesWritable;
      cluster.Record(SyncBegins(manifest));
      ok := WriteAndRecord(cols, spec, recorded, owners, manifest, origins, canaries, lister);
      if !ok {
        cluster.Record(SyncFails);
      }
    }

    method WriteAndRecord(cols: seq<ServiceCollection>, spec: seq<CanaryService>, recorded: Services,
                          owners: seq<OwnerReference>, manifest: Manifest, ghost origins: Items,
                          ghost canaries: Items, ghost lister: Services)
      returns (ok: bool)
      requires Valid() && cluster.State().pc.Syncing?
      requires cluster.State().pc.rendered == manifest != cluster.State().pc.seen
      requires Collected(cols, origins, canaries, lister) && CollectedFrom(cols, spec)
      requires (forall n :: n in ServiceNames(spec) <==> n in cluster.names) && NotOurs(canaries, cluster.proxySelector)
      modifies cluster
      ensures Valid() && cluster.Continues() && cluster.SameNginx() && cluster.OnlyCanaries()
      ensures cluster.State().pc == old(cluster.State().pc) || cluster.State().pc == Forking({})
      ensures ok ==> cluster.State().pc == Forking({}) && Last(cluster.crs).manifest == manifest
      ensures ok ==>
                && CanariesWritable(old(cluster.services), recorded, ServiceNames(spec), owners)
                && CanariesSent(old(cluster.services), cluster.services, recorded, ServiceNames(spec), canaries, owners)
      ensures cluster.reliable && CanariesWritable(old(cluster.services), recorded, ServiceNames(spec), owners) ==> ok
    {
      hide After, Throughout, Canaries, CoversAll, Reflects, Named, NoClash, Ready, AllSeparated, WasGenerated,
           CanariesSent, CanariesWritable, Collected, CollectedFrom, NotOurs;
      ok := WriteRendered(cols, spec, recorded, owners, origins, canaries, lister);
      if ok {
        ok := cluster.RecordManifest(manifest);
      }
    }

    method WriteRendered(cols: seq<ServiceCollection>, spec: seq<CanaryService>, recorded: Services,
                         owners: seq<OwnerReference>, ghost origins: Items, ghost canaries: Items,
                         ghost lister: Services)
      returns (ok: bool)
      requires Valid() && cluster.State().pc.Syncing? && cluster.State().pc.rendered != cluster.State().pc.seen
      requires Collected(cols, origins, canaries, lister) && CollectedFrom(cols, spec)
      requires (forall n :: n in ServiceNames(spec) <==> n in cluster.names) && NotOurs(canaries, cluster.proxySelector)
      modifies cluster
      ensures Valid() && cluster.Continues() && cluster.SameNginx() && cluster.OnlyCanaries()
      ensures cluster.State().pc == old(cluster.State().pc)
      ensures ok ==>
                && cluster.names <= cluster.State().canaries
                && CanariesWritable(old(cluster.services), recorded, ServiceNames(spec), owners)
                && CanariesSent(old(cluster.services), cluster.services, recorded, ServiceNames(spec), canaries, owners)
      ensures cluster.reliable && CanariesWritable(old(cluster.services), recorded, ServiceNames(spec), owners) ==> ok
    {
      hide After, Throughout, Canaries, CoversAll, Reflects, Named, NoClash, Ready, AllSeparated, WasGenerated,
           CanariesSent, CanariesWritable, AllWritten, AllWritable, DistinctlyNamed, Collected, NotOurs, RenamedViews;
      ghost var start, names := cluster.services, ServiceNames(spec);
      var views := CanaryViews(cols);
      CollectedViews(cols, names, origins, canaries, lister);
      ViewsAreOthers(views, names, canaries, cluster.proxySelector);
      AllAreWritable(views, names, canaries, start, recorded, owners);
      ok := cluster.WriteManifest(ServiceNames(spec), views, recorded, owners);
      if ok {
        AllAreSent(views, names, canaries, start, cluster.services, recorded, owners);
      }
    }

    // -------------------------------------------------------------- cleanup

    /** What every cleanup leaves, whatever happened: listers that were current and a recovery that was not given up
        keep the run careful. */
    twostate predicate CleanedUp(current: bool, recovered: bool, written: bool)
      reads this, cluster
      requires old(Valid()) && old(cluster.State().pc.Recovering?)
    {
      && Valid() && old(cluster.log) <= cluster.log && cluster.State().pc == Idle && cluster.SameNginx()
      && (current && recovered && old(cluster.Careful()) ==> cluster.Careful())
      && (old(cluster.Steady()) ==> cluster.Steady())
      && Last(cluster.crs).phase == if written then old(cluster.State().pc.goal) else old(Last(cluster.crs).phase)
    }

    /** The deprecating cleanup.  A failed recovery is logged, and the rest is done all the same. */
    method CleanupDeprecated(spec: seq<string>, canary: OwnerReference,
                             current: bool) returns (recovered: bool, written: bool, ghost deleted: bool)
      requires Valid() && cluster.State().pc == Recovering(Deprecated, {})
      requires forall n :: n in spec <==> n in cluster.names
      modifies this`runningConfig, this`exiting, cluster
      ensures CleanedUp(current, recovered, written) && runningConfig == None && exiting
      ensures current ==> PartlyReverted(old(cluster.services), cluster.services, cluster.names, canary)
      ensures current && recovered ==> Reverted(old(cluster.services), cluster.services, cluster.names, canary)
      ensures current && recovered && deleted ==> Cleared(cluster.services, cluster.names)
      ensures cluster.reliable ==> deleted && written && (current && NoRepeats(spec) ==> recovered)
    {
      hide After, Throughout, Canaries, CoversAll, Reflects, Named, NoClash, FullyRestored, PartlyRestored, OnlyFewer,
           Reverted, PartlyReverted, AllSuffixed, NoneOmitted, Cleared, NoRepeats;
      ghost var before := cluster.services;
      var forks;
      forks, recovered := RecoverFromForks(spec, canary, current);
      written, deleted := Clear(spec, forks, canary, before, current, current && recovered);
      runningConfig, exiting := None, true;
    }

    /** The recovery of a deprecating cleanup; that it failed is logged. */
    method RecoverFromForks(spec: seq<string>, canary: OwnerReference, current: bool)
      returns (forks: seq<Service>, recovered: bool)
      requires Valid() && cluster.State().pc == Recovering(Deprecated, {})
      requires forall n :: n in spec <==> n in cluster.names
      modifies cluster
      ensures Valid() && old(cluster.log) <= cluster.log && cluster.State().pc == Clearing(Deprecated)
              && cluster.SameNginx()
      ensures current && recovered && old(cluster.Careful()) ==> cluster.Careful()
      ensures old(cluster.Steady()) ==> cluster.Steady()
      ensures Last(cluster.crs).phase == old(Last(cluster.crs).phase)
              && AllSuffixed(forks, cluster.names, FORKED_SUFFIX)
      ensures current ==>
                PartlyRestored(old(cluster.services), cluster.services, cluster.names, FORKED_SUFFIX, true, canary)
      ensures current && recovered ==>
                && FullyRestored(old(cluster.services), cluster.services, cluster.names, FORKED_SUFFIX, true, canary)
                && NoneOmitted(forks, cluster.names, old(cluster.services), FORKED_SUFFIX)
      ensures cluster.reliable && current && NoRepeats(spec) ==> recovered
    {
      hide After, Throughout, Canaries, CoversAll, Reflects, Named, NoClash, FullyRestored, PartlyRestored, AllSuffixed,
           NoneOmitted, WasGenerated, NoRepeats;
      var originals, canaries;
      ghost var attempts;
      originals, canaries, forks, recovered, attempts :=
        GetRelatedAndRecover(cluster, spec, FORKED_SUFFIX, true, canary, current);
      if !recovered {
        cluster.Record(RecoveryFails);
      }
    }

    /** The end of a deprecating cleanup: canary services and forks go, the phase is written. */
    method Clear(spec: seq<string>, forks: seq<Service>, canary: OwnerReference, ghost before: Services,
                 ghost partly: bool, ghost clean: bool)
      returns (written: bool, ghost deleted: bool)
      requires Valid() && cluster.State().pc == Clearing(Deprecated) && forall n :: n in spec <==> n in cluster.names
      requires AllSuffixed(forks, cluster.names, FORKED_SUFFIX)
      requires partly ==> PartlyRestored(before, cluster.services, cluster.names, FORKED_SUFFIX, true, canary)
      requires clean ==>
                 && FullyRestored(before, cluster.services, cluster.names, FORKED_SUFFIX, true, canary)
                 && NoneOmitted(forks, cluster.names, before, FORKED_SUFFIX)
      modifies cluster
      ensures cluster.Continues() && cluster.State().pc == Idle && cluster.SameNginx()
      ensures Last(cluster.crs).phase == if written then Deprecated else old(Last(cluster.crs).phase)
      ensures partly ==> PartlyReverted(before, cluster.services, cluster.names, canary)
      ensures clean ==> Reverted(before, cluster.services, cluster.names, canary)
      ensures clean && deleted ==> Cleared(cluster.services, cluster.names)
      ensures cluster.reliable ==> deleted && written
    {
      hide After, Throughout, Canaries, CoversAll, Reflects, Named, NoClash, PartlyRestored, FullyRestored, OnlyFewer,
           PartlyReverted, Reverted, AllSuffixed, NoneOmitted;
      ghost var mid := cluster.services;
      ghost var canariesDeleted := DeleteManifest(cluster, spec);
      ghost var fewer := cluster.services;
      deleted := DeleteServices(cluster, forks, FORKED_SUFFIX);
      deleted := deleted && canariesDeleted;
      FewerTwice(mid, fewer, cluster.services, cluster.names);
      if partly {
        PartlyRevertedAfterDeletion(before, mid, cluster.services, cluster.names, canary);
      }
      if clean {
        RevertedAfterDeletion(before, mid, cluster.services, cluster.names, canary);
        OnlyFewerKeys(fewer, cluster.services, cluster.names);
        if deleted {
          NoneIsLeft(forks, before, cluster.services, cluster.names, FORKED_SUFFIX);
        }
      }
      written := cluster.WritePhase(Deprecated);
    }

    /** Whether the adoption may go ahead: the release is there, at the version the canary was made for. */
    static predicate Matches(release: ReleaseObject?, version: int) {
      release != null && release.version == version
    }

    static ghost function Written(release: ReleaseObject?): set<ReleaseObject> {
      if release == null then {} else {release}
    }

    /** The end of an adoption: the release becomes the originals' owner, forks and canary services go, the phase is
        written. */
    method HandOver(originals: seq<Service>, canaries: seq<Service>, forks: seq<Service>, canary: OwnerReference,
                    owner: OwnerReference, ghost before: Services, ghost current: bool)
      returns (written: bool, all: bool, ghost patched: set<string>, ghost deleted: bool)
      requires Valid() && cluster.State().pc == Clearing(Adopted)
      requires AllSuffixed(originals, cluster.names, "") && AllSuffixed(canaries, cluster.names, CANARY_SUFFIX)
      requires AllSuffixed(forks, cluster.names, FORKED_SUFFIX)
      requires current ==> FullyRestored(before, cluster.services, cluster.names, CANARY_SUFFIX, false, canary)
      requires current ==> Complete(originals, canaries, forks, cluster.names, before)
      modifies cluster
      ensures cluster.Continues() && cluster.State().pc == Idle && cluster.SameNginx()
      ensures Last(cluster.crs).phase == if written then Adopted else old(Last(cluster.crs).phase)
      ensures current ==> HandedOver(before, cluster.services, cluster.names, patched, canary, owner)
      ensures current && all ==> forall n | n in cluster.names && n in before :: n in patched
      ensures current && deleted ==> Cleared(cluster.services, cluster.names)
      ensures cluster.reliable ==> deleted && written && (current ==> all)
    {
      hide After, Throughout, Canaries, CoversAll, Reflects, Named, NoClash, FullyRestored, OnlyFewer, HandedOver,
           OwnersReset, AllSuffixed, NoneOmitted;
      ghost var mid := cluster.services;
      if current {
        FullyRestoredKeys(before, mid, cluster.names, CANARY_SUFFIX, false, canary);
      }
      patched, all := ResetOwners(cluster, originals, owner);
      ghost var reset := cluster.services;
      ghost var forksDeleted := DeleteServices(cluster, forks, FORKED_SUFFIX);
      ghost var fewer := cluster.services;
      deleted := DeleteServices(cluster, canaries, CANARY_SUFFIX);
      deleted := deleted && forksDeleted;
      FewerTwice(reset, fewer, cluster.services, cluster.names);
      if current {
        HandedOverAfterDeletion(before, mid, reset, cluster.services, cluster.names, patched, canary, owner);
        AllArePatched(originals, before, cluster.names, patched);
        OnlyFewerKeys(fewer, cluster.services, cluster.names);
        if deleted {
          NoneIsLeft(forks, before, cluster.services, cluster.names, FORKED_SUFFIX);
          NoneIsLeft(canaries, before, cluster.services, cluster.names, CANARY_SUFFIX);
        }
      }
      written := cluster.WritePhase(Adopted);
    }

    /** The part of an adoption that is about the release. */
    method AdoptConfigAndResources(release: ReleaseObject, server: ReleaseServer, cachedApps: Applications,
                                   path: string, newValue: Json)
      returns (ok: bool)
      requires Valid() && cluster.State().pc == Clearing(Adopted)
      modifies cluster`log, server, release`config
      ensures Valid() && cluster.Advances()
      ensures cluster.State().pc == if ok then Clearing(Adopted) else Idle
      ensures ok ==>
                AcceptedReplacement(server, release.owners, release.name, cachedApps, old(release.config),
                                    canaryRelease, path, newValue)
      ensures cluster.reliable && server.reliable
              && old(Adoptable(server, release, cachedApps, canaryRelease, path, newValue)) ==>
                ok
    {
      hide After, Throughout, Canaries, CoversAll, Reflects, Named, NoClash, AcceptedReplacement, WasGenerated;
      ok := AdoptConfig(server, release, cachedApps, canaryRelease, path, newValue);
      if ok {
        // decoding the manifest and patching its other objects may fail
        ok := cluster.Works();
      }
      if !ok {
        cluster.Record(AdoptionFails);
      }
    }

    /** The rest of an adoption, after the originals were recovered. */
    method AdoptRecovered(originals: seq<Service>, canaries: seq<Service>, forks: seq<Service>, canary: OwnerReference,
                          release: ReleaseObject, releaseOwner: OwnerReference, server: ReleaseServer,
                          cachedApps: Applications, path: string, newValue: Json, ghost before: Services,
                          ghost current: bool)
      returns (ok: bool, written: bool, allPatched: bool, ghost patched: set<string>, ghost deleted: bool)
      requires Valid() && cluster.State().pc == Clearing(Adopted)
      requires AllSuffixed(originals, cluster.names, "") && AllSuffixed(canaries, cluster.names, CANARY_SUFFIX)
      requires AllSuffixed(forks, cluster.names, FORKED_SUFFIX)
      requires current ==> FullyRestored(before, cluster.services, cluster.names, CANARY_SUFFIX, false, canary)
      requires current ==> Complete(originals, canaries, forks, cluster.names, before)
      modifies this`runningConfig, this`exiting, cluster, server, release`config
      ensures Valid() && old(cluster.log) <= cluster.log && cluster.State().pc == Idle && cluster.SameNginx()
      ensures (old(cluster.Careful()) ==> cluster.Careful()) && (old(cluster.Steady()) ==> cluster.Steady())
      ensures Last(cluster.crs).phase == (if written then Adopted else old(Last(cluster.crs).phase)) && (written ==> ok)
      ensures ok ==>
                && runningConfig == None && exiting
                && AcceptedReplacement(server, release.owners, release.name, cachedApps, old(release.config),
                                       canaryRelease, path, newValue)
                && (current ==> HandedOver(before, cluster.services, cluster.names, patched, canary, releaseOwner))
                && (current && allPatched ==> forall n | n in cluster.names && n in before :: n in patched)
                && (current && deleted ==> Cleared(cluster.services, cluster.names))
      ensures !ok ==> unchanged(`exiting, `runningConfig)
      ensures cluster.reliable && server.reliable
              && old(Adoptable(server, release, cachedApps, canaryRelease, path, newValue)) ==>
                ok
      ensures cluster.reliable && ok ==> deleted && written && (current ==> allPatched)
    {
      hide After, Throughout, Canaries, CoversAll, Reflects, Named, NoClash, FullyRestored, HandedOver, AllSuffixed,
           Complete, AcceptedReplacement, WasGenerated, Cleared, Adoptable;
      written, allPatched, patched, deleted := false, false, {}, false;
      ok := AdoptConfigAndResources(release, server, cachedApps, path, newValue);
      if !ok {
        return;
      }
      written, allPatched, patched, deleted :=
        HandOver(originals, canaries, forks, canary, releaseOwner, before, current);
      runningConfig, exiting := None, true;
    }

    /** The adoption of a canary whose release matched. */
    method Adopt(spec: seq<string>, canary: OwnerReference, current: bool, release: ReleaseObject,
                 releaseOwner: OwnerReference, server: ReleaseServer, cachedApps: Applications,
                 path: string, newValue: Json)
      returns (ok: bool, written: bool, allPatched: bool, ghost patched: set<string>, ghost deleted: bool)
      requires Valid() && cluster.State().pc == Recovering(Adopted, {}) && forall n :: n in spec <==> n in cluster.names
      modifies this`runningConfig, this`exiting, cluster, server, release`config
      ensures CleanedUp(current, true, written) && (written ==> ok)
      ensures ok ==>
                && runningConfig == None && exiting
                && AcceptedReplacement(server, release.owners, release.name, cachedApps, old(release.config),
                                       canaryRelease, path, newValue)
                && (current ==>
                      HandedOver(old(cluster.services), cluster.services, cluster.names, patched, canary, releaseOwner))
                && (current && allPatched ==>
                      forall n | n in cluster.names && n in old(cluster.services) :: n in patched)
                && (current && deleted ==> Cleared(cluster.services, cluster.names))
      ensures !ok ==> unchanged(`exiting, `runningConfig)
      ensures cluster.reliable && server.reliable && current && NoRepeats(spec)
              && old(Adoptable(server, release, cachedApps, canaryRelease, path, newValue)) ==>
                ok
      ensures cluster.reliable && ok ==> deleted && written && (current ==> allPatched)
    {
      hide After, Throughout, Canaries, CoversAll, Reflects, Named, NoClash, FullyRestored, PartlyRestored, HandedOver,
           AllSuffixed, Complete, AcceptedReplacement, WasGenerated, Cleared, Adoptable, NoRepeats;
      written, allPatched, patched, deleted := false, false, {}, false;
      ghost var before := cluster.services;
      var originals, canaries, forks;
      ghost var attempts;
      originals, canaries, forks, ok, attempts :=
        GetRelatedAndRecover(cluster, spec, CANARY_SUFFIX, false, canary, current);
      if !ok {
        cluster.Record(RecoveryFails);
        return;
      }
      ok, written, allPatched, patched, deleted :=
        AdoptRecovered(originals, canaries, forks, canary, release, releaseOwner, server, cachedApps, path, newValue,
                       before, current);
    }

    /** The adopting cleanup.  The phase is written only if the release matched, the originals were recovered from the
        canary services and the server accepted the replaced configuration; if the release is gone or at another
        version, deprecate is called, which does nothing because the transition is set. */
    method CleanupAdopted(cr: CanaryRelease, spec: seq<string>, canary: OwnerReference, current: bool,
                          release: ReleaseObject?, releaseOwner: OwnerReference, version: int, server: ReleaseServer,
                          cachedApps: Applications, path: string, newValue: Json)
      returns (ok: bool, written: bool, allPatched: bool, ghost patched: set<string>, ghost deleted: bool)
      requires Valid() && cluster.State().pc == Recovering(Adopted, {}) && forall n :: n in spec <==> n in cluster.names
      requires cr.transition == Adopted
      modifies this`runningConfig, this`exiting, cluster, server, Written(release)`config
      ensures CleanedUp(current, true, written) && (written ==> ok)
      ensures release == null || release.version != version ==>
                ok && !written && cluster.services == old(cluster.services)
                && unchanged(`exiting, `runningConfig, server)
      ensures !ok ==> unchanged(`exiting, `runningConfig)
      ensures ok && Matches(release, version) ==>
                && runningConfig == None && exiting
                && AcceptedReplacement(server, release.owners, release.name, cachedApps, old(release.config),
                                       canaryRelease, path, newValue)
                && (current ==>
                      HandedOver(old(cluster.services), cluster.services, cluster.names, patched, canary, releaseOwner))
                && (current && allPatched ==>
                      forall n | n in cluster.names && n in old(cluster.services) :: n in patched)
                && (current && deleted ==> Cleared(cluster.services, cluster.names))
      ensures Matches(release, version) && cluster.reliable && server.reliable && current && NoRepeats(spec)
              && old(Adoptable(server, release, cachedApps, canaryRelease, path, newValue)) ==>
                ok
      ensures Matches(release, version) && cluster.reliable && ok ==> deleted && written && (current ==> allPatched)
    {
      hide After, Throughout, Canaries, CoversAll, Reflects, Named, NoClash, HandedOver, AcceptedReplacement,
           WasGenerated, Cleared;
      if release == null || release.version != version {
        written, allPatched, patched, deleted := false, false, {}, false;
        cluster.Record(RecoveryFails);
        ok := cluster.Deprecate(cr);
        return;
      }
      ok, written, allPatched, patched, deleted :=
        Adopt(spec, canary, current, release, releaseOwner, server, cachedApps, path, newValue);
    }

    /** What a cleanup of a phase not yet written leaves behind, whatever happened. */
    twostate predicate CleanedAlways(current: bool, ok: bool, recovered: bool, written: bool)
      reads this, cluster
      requires old(Valid())
    {
      var cr := old(cluster.crs[cluster.view]);
      && Valid() && cluster.SameNginx() && old(cluster.log) <= cluster.log && cluster.State().pc == Idle
      && (current && recovered && old(cluster.Careful()) ==> cluster.Careful())
      && (old(cluster.Steady()) ==> cluster.Steady())
      && Last(cluster.crs).phase == (if written then cr.transition else old(Last(cluster.crs).phase))
      && (written ==> ok && exiting && runningConfig == None)
    }

    /** Deprecated: the process is to exit; if the recovery came through, the originals are reverted, otherwise some of
        them; if moreover all that was to be deleted was, forks and canary services are gone. */
    twostate predicate DeprecationCleaned(canary: OwnerReference, current: bool, recovered: bool, deleted: bool)
      reads this, cluster
    {
      && exiting && runningConfig == None
      && (current ==>
            && PartlyReverted(old(cluster.services), cluster.services, cluster.names, canary)
            && (recovered ==> Reverted(old(cluster.services), cluster.services, cluster.names, canary))
            && (recovered && deleted ==> Cleared(cluster.services, cluster.names)))
    }

    /** Adopted, without an error and with a matching release: the server accepted the replaced configuration and the
        originals are handed over, those in `patched` with the release as their only owner, and these are all of them if
        every patch was accepted; if all that was to be deleted was, forks and canary services are gone; and the process
        is to exit.  With an error, or another release, it is not, and without the release no service has changed. */
    twostate predicate AdoptionCleaned(canary: OwnerReference, current: bool, release: ReleaseObject?,
                                       releaseOwner: OwnerReference, version: int, server: ReleaseServer,
                                       cachedApps: Applications, path: string, newValue: Json, ok: bool,
                                       written: bool, allPatched: bool, patched: set<string>, deleted: bool)
      reads this, cluster, server
    {
      && (written ==> Matches(release, version))
      && (!ok || release == null || release.version != version ==>
            exiting == old(exiting) && runningConfig == old(runningConfig))
      && (release == null || release.version != version ==> cluster.services == old(cluster.services))
      && (ok && Matches(release, version) ==>
            && exiting && runningConfig == None
            && AcceptedReplacement(server, release.owners, release.name, cachedApps, old(release.config), canaryRelease,
                                   path, newValue)
            && (current ==>
                  HandedOver(old(cluster.services), cluster.services, cluster.names, patched, canary, releaseOwner))
            && (current && allPatched ==> forall n | n in cluster.names && n in old(cluster.services) :: n in patched)
            && (current && deleted ==> Cleared(cluster.services, cluster.names)))
    }

    /** What a cleanup that started in the old state leaves behind, whether or not its phase got written; a written
        phase means that all was done. */
    twostate predicate Cleaned(canary: OwnerReference, current: bool, release: ReleaseObject?,
                               releaseOwner: OwnerReference, version: int, server: ReleaseServer,
                               cachedApps: Applications, path: string, newValue: Json, ok: bool,
                               recovered: bool, written: bool, allPatched: bool, patched: set<string>, deleted: bool)
      reads this, cluster, server
      requires old(Valid())
    {
      var cr := old(cluster.crs[cluster.view]);
      && CleanedAlways(current, ok, recovered, written)
      && (cr.phase != NoTransition ==> ok && recovered && !written && unchanged(this, cluster, server))
      && (cr.transition == Deprecated && cr.phase == NoTransition ==>
            DeprecationCleaned(canary, current, recovered, deleted))
      && (cr.transition == Adopted && cr.phase == NoTransition ==>
            AdoptionCleaned(canary, current, release, releaseOwner, version, server, cachedApps, path, newValue, ok,
                            written, allPatched, patched, deleted))
    }

    /** The cleanup of a CanaryRelease whose deprecation is requested. */
    method DeprecatingCleanup(spec: seq<string>, canary: OwnerReference, current: bool)
      returns (recovered: bool, written: bool, ghost deleted: bool)
      requires Valid() && cluster.State().pc == Idle
      requires cluster.crs[cluster.view].transition == Deprecated && cluster.crs[cluster.view].phase == NoTransition
      requires forall n :: n in spec <==> n in cluster.names
      modifies this`runningConfig, this`exiting, cluster
      ensures CleanedAlways(current, true, recovered, written)
      ensures DeprecationCleaned(canary, current, recovered, deleted)
      ensures cluster.reliable && current && NoRepeats(spec) ==> recovered && deleted && written
    {
      hide WasGenerated, After, Throughout, Canaries, CoversAll, Reflects, Named, NoClash, Reverted, PartlyReverted,
           Cleared, NoRepeats;
      cluster.Record(CleanupBegins);
      recovered, written, deleted := CleanupDeprecated(spec, canary, current);
    }

    /** The cleanup of a CanaryRelease whose adoption is requested. */
    method AdoptingCleanup(spec: seq<string>, canary: OwnerReference, current: bool, release: ReleaseObject?,
                           releaseOwner: OwnerReference, version: int, server: ReleaseServer,
                           cachedApps: Applications, path: string, newValue: Json)
      returns (ok: bool, written: bool, allPatched: bool, ghost patched: set<string>, ghost deleted: bool)
      requires Valid() && cluster.State().pc == Idle
      requires cluster.crs[cluster.view].transition == Adopted && cluster.crs[cluster.view].phase == NoTransition
      requires forall n :: n in spec <==> n in cluster.names
      modifies this`runningConfig, this`exiting, cluster, server, Written(release)`config
      ensures CleanedAlways(current, ok, true, written)
      ensures AdoptionCleaned(canary, current, release, releaseOwner, version, server, cachedApps, path, newValue, ok,
                              written, allPatched, patched, deleted)
      ensures Matches(release, version) && cluster.reliable && server.reliable && current && NoRepeats(spec)
              && old(Adoptable(server, release, cachedApps, canaryRelease, path, newValue)) ==>
                ok && deleted && written && allPatched
    {
      hide WasGenerated, After, Throughout, Canaries, CoversAll, Reflects, Named, NoClash, HandedOver,
           AcceptedReplacement, Cleared, Adoptable, NoRepeats;
      var cr := cluster.crs[cluster.view];
      cluster.Record(CleanupBegins);
      ok, written, allPatched, patched, deleted :=
        CleanupAdopted(cr, spec, canary, current, release, releaseOwner, version, server, cachedApps, path, newValue);
    }

    /** One cleanup of the CanaryRelease the lister shows.  Nothing happens once its phase is written. */
    method Cleanup(spec: seq<string>, canary: OwnerReference, current: bool, release: ReleaseObject?,
                   releaseOwner: OwnerReference, version: int, server: ReleaseServer,
                   cachedApps: Applications, path: string, newValue: Json)
      returns (ok: bool, recovered: bool, written: bool, allPatched: bool, ghost patched: set<string>,
               ghost deleted: bool)
      requires Valid() && cluster.State().pc == Idle && cluster.crs[cluster.view].transition != NoTransition
      requires forall n :: n in spec <==> n in cluster.names
      modifies this`runningConfig, this`exiting, cluster, server, Written(release)`config
      ensures Cleaned(canary, current, release, releaseOwner, version, server, cachedApps, path, newValue, ok,
                      recovered, written, allPatched, patched, deleted)
      ensures cluster.reliable && current && NoRepeats(spec) && old(cluster.crs[cluster.view]).phase == NoTransition
              && old(cluster.crs[cluster.view]).transition == Deprecated ==>
                ok && recovered && deleted && written
      ensures cluster.reliable && current && NoRepeats(spec) && old(cluster.crs[cluster.view]).phase == NoTransition
              && old(cluster.crs[cluster.view]).transition == Adopted && Matches(release, version) && server.reliable
              && old(Adoptable(server, release, cachedApps, canaryRelease, path, newValue)) ==>
                ok && deleted && written && allPatched
    {
      hide WasGenerated, After, Throughout, Canaries, CoversAll, Reflects, Named, NoClash, HandedOver, Reverted,
           PartlyReverted, AcceptedReplacement, Cleared, Adoptable, NoRepeats;
      ok, recovered, written, allPatched, patched, deleted := true, true, false, false, {}, false;
      var cr := cluster.crs[cluster.view];
      if cr.phase != NoTransition {
        return;
      }
      if cr.transition == Adopted {
        ok, written, allPatched, patched, deleted :=
          AdoptingCleanup(spec, canary, current, release, releaseOwner, version, server, cachedApps, path, newValue);
      } else {
        recovered, written, deleted := DeprecatingCleanup(spec, canary, current);
      }
    }

    // -------------------------------------------------------------- one round of the worker

    /** What the worker does with the CanaryRelease its lister shows: clean up if a transition is requested; request
        deprecation if the release is gone or at another version; otherwise take over. */
    method SyncCanaryRelease(originObjs: ObjectList, canaryObjs: ObjectList, spec: seq<CanaryService>, cached: Cache,
                             canary: OwnerReference, recorded: Services, manifest: Manifest, current: bool,
                             release: ReleaseObject?, releaseOwner: OwnerReference, version: int, server: ReleaseServer,
                             cachedApps: Applications, path: string, newValue: Json, ghost origins: Items,
                             ghost canaries: Items, ghost lister: Services, ghost ports: seq<seq<CanaryPort>>)
      returns (ok: bool, recovered: bool, written: bool, allPatched: bool, ghost patched: set<string>,
               ghost deleted: bool, ghost done: bool, ghost planned: bool, ghost views: seq<Column>,
               ghost plan: seq<Target>)
      requires Valid() && cluster.State().pc == Idle
      requires Held(originObjs, origins) && Held(canaryObjs, canaries) && Mirrors(cached, lister)
      requires Unshared(originObjs, canaryObjs, spec, cached)
      requires RendersOnce(canaries, ServiceNames(spec))
      requires (forall n :: n in ServiceNames(spec) <==> n in cluster.names) && Asks(spec, ports)
      requires NotOurs(origins, cluster.proxySelector) && NotOurs(canaries, cluster.proxySelector)
      modifies this`runningConfig, this`exiting, cluster, server, Written(release)`config
      modifies set o: ServiceObject | o in originObjs, set o: ServiceObject | o in originObjs :: o.ports
      modifies set o: ServiceObject | o in canaryObjs, set o: ServiceObject | o in canaryObjs :: o.ports
      modifies cached.Values, set o | o in cached.Values :: o.ports, set s | s in spec :: s.ports
      ensures Valid() && old(cluster.log) <= cluster.log && cluster.State().pc == Idle
      ensures (current && recovered && old(cluster.Careful()) ==> cluster.Careful())
              && (old(cluster.Steady()) ==> cluster.Steady())
      ensures old(cluster.crs[cluster.view]).transition == NoTransition ==>
                recovered && !written && Last(cluster.crs).phase == old(Last(cluster.crs).phase)
                && exiting == old(exiting)
      ensures old(cluster.crs[cluster.view]).transition == NoTransition
              && (release == null || release.version != version) ==>
                && cluster.services == old(cluster.services) && cluster.SameNginx()
                && (ok ==> Last(cluster.crs).transition == Deprecated)
      ensures old(cluster.crs[cluster.view]).transition == NoTransition && Matches(release, version) ==>
                && Synced(old(cluster.crs[cluster.view]).manifest == manifest, manifest, ServiceNames(spec), ports,
                          origins, canaries, lister, recorded, canary, releaseOwner, ok, done, planned, views, plan)
                && CacheRewritten(cached, cluster.names, lister, plan, cluster.proxySelector, canary)
      ensures old(cluster.crs[cluster.view]).transition != NoTransition ==>
                Cleaned(canary, current, release, releaseOwner, version, server, cachedApps, path, newValue, ok,
                        recovered, written, allPatched, patched, deleted)
      // with no call failing
      ensures cluster.reliable && old(cluster.crs[cluster.view]).transition == NoTransition
              && (Matches(release, version) ==>
                    Renders(origins, canaries, ServiceNames(spec), cached.Keys)
                    && (old(cluster.crs[cluster.view]).manifest == manifest
                        || CanGoThrough(old(cluster.services), lister, recorded, cluster.names, canary,
                                        releaseOwner))) ==>
                ok
      ensures cluster.reliable && current && NoRepeats(ServiceNames(spec))
              && old(cluster.crs[cluster.view]).phase == NoTransition
              && old(cluster.crs[cluster.view]).transition == Deprecated ==>
                ok && recovered && deleted && written
      ensures cluster.reliable && current && NoRepeats(ServiceNames(spec))
              && old(cluster.crs[cluster.view]).phase == NoTransition
              && old(cluster.crs[cluster.view]).transition == Adopted && Matches(release, version) && server.reliable
              && old(Adoptable(server, release, cachedApps, canaryRelease, path, newValue)) ==>
                ok && deleted && written && allPatched
    {
      hide After, Throughout, Canaries, CoversAll, Reflects, Named, NoClash, HandedOver, Reverted, PartlyReverted,
           AcceptedReplacement, WasGenerated, Cleared, Adoptable, CanGoThrough, Renders, CanariesWritable, CanariesSent,
           OnlyForksMade, PartlySynced, AllForked, AllTakenOver, PlanCovers, PlannedFor, ViewsFor, Asks, Unshared, Held,
           Mirrors, RendersOnce, Generate, ConfigsAgree, NotOurs, CacheRewritten, NoRepeats, AskedFor;
      recovered, written, allPatched, patched, deleted := true, false, false, {}, false;
      done, planned, views, plan := false, false, [], [];
      var cr := cluster.crs[cluster.view];
      if cr.transition != NoTransition {
        ok, recovered, written, allPatched, patched, deleted :=
          Cleanup(ServiceNames(spec), canary, current, release, releaseOwner, version, server, cachedApps, path,
                  newValue);
        return;
      }
      if release == null || release.version != version {
        ok := cluster.Deprecate(cr);
        return;
      }
      ok, done, planned, views, plan := Sync(originObjs, canaryObjs, spec, cached, canary, releaseOwner, recorded,
                                             manifest,
                                             origins, canaries, lister, ports);
    }
  }

  ghost predicate PlannedFor(views: seq<Column>, plan: seq<Target>, origins: Items)
    requires |views| == |plan|
  {
    forall k | 0 <= k < |plan| :: PlannedAt(plan[k].manifest.name, views, plan[k], k, origins)
  }
}
