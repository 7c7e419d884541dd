/** Where the traffic of a taken over service port goes: the composition of the allocation, the rewriting of the
    generated ports and their copying into the cluster by first match. */
module Routing {
  import opened Text
  import opened Sequences
  import opened Kube
  import opened Upstream
  import opened ChangeCheck
  import opened Takeover

  /** A configured port is for the service port of its number, over UDP if it says so and over TCP otherwise. */
  predicate IsFor(q: CanaryPort, p: ServicePort) {
    p.protocol == (if q.protocol == Udp then "UDP" else "TCP") && q.port == p.port
  }

  /** Some configured port is for `p`. */
  predicate Listed(ports: seq<CanaryPort>, p: ServicePort) {
    exists j :: 0 <= j < |ports| && IsFor(ports[j], p)
  }

  /** The canary gets the share that a configured port for `p` wants. */
  predicate GivesShare(e: L4Service, ports: seq<CanaryPort>, p: ServicePort)
    requires |e.endpoints| == 2
  {
    exists j :: 0 <= j < |ports| && IsFor(ports[j], p) && Wants(ports[j].weight, e.endpoints[1].weight)
  }

  /** Entry `e` splits all traffic of port `p` between the column's forked and canary service, at that port: the canary
      gets what is asked for, and the fork the rest. */
  predicate Serves(e: L4Service, col: Column, p: ServicePort) {
    && e.backend.protocol == (if p.protocol == "UDP" then UDP else TCP)
    && e.backend.port == p.port && e.backend.name == col.name
    && |e.endpoints| == 2
    && e.endpoints[0].address == col.forked && e.endpoints[0].port == p.port
    && e.endpoints[1].address == col.canary && e.endpoints[1].port == p.port
    && e.endpoints[0].weight == 100 - e.endpoints[1].weight
    && GivesShare(e, col.ports, p)
  }

  predicate InConfig(e: L4Service, config: TemplateConfig) {
    if e.backend.protocol == TCP then e in config.tcp else e in config.udp
  }

  // ---------------------------------------------------------------- the table

  /** A protocol and port are in the table exactly if they are listed, and then lead to an entry that serves them. */
  lemma TableServes(namespace: string, cols: seq<Column>, i: nat, p: ServicePort) returns (e: L4Service)
    requires i < |cols| && Free(p.protocol, '-')
    ensures ProtoPortKey(p.protocol, p.port) in Table(cols[i].ports, Base(cols, i)) <==> Listed(cols[i].ports, p)
    ensures Listed(cols[i].ports, p) ==>
              && e in Entries(namespace, cols) && Serves(e, cols[i], p)
              && e.port == Table(cols[i].ports, Base(cols, i))[ProtoPortKey(p.protocol, p.port)]
  {
    hide ProtoPortKey, TableOf, KeysUpTo, Entries, PortCount, Base;
    var ports, key := cols[i].ports, ProtoPortKey(p.protocol, p.port);
    if Listed(ports, p) {
      ListedKey(ports, p);
    }
    e := L4Service(0, Backend(0, "", "", TCP), []);
    if key in Table(ports, Base(cols, i)) {
      var j := TableOfOrigin(Keys(ports), Base(cols, i), key);
      KeyUpToAt(ports, |ports|, j);
      KeyInjective(BackendProtocol(ports[j]).Text(), ports[j].port, p.protocol, p.port);
      EntryAt(namespace, cols, i, j);
      e := Entry(namespace, cols[i], ports[j], Base(cols, i) + j);
    }
  }

  lemma ListedKey(ports: seq<CanaryPort>, p: ServicePort)
    requires Listed(ports, p)
    ensures forall first :: ProtoPortKey(p.protocol, p.port) in Table(ports, first)
  {
    var j :| 0 <= j < |ports| && IsFor(ports[j], p);
    forall first ensures ProtoPortKey(p.protocol, p.port) in Table(ports, first) {
      TableLookup(ports, first, j);
    }
  }

  // ---------------------------------------------------------------- the rewritten target

  /** The target that a takeover gives a port of a service in the cluster: the listen port of the manifest port it
      matches first, by name or by number, 0 if that has none, and the target it has if it matches none. */
  function TargetFor(p: ServicePort, manifest: Service, table: map<string, int>): IntOrString {
    var k := FirstMatch(p, manifest.ports);
    if k < |manifest.ports|
    then FromInt(ListenPort(table, ProtoPortKey(manifest.ports[k].protocol, manifest.ports[k].port)))
    else p.targetPort
  }

  /** Whether the update was sent or skipped.  A service is only passed over if each of its ports matches the manifest
      port at its own place first, as its ports are unique. */
  lemma TargetAfterTakeover(inCluster: Service, manifest: Service, selector: map<string, string>,
                            table: map<string, int>, canary: OwnerReference, x: nat)
    requires UniquePorts(inCluster.ports) && x < |inCluster.ports|
    ensures var t := AfterTakeover(inCluster, Generated(manifest, selector, table), canary);
            && t.selector == selector && |t.ports| == |inCluster.ports|
            && t.ports[x] == inCluster.ports[x].(targetPort := TargetFor(inCluster.ports[x], manifest, table))
  {
    hide ProtoPortKey, ListenPort, FirstMatch;
    var generated := Generated(manifest, selector, table);
    var p := inCluster.ports[x];
    FirstMatchByShape(p, p, generated.ports, manifest.ports);
    if AlreadyPoints(inCluster, generated) {
      assert generated.ports[x] == Retargeted(manifest.ports[x], table);
      forall j | 0 <= j < x ensures !SamePort(p, manifest.ports[j]) {
        assert inCluster.ports[j] == Retargeted(manifest.ports[j], table)
               && !SamePort(inCluster.ports[j], inCluster.ports[x]);
      }
      FirstMatchUnique(p, manifest.ports, x);
    }
  }

  // ---------------------------------------------------------------- what a configuration serves

  function ForkedNames(cols: seq<Column>): (r: seq<string>)
    ensures |r| == |cols| && forall i | 0 <= i < |r| :: r[i] == cols[i].forked
  {
    seq(|cols|, i requires 0 <= i < |cols| => cols[i].forked)
  }

  /** Listen port `l` is in the column's own block, at the place of a port with the protocol and number of `p`. */
  predicate AtOwnPlace(cols: seq<Column>, i: nat, p: ServicePort, l: int)
    requires i < |cols|
  {
    var j := l - Base(cols, i);
    0 <= j < |cols[i].ports| && IsFor(cols[i].ports[j], p)
  }

  lemma InGenerated(namespace: string, cols: seq<Column>)
    ensures forall e :: InConfig(e, Generate(namespace, cols)) <==> e in Entries(namespace, cols)
  {
    WithProtocolHolds(Entries(namespace, cols), TCP);
    WithProtocolHolds(Entries(namespace, cols), UDP);
  }

  /** What listens on port `l` serves `p` for the column exactly if `l` is a place of its own that was asked for; and
      then the canary gets the share that the port at that place wants. */
  lemma OwnEntryExactly(namespace: string, cols: seq<Column>, i: nat, p: ServicePort, l: int)
    requires i < |cols| && NoRepeats(ForkedNames(cols))
    ensures (exists e :: InConfig(e, Generate(namespace, cols)) && e.port == l && Serves(e, cols[i], p)) <==>
              AtOwnPlace(cols, i, p, l)
    ensures forall e | InConfig(e, Generate(namespace, cols)) && e.port == l && Serves(e, cols[i], p) ::
              e.backend.namespace == namespace && AtOwnPlace(cols, i, p, l)
              && Wants(cols[i].ports[l - Base(cols, i)].weight, e.endpoints[1].weight)
  {
    hide Entries, PortCount;
    InGenerated(namespace, cols);
    if AtOwnPlace(cols, i, p, l) {
      EntryAt(namespace, cols, i, l - Base(cols, i));
      var e := Entry(namespace, cols[i], cols[i].ports[l - Base(cols, i)], l);
      assert InConfig(e, Generate(namespace, cols)) && Serves(e, cols[i], p);
    }
    forall e | InConfig(e, Generate(namespace, cols)) && e.port == l && Serves(e, cols[i], p)
      ensures AtOwnPlace(cols, i, p, l) && e.backend.namespace == namespace
      ensures Wants(cols[i].ports[l - Base(cols, i)].weight, e.endpoints[1].weight)
    {
      var k :| 0 <= k < |Entries(namespace, cols)| && Entries(namespace, cols)[k] == e;
      var x, y := EntryOrigin(namespace, cols, k);
      assert ForkedNames(cols)[x] == ForkedNames(cols)[i];
    }
  }

  /** A port is served for the column exactly if it is listed. */
  lemma ServedExactly(namespace: string, cols: seq<Column>, i: nat, p: ServicePort)
    requires i < |cols| && NoRepeats(ForkedNames(cols))
    ensures (exists e :: InConfig(e, Generate(namespace, cols)) && Serves(e, cols[i], p)) <==> Listed(cols[i].ports, p)
  {
    hide Entries, PortCount, Serves, Generate;
    forall l
      ensures (exists e :: InConfig(e, Generate(namespace, cols)) && e.port == l && Serves(e, cols[i], p)) <==>
                AtOwnPlace(cols, i, p, l)
    {
      OwnEntryExactly(namespace, cols, i, p, l);
    }
    if Listed(cols[i].ports, p) {
      var j :| 0 <= j < |cols[i].ports| && IsFor(cols[i].ports[j], p);
      assert AtOwnPlace(cols, i, p, Base(cols, i) + j);
    }
    forall e | InConfig(e, Generate(namespace, cols)) && Serves(e, cols[i], p) ensures Listed(cols[i].ports, p) {
      assert AtOwnPlace(cols, i, p, e.port);
    }
  }

  lemma ShareInPermutation(e: L4Service, a: seq<CanaryPort>, b: seq<CanaryPort>, p: ServicePort)
    requires |e.endpoints| == 2 && multiset(a) == multiset(b) && GivesShare(e, a, p)
    ensures GivesShare(e, b, p)
  {
    var j :| 0 <= j < |a| && IsFor(a[j], p) && Wants(a[j].weight, e.endpoints[1].weight);
    assert a[j] in multiset(b);
    assert a[j] in b;
  }

  /** The order in which the ports are listed does not matter. */
  lemma ServesInPermutation(e: L4Service, col: Column, ports: seq<CanaryPort>, p: ServicePort)
    requires multiset(col.ports) == multiset(ports)
    ensures Serves(e, col, p) <==> Serves(e, col.(ports := ports), p)
  {
    hide GivesShare;
    if |e.endpoints| == 2 {
      if GivesShare(e, col.ports, p) {
        ShareInPermutation(e, col.ports, ports, p);
      }
      if GivesShare(e, ports, p) {
        ShareInPermutation(e, ports, col.ports, p);
      }
    }
  }

  lemma ListedInPermutation(a: seq<CanaryPort>, b: seq<CanaryPort>, p: ServicePort)
    requires multiset(a) == multiset(b) && Listed(a, p)
    ensures Listed(b, p)
  {
    var j :| 0 <= j < |a| && IsFor(a[j], p);
    assert a[j] in multiset(b);
    assert a[j] in b;
  }

  /** No two ports have the same protocol and number. */
  predicate DistinctKinds(ports: seq<CanaryPort>) {
    forall i, j | 0 <= i < j < |ports| ::
      BackendProtocol(ports[i]) != BackendProtocol(ports[j]) || ports[i].port != ports[j].port
  }

  /** Among ports of different kinds, the place of `p` in its column's block is where the table leads. */
  lemma OwnPlaceIsInTable(cols: seq<Column>, i: nat, p: ServicePort, l: int)
    requires i < |cols| && DistinctKinds(cols[i].ports) && Free(p.protocol, '-')
    ensures var table, key := Table(cols[i].ports, Base(cols, i)), ProtoPortKey(p.protocol, p.port);
            AtOwnPlace(cols, i, p, l) <==> key in table && table[key] == l
  {
    hide ProtoPortKey, TableOf, KeysUpTo, PortCount, Base;
    var ports, key := cols[i].ports, ProtoPortKey(p.protocol, p.port);
    if key in Table(ports, Base(cols, i)) {
      var j := TableOfOrigin(Keys(ports), Base(cols, i), key);
      KeyUpToAt(ports, |ports|, j);
      KeyInjective(BackendProtocol(ports[j]).Text(), ports[j].port, p.protocol, p.port);
      assert AtOwnPlace(cols, i, p, Base(cols, i) + j);
    }
    if AtOwnPlace(cols, i, p, l) {
      ListedKey(ports, p);
    }
  }

  /** While nginx is on the configuration of `now` and an original still has the target that `before` gave the manifest
      port `m`: its port leads to an entry of its own exactly if `m` was listed, `p` is, and both allocations gave them
      one listen port. */
  lemma ShiftedExactly(namespace: string, before: seq<Column>, k: nat, now: seq<Column>, i: nat, m: ServicePort,
                       p: ServicePort)
    requires k < |before| && i < |now| && NoRepeats(ForkedNames(now)) && DistinctKinds(now[i].ports)
    requires Free(p.protocol, '-')
    ensures var wasKey, willKey := ProtoPortKey(m.protocol, m.port), ProtoPortKey(p.protocol, p.port);
            var was, will := Table(before[k].ports, Base(before, k)), Table(now[i].ports, Base(now, i));
            (exists e ::
               InConfig(e, Generate(namespace, now)) && e.port == ListenPort(was, wasKey) && Serves(e, now[i], p)) <==>
              wasKey in was && willKey in will && was[wasKey] == will[willKey]
  {
    hide ProtoPortKey, TableOf, KeysUpTo, Generate, Serves, InConfig;
    var l := ListenPort(Table(before[k].ports, Base(before, k)), ProtoPortKey(m.protocol, m.port));
    OwnEntryExactly(namespace, now, i, p, l);
    OwnPlaceIsInTable(now, i, p, l);
    if AtOwnPlace(now, i, p, l) {
      BaseIsPositive(now, i);
    }
  }

  lemma ListedInTable(cols: seq<Column>, i: nat, p: ServicePort)
    requires i < |cols| && Free(p.protocol, '-')
    ensures ProtoPortKey(p.protocol, p.port) in Table(cols[i].ports, Base(cols, i)) <==> Listed(cols[i].ports, p)
  {
    hide ProtoPortKey, Table, Base, Listed;
    var e := TableServes("", cols, i, p);
  }

  lemma BaseIsPositive(cols: seq<Column>, i: nat)
    requires i < |cols|
    ensures Base(cols, i) > 0
  {
  }

  /** If the service asks for the same ports as before, that is exactly if it does ask for this one and the services
      before it ask for as many ports as before. */
  lemma ShiftedByOthersExactly(namespace: string, before: seq<Column>, k: nat, now: seq<Column>, i: nat, p: ServicePort)
    requires k < |before| && i < |now| && NoRepeats(ForkedNames(now)) && DistinctKinds(now[i].ports)
    requires Free(p.protocol, '-')
    requires before[k].ports == now[i].ports
    ensures (exists e :: InConfig(e, Generate(namespace, now)) && Serves(e, now[i], p)
                      && e.port
                           == ListenPort(Table(before[k].ports, Base(before, k)), ProtoPortKey(p.protocol, p.port)))
              <==> Listed(now[i].ports, p) && PortCount(before[..k]) == PortCount(now[..i])
  {
    hide ProtoPortKey, TableOf, KeysUpTo, Generate, Serves, InConfig, PortCount;
    ShiftedExactly(namespace, before, k, now, i, p, p);
    ListedInTable(before, k, p);
    ListedInTable(now, i, p);
    if Listed(now[i].ports, p) {
      var key := ProtoPortKey(p.protocol, p.port);
      OwnPlaceIsInTable(before, k, p, Table(before[k].ports, Base(before, k))[key]);
      OwnPlaceIsInTable(now, i, p, Table(now[i].ports, Base(now, i))[key]);
    }
  }

  // ---------------------------------------------------------------- where a taken over port leads

  /** The exact condition: the manifest port that `p` matches first has its protocol and number and is listed; or it
      matches none, and its target happens to be a place of its own where it is listed. */
  predicate LeadsToOwn(cols: seq<Column>, i: nat, manifest: Service, p: ServicePort)
    requires i < |cols|
  {
    var k := FirstMatch(p, manifest.ports);
    if k < |manifest.ports|
    then && Listed(cols[i].ports, manifest.ports[k])
         && manifest.ports[k].protocol == p.protocol && manifest.ports[k].port == p.port
    else p.targetPort.FromInt? && AtOwnPlace(cols, i, p, p.targetPort.number)
  }

  /** The manifest port that `p` matches first has a protocol without a dash, as those that the API server accepts and
      as one that the manifest omits. */
  predicate MatchesDashFree(p: ServicePort, manifest: Service) {
    var k := FirstMatch(p, manifest.ports);
    k < |manifest.ports| ==> Free(manifest.ports[k].protocol, '-')
  }

  lemma TableLeadsToOwn(cols: seq<Column>, i: nat, m: ServicePort, p: ServicePort)
    requires i < |cols| && Free(m.protocol, '-')
    ensures var l := ListenPort(Table(cols[i].ports, Base(cols, i)), ProtoPortKey(m.protocol, m.port));
            && (AtOwnPlace(cols, i, p, l) <==> Listed(cols[i].ports, m) && m.protocol == p.protocol && m.port == p.port)
            && (!Listed(cols[i].ports, m) ==> l == 0)
  {
    hide ProtoPortKey, TableOf, KeysUpTo, PortCount, Base;
    var ports, key := cols[i].ports, ProtoPortKey(m.protocol, m.port);
    ListedInTable(cols, i, m);
    BaseIsPositive(cols, i);
    if key in Table(ports, Base(cols, i)) {
      var j := TableOfOrigin(Keys(ports), Base(cols, i), key);
      KeyUpToAt(ports, |ports|, j);
      KeyInjective(BackendProtocol(ports[j]).Text(), ports[j].port, m.protocol, m.port);
    }
  }

  /** After a takeover, sent or skipped, any port leads to an entry of its own exactly under that condition; no two
      entries listen on one port; and a port whose first match is not listed gets target 0. */
  lemma PortsAreRouted(namespace: string, cols: seq<Column>, i: nat, inCluster: Service, manifest: Service,
                       selector: map<string, string>, canary: OwnerReference, x: nat)
    requires i < |cols| && NoRepeats(ForkedNames(cols)) && UniquePorts(inCluster.ports) && x < |inCluster.ports|
    requires MatchesDashFree(inCluster.ports[x], manifest)
    ensures var p, config := inCluster.ports[x], Generate(namespace, cols);
            var t := AfterTakeover(inCluster, Generated(manifest, selector, Table(cols[i].ports, Base(cols, i))),
                                   canary);
            var k := FirstMatch(p, manifest.ports);
            && ((exists e ::
                   InConfig(e, config) && Serves(e, cols[i], p) && t.ports[x].targetPort == FromInt(e.port)) <==>
                  LeadsToOwn(cols, i, manifest, p))
            && (k < |manifest.ports| && !Listed(cols[i].ports, manifest.ports[k]) ==>
                  t.ports[x].targetPort == FromInt(0))
            && (k == |manifest.ports| ==> t.ports[x] == p)
            && (forall e, e' | InConfig(e, config) && InConfig(e', config) && e.port == e'.port :: e == e')
  {
    hide Table, ProtoPortKey, Generate, InConfig, Serves, Listed, FirstMatch, UniquePorts, ListenPort, AfterTakeover;
    var p, table := inCluster.ports[x], Table(cols[i].ports, Base(cols, i));
    var target := TargetFor(p, manifest, table);
    TargetAfterTakeover(inCluster, manifest, selector, table, canary, x);
    if target.FromInt? {
      OwnEntryExactly(namespace, cols, i, p, target.number);
    }
    var k := FirstMatch(p, manifest.ports);
    if k < |manifest.ports| {
      TableLeadsToOwn(cols, i, manifest.ports[k], p);
    }
    OneEntryEach(namespace, cols);
  }

  lemma OneEntryEach(namespace: string, cols: seq<Column>)
    ensures forall e, d | InConfig(e, Generate(namespace, cols)) && InConfig(d, Generate(namespace, cols))
                          && e.port == d.port ::
              e == d
  {
    hide Generate, Entries;
    InGenerated(namespace, cols);
    ListenPortsAreConsecutive(namespace, cols);
    forall e, d | InConfig(e, Generate(namespace, cols)) && InConfig(d, Generate(namespace, cols)) && e.port == d.port
      ensures e == d
    {
      SamePortSameEntry(Entries(namespace, cols), e.port);
    }
  }

  /** A manifest port that omits its protocol, which the cluster has as TCP and which is matched by name: the port gets
      target 0 although it may well be listed. */
  lemma OmittedProtocolIsNotRouted(cols: seq<Column>, i: nat, manifest: Service, p: ServicePort)
    requires i < |cols| && FirstMatch(p, manifest.ports) < |manifest.ports|
    requires manifest.ports[FirstMatch(p, manifest.ports)].protocol == "" != p.protocol
    ensures TargetFor(p, manifest, Table(cols[i].ports, Base(cols, i))) == FromInt(0)
            && !LeadsToOwn(cols, i, manifest, p)
  {
    hide Table, ProtoPortKey, ListenPort, FirstMatch;
    var m := manifest.ports[FirstMatch(p, manifest.ports)];
    TableLeadsToOwn(cols, i, m, p);
  }

  /** Port `x` of the service in the cluster has its own port in the manifest. */
  predicate InManifest(inCluster: Service, manifest: Service, x: nat)
    requires x < |inCluster.ports|
  {
    exists k :: 0 <= k < |manifest.ports| && SameShape(inCluster.ports[x], manifest.ports[k])
  }

  /** A port that a manifest of unique ports describes as it is matches its own port there first. */
  lemma DescribedMatchesItsOwn(inCluster: Service, manifest: Service, x: nat)
    requires UniquePorts(manifest.ports) && x < |inCluster.ports| && InManifest(inCluster, manifest, x)
    ensures var k := FirstMatch(inCluster.ports[x], manifest.ports);
            k < |manifest.ports| && SameShape(inCluster.ports[x], manifest.ports[k])
  {
    hide FirstMatch;
    var p := inCluster.ports[x];
    var k :| 0 <= k < |manifest.ports| && SameShape(p, manifest.ports[k]);
    forall j | 0 <= j < k ensures !SamePort(p, manifest.ports[j]) {
      assert !SamePort(manifest.ports[j], manifest.ports[k]);
    }
    FirstMatchUnique(p, manifest.ports, k);
  }

  /** So it leads to its own exactly if it is listed. */
  lemma DescribedLeadsToOwn(cols: seq<Column>, i: nat, inCluster: Service, manifest: Service, x: nat)
    requires i < |cols| && UniquePorts(manifest.ports) && x < |inCluster.ports| && InManifest(inCluster, manifest, x)
    ensures FirstMatch(inCluster.ports[x], manifest.ports) < |manifest.ports|
    ensures LeadsToOwn(cols, i, manifest, inCluster.ports[x]) <==> Listed(cols[i].ports, inCluster.ports[x])
  {
    hide FirstMatch;
    DescribedMatchesItsOwn(inCluster, manifest, x);
  }

  // ---------------------------------------------------------------- a retry that does nothing

  predicate EqualButTargets(a: seq<ServicePort>, b: seq<ServicePort>) {
    |a| == |b| && forall i | 0 <= i < |a| :: a[i] == b[i].(targetPort := a[i].targetPort)
  }

  /** The cached service is rewritten before its update is sent.  If the update fails, the next sync that gets the same
      object from the lister takes it for pointed already, and sends nothing, exactly if the cluster's ports and the
      manifest's differ in no more than their targets. */
  lemma FailedUpdateIsSkippedExactly(cached: Service, generated: Service, canary: OwnerReference)
    requires UniquePorts(generated.ports)
    ensures AlreadyPoints(TakenOver(cached, generated, canary), generated) <==>
              EqualButTargets(cached.ports, generated.ports)
  {
    hide FirstMatch, WithOwner;
    var patched := PatchedPorts(cached.ports, generated.ports);
    if EqualButTargets(cached.ports, generated.ports) {
      forall i | 0 <= i < |cached.ports| ensures patched[i] == generated.ports[i] {
        assert forall j | 0 <= j < i :: !SamePort(generated.ports[j], generated.ports[i]);
        FirstMatchUnique(cached.ports[i], generated.ports, i);
      }
      assert patched == generated.ports;
    }
    if patched == generated.ports {
      forall i | 0 <= i < |cached.ports|
        ensures cached.ports[i] == generated.ports[i].(targetPort := cached.ports[i].targetPort)
      {
        assert patched[i] == Patched(cached.ports[i], generated.ports);
      }
    }
  }
}
