/** What a takeover and a recovery do to one original service, as functions on values, and what the two together
    leave of it. */
module Takeover {
  import opened Kube
  import opened Upstream

  const LABEL_KEY_CREATED_BY := "canary.release.caicloud.io/created-by"

  /** The label value "namespace.name" that marks everything one CanaryRelease created. */
  function CreatedBy(namespace: string, canaryRelease: string): string {
    namespace + "." + canaryRelease
  }

  function ProxySelector(namespace: string, canaryRelease: string): map<string, string> {
    map[LABEL_KEY_CREATED_BY := CreatedBy(namespace, canaryRelease)]
  }

  // ---------------------------------------------------------------- takeover

  /** Reading a Go map: a missing key gives 0. */
  function ListenPort(table: map<string, int>, key: string): int {
    if key in table then table[key] else 0
  }

  function Retargeted(p: ServicePort, table: map<string, int>): ServicePort {
    p.(targetPort := FromInt(ListenPort(table, ProtoPortKey(p.protocol, p.port))))
  }

  function RetargetedPorts(ports: seq<ServicePort>, table: map<string, int>): (r: seq<ServicePort>)
    ensures |r| == |ports| && forall i | 0 <= i < |r| :: r[i] == Retargeted(ports[i], table)
  {
    seq(|ports|, i requires 0 <= i < |ports| => Retargeted(ports[i], table))
  }

  /** The generated original after its selector and target ports were rewritten. */
  function Generated(origin: Service, selector: map<string, string>, table: map<string, int>): Service {
    origin.(selector := selector, ports := RetargetedPorts(origin.ports, table))
  }

  predicate AlreadyPoints(inCluster: Service, generated: Service) {
    generated.ports == inCluster.ports && generated.selector == inCluster.selector
  }

  function TakenOver(inCluster: Service, generated: Service, canary: OwnerReference): Service {
    inCluster.(owners := WithOwner(inCluster.owners, canary),
               ports := PatchedPorts(inCluster.ports, generated.ports),
               selector := generated.selector)
  }

  /** What the takeover loop leaves in the cluster: a service that already points at the proxy is skipped. */
  function AfterTakeover(inCluster: Service, generated: Service, canary: OwnerReference): Service {
    if AlreadyPoints(inCluster, generated) then inCluster else TakenOver(inCluster, generated, canary)
  }

  // ---------------------------------------------------------------- the fork, and recovery from it

  function WithoutNodePorts(ports: seq<ServicePort>): (r: seq<ServicePort>)
    ensures |r| == |ports| && forall i | 0 <= i < |r| :: r[i] == ports[i].(nodePort := 0)
  {
    seq(|ports|, i requires 0 <= i < |ports| => ports[i].(nodePort := 0))
  }

  /** Renamed, of type ClusterIP, and without the node ports of a NodePort service. */
  function Renamed(s: Service, suffix: string): Service {
    s.(name := s.name + suffix,
       serviceType := ClusterIP,
       ports := if s.serviceType == NodePort then WithoutNodePorts(s.ports) else s.ports)
  }

  function Fork(origin: Service): Service {
    Renamed(origin, FORKED_SUFFIX)
  }

  /** The generated original after it was forked: the node ports that the fork must not claim are gone from both. */
  function Forked(origin: Service): Service {
    origin.(ports := if origin.serviceType == NodePort then WithoutNodePorts(origin.ports) else origin.ports)
  }

  function Recovered(original: Service, target: Service, deleteOwner: bool, canary: OwnerReference): Service {
    original.(owners := if deleteOwner then WithoutOwner(original.owners, canary) else original.owners,
              ports := PatchedPorts(original.ports, target.ports),
              selector := target.selector)
  }

  // ---------------------------------------------------------------- what the copies hold

  /** Port `r` is `p` with the target of the first port of `patch` that is the same port, if any. */
  predicate TargetCopied(r: ServicePort, p: ServicePort, patch: seq<ServicePort>) {
    && (forall k | 0 <= k < |patch| && SamePort(p, patch[k]) && (forall j | 0 <= j < k :: !SamePort(p, patch[j])) ::
          r == p.(targetPort := patch[k].targetPort))
    && ((forall k | 0 <= k < |patch| :: !SamePort(p, patch[k])) ==> r == p)
  }

  /** Service `r` is `o` with the selector and the port targets of `target`, and with any owners. */
  predicate CopiedFrom(r: Service, o: Service, target: Service) {
    && r == o.(owners := r.owners, ports := r.ports, selector := target.selector)
    && |r.ports| == |o.ports|
    && forall i | 0 <= i < |o.ports| :: TargetCopied(r.ports[i], o.ports[i], target.ports)
  }

  lemma PatchedMeans(r: ServicePort, p: ServicePort, patch: seq<ServicePort>)
    ensures r == Patched(p, patch) <==> TargetCopied(r, p, patch)
  {
    var k := FirstMatch(p, patch);
  }

  lemma PatchedPortsMean(r: seq<ServicePort>, ports: seq<ServicePort>, patch: seq<ServicePort>)
    ensures r == PatchedPorts(ports, patch) <==>
              |r| == |ports| && forall i | 0 <= i < |ports| :: TargetCopied(r[i], ports[i], patch)
  {
    hide Patched, TargetCopied;
    forall i | 0 <= i < |ports| && i < |r|
      ensures r[i] == Patched(ports[i], patch) <==> TargetCopied(r[i], ports[i], patch)
    {
      PatchedMeans(r[i], ports[i], patch);
    }
  }

  /** A recovery copies selector and targets whatever it does about the owners; it removes the canary or nobody. */
  lemma RecoveredExactly(r: Service, o: Service, target: Service, deleteOwner: bool, canary: OwnerReference)
    ensures r == Recovered(o, target, deleteOwner, canary) <==>
              && CopiedFrom(r, o, target)
              && r.owners == if deleteOwner then WithoutOwner(o.owners, canary) else o.owners
  {
    hide Patched, TargetCopied, WithoutOwner;
    PatchedPortsMean(r.ports, o.ports, target.ports);
  }

  /** So does a takeover, which adds the canary to the owners. */
  lemma TakenOverExactly(r: Service, s: Service, generated: Service, canary: OwnerReference)
    ensures r == TakenOver(s, generated, canary) <==>
              CopiedFrom(r, s, generated) && r.owners == WithOwner(s.owners, canary)
  {
    hide Patched, TargetCopied, WithOwner;
    PatchedPortsMean(r.ports, s.ports, generated.ports);
  }

  // ---------------------------------------------------------------- matching looks at shapes only

  lemma {:induction false} FirstMatchByShape(p: ServicePort, q: ServicePort, a: seq<ServicePort>, b: seq<ServicePort>)
    requires SameShape(p, q) && SameShapes(a, b)
    ensures FirstMatch(p, a) == FirstMatch(q, b)
  {
  }

  // ---------------------------------------------------------------- results

  predicate OnlyTargetsDiffer(r: Service, s: Service) {
    && r.SameAs(s.(owners := r.owners, selector := r.selector, ports := r.ports))
    && |r.ports| == |s.ports|
    && forall i | 0 <= i < |r.ports| :: r.ports[i] == s.ports[i].(targetPort := r.ports[i].targetPort)
  }

  /** The service in the cluster is what the release manifest describes: it has its selector, and each of its ports
      has the target of the manifest port it matches, if any. */
  predicate Agrees(s: Service, manifest: Service) {
    && s.selector == manifest.selector
    && forall i | 0 <= i < |s.ports| ::
         var k := FirstMatch(s.ports[i], manifest.ports);
         k < |manifest.ports| ==> manifest.ports[k].targetPort == s.ports[i].targetPort
  }

  /** A recovery touches nothing but owners, selector and target ports, of a service that was taken over or not. */
  lemma OnlyTargetsChange(s: Service, generated: Service, target: Service, deleteOwner: bool, canary: OwnerReference)
    ensures forall t | t == s || t == AfterTakeover(s, generated, canary) ::
              OnlyTargetsDiffer(Recovered(t, target, deleteOwner, canary), s)
  {
  }

  lemma ShapesOfForked(manifest: Service)
    ensures SameShapes(Forked(manifest).ports, manifest.ports) && SameShapes(Fork(manifest).ports, manifest.ports)
    ensures forall i | 0 <= i < |manifest.ports| :: Fork(manifest).ports[i].targetPort == manifest.ports[i].targetPort
  {
  }

  /** What a recovery from the fork leaves is the same whether the service was taken over before or not, under any
      table. */
  lemma TakeoverKeepsRecovery(s: Service, manifest: Service, selector: map<string, string>, table: map<string, int>,
                              canary: OwnerReference)
    ensures Recovered(AfterTakeover(s, Generated(Forked(manifest), selector, table), canary), Fork(manifest), true,
                      canary)
         == Recovered(s, Fork(manifest), true, canary)
  {
    hide Fork, Forked;
    var generated, fork := Generated(Forked(manifest), selector, table), Fork(manifest);
    var t := AfterTakeover(s, generated, canary);
    OwnersAreRemoved(s.owners, canary, canary);
    ShapesOfForked(manifest);
    forall i | 0 <= i < |s.ports| ensures Patched(t.ports[i], fork.ports) == Patched(s.ports[i], fork.ports) {
      FirstMatchByShape(t.ports[i], s.ports[i], fork.ports, fork.ports);
      FirstMatchByShape(s.ports[i], s.ports[i], fork.ports, generated.ports);
    }
    assert PatchedPorts(t.ports, fork.ports) == PatchedPorts(s.ports, fork.ports);
  }

  /** A recovery from the fork changes nothing exactly if the service agreed with the release manifest and was not owned
      by the canary release. */
  lemma RecoveryChangesNothing(s: Service, manifest: Service, canary: OwnerReference)
    ensures Recovered(s, Fork(manifest), true, canary) == s <==> Agrees(s, manifest) && !HasOwner(s.owners, canary.uid)
  {
    var fork := Fork(manifest);
    ShapesOfForked(manifest);
    forall i | 0 <= i < |s.ports| ensures FirstMatch(s.ports[i], fork.ports) == FirstMatch(s.ports[i], manifest.ports) {
      FirstMatchByShape(s.ports[i], s.ports[i], fork.ports, manifest.ports);
    }
    assert Agrees(s, manifest) <==> PatchedPorts(s.ports, fork.ports) == s.ports && s.selector == manifest.selector;
    var r := Recovered(s, fork, true, canary);
    assert r == s <==> r.owners == s.owners && r.ports == s.ports && r.selector == s.selector;
  }

  /** "Just like nothing had happened": takeover and deprecation leave the service as it was exactly if it agreed
      with the release manifest and was not owned by the canary release before. */
  lemma TakeoverThenDeprecation(s: Service, manifest: Service, selector: map<string, string>, table: map<string, int>,
                                canary: OwnerReference)
    ensures Recovered(AfterTakeover(s, Generated(Forked(manifest), selector, table), canary), Fork(manifest), true,
                      canary) == s
       <==> Agrees(s, manifest) && !HasOwner(s.owners, canary.uid)
  {
    TakeoverKeepsRecovery(s, manifest, selector, table, canary);
    RecoveryChangesNothing(s, manifest, canary);
  }

  /** A second recovery finds nothing left to do. */
  lemma RecoveryIsIdempotent(o: Service, target: Service, deleteOwner: bool, canary: OwnerReference)
    ensures Recovered(Recovered(o, target, deleteOwner, canary), target, deleteOwner, canary)
              == Recovered(o, target, deleteOwner, canary)
  {
  }
}
