/** The parts of Kubernetes objects that canary-release reads or writes, and the code that rewrites services in
    place: patchTargetPort, isSamePort and the owner reference functions. */
module Kube {

  datatype Option<+T> = None | Some(value: T)

  datatype IntOrString = FromInt(number: int) | FromString(text: string)

  datatype ServicePort = ServicePort(name: string, protocol: string, port: int, targetPort: IntOrString, nodePort: int)

  datatype ServiceType = ClusterIP | NodePort | LoadBalancer | ExternalName

  datatype OwnerReference = OwnerReference(apiVersion: string, kind: string, name: string, uid: string,
                                           controller: bool)

  /** A core/v1 Service.  `otherFields` stands for all the fields no code here reads or writes. */
  datatype Service = Service(
    name: string,
    resourceVersion: nat,
    owners: seq<OwnerReference>,
    serviceType: ServiceType,
    selector: map<string, string>,
    ports: seq<ServicePort>,
    otherFields: string)
  {
    /** Equal but for the version, which the server alone sets. */
    predicate SameAs(that: Service) {
      this.(resourceVersion := 0) == that.(resourceVersion := 0)
    }
  }

  const FORKED_SUFFIX := "-forked"
  const CANARY_SUFFIX := "-canary"

  // ---------------------------------------------------------------- ports

  predicate SameShape(p: ServicePort, q: ServicePort) {
    p.name == q.name && p.protocol == q.protocol && p.port == q.port
  }

  predicate SameShapes(a: seq<ServicePort>, b: seq<ServicePort>) {
    |a| == |b| && forall i | 0 <= i < |a| :: SameShape(a[i], b[i])
  }

  /** Non-empty port names, and pairs of protocol and number, are unique, as the API server demands. */
  predicate UniquePorts(ports: seq<ServicePort>) {
    forall i, j | 0 <= i < j < |ports| ::
      && (ports[i].name != "" ==> ports[i].name != ports[j].name)
      && (ports[i].protocol != ports[j].protocol || ports[i].port != ports[j].port)
  }

  /** isSamePort. */
  predicate SamePort(s: ServicePort, p: ServicePort) {
    (s.name != "" && p.name != "" && s.name == p.name) || (s.protocol == p.protocol && s.port == p.port)
  }

  /** The index of the first port of `patch` that is the same port as `p`, or |patch|. */
  function FirstMatch(p: ServicePort, patch: seq<ServicePort>): (k: nat)
    ensures k <= |patch|
    ensures k < |patch| ==> SamePort(p, patch[k])
    ensures forall j | 0 <= j < k :: !SamePort(p, patch[j])
  {
    if patch == [] then 0 else if SamePort(p, patch[0]) then 0 else 1 + FirstMatch(p, patch[1..])
  }

  lemma FirstMatchUnique(p: ServicePort, patch: seq<ServicePort>, k: nat)
    requires k <= |patch| && (k < |patch| ==> SamePort(p, patch[k]))
    requires forall j | 0 <= j < k :: !SamePort(p, patch[j])
    ensures FirstMatch(p, patch) == k
  {
  }

  function Patched(p: ServicePort, patch: seq<ServicePort>): ServicePort {
    var k := FirstMatch(p, patch);
    if k < |patch| then p.(targetPort := patch[k].targetPort) else p
  }

  function PatchedPorts(source: seq<ServicePort>, patch: seq<ServicePort>): (r: seq<ServicePort>)
    ensures |r| == |source| && forall i | 0 <= i < |r| :: r[i] == Patched(source[i], patch)
  {
    seq(|source|, i requires 0 <= i < |source| => Patched(source[i], patch))
  }

  /** The first port of `patch` that has the name of `p`, unless it is empty, or its protocol and number gives `p` its
      target; without one `p` keeps the target it has. */
  lemma PatchedExactly(p: ServicePort, patch: seq<ServicePort>, k: nat)
    requires k <= |patch|
    requires k < |patch| ==>
               p.name == patch[k].name != "" || (p.protocol == patch[k].protocol && p.port == patch[k].port)
    requires forall j | 0 <= j < k ::
               && (p.name == "" || p.name != patch[j].name)
               && (p.protocol != patch[j].protocol || p.port != patch[j].port)
    ensures Patched(p, patch) == p.(targetPort := if k < |patch| then patch[k].targetPort else p.targetPort)
  {
    FirstMatchUnique(p, patch, k);
  }

  /** Among unique ports, a port gets the target of its own one, wherever that is. */
  lemma OwnPortIsMatched(p: ServicePort, patch: seq<ServicePort>, k: nat)
    requires UniquePorts(patch) && k < |patch| && SameShape(p, patch[k])
    ensures FirstMatch(p, patch) == k && Patched(p, patch) == p.(targetPort := patch[k].targetPort)
  {
    PatchedExactly(p, patch, k);
    FirstMatchUnique(p, patch, k);
  }

  /** And that of the one with its name although the number differs, if no other one has its protocol and number. */
  lemma NamedPortIsMatched(p: ServicePort, patch: seq<ServicePort>, k: nat)
    requires UniquePorts(patch) && k < |patch| && p.name == patch[k].name != ""
    requires forall j | 0 <= j < |patch| && j != k :: p.protocol != patch[j].protocol || p.port != patch[j].port
    ensures Patched(p, patch) == p.(targetPort := patch[k].targetPort)
  {
    PatchedExactly(p, patch, k);
  }

  method PatchTargetPort(source: array<ServicePort>, patch: array<ServicePort>)
    requires source != patch
    modifies source
    ensures source[..] == PatchedPorts(old(source[..]), patch[..])
  {
    var i := 0;
    while i < source.Length
      invariant 0 <= i <= source.Length
      invariant forall k | 0 <= k < i :: source[k] == Patched(old(source[k]), patch[..])
      invariant forall k | i <= k < source.Length :: source[k] == old(source[k])
    {
      var p := source[i];
      var j := 0;
      while j < patch.Length && !SamePort(p, patch[j])
        invariant 0 <= j <= patch.Length
        invariant forall k | 0 <= k < j :: !SamePort(p, patch[k])
      {
        j := j + 1;
      }
      FirstMatchUnique(p, patch[..], j);
      if j < patch.Length {
        source[i] := p.(targetPort := patch[j].targetPort);
      }
      i := i + 1;
    }
  }

  // ---------------------------------------------------------------- owner references

  predicate HasOwner(owners: seq<OwnerReference>, uid: string) {
    exists i | 0 <= i < |owners| :: owners[i].uid == uid
  }

  function WithOwner(owners: seq<OwnerReference>, pending: OwnerReference): seq<OwnerReference> {
    if HasOwner(owners, pending.uid) then owners else owners + [pending]
  }

  function WithoutOwner(owners: seq<OwnerReference>, pending: OwnerReference): (r: seq<OwnerReference>)
    ensures |r| <= |owners| && !HasOwner(r, pending.uid)
    ensures r == owners <==> !HasOwner(owners, pending.uid)
  {
    if owners == [] then []
    else
      var rest := WithoutOwner(owners[1..], pending);
      assert owners == [owners[0]] + owners[1..];
      if owners[0].uid == pending.uid then rest else [owners[0]] + rest
  }

  /** The canary becomes an owner, once, and no other owner goes. */
  lemma OwnerIsAppended(owners: seq<OwnerReference>, pending: OwnerReference)
    ensures var r := WithOwner(owners, pending);
            && owners <= r && HasOwner(r, pending.uid)
            && (r == owners <==> exists o :: o in owners && o.uid == pending.uid)
            && (r != owners ==> |r| == |owners| + 1 && r[|owners|] == pending)
  {
    var r := WithOwner(owners, pending);
    if HasOwner(owners, pending.uid) {
      var i :| 0 <= i < |owners| && owners[i].uid == pending.uid;
      assert owners[i] in owners;
    } else {
      assert r[|owners|].uid == pending.uid;
    }
  }

  /** The owners of that UID go, all others stay in their order. */
  lemma {:induction false} OwnersAreRemoved(owners: seq<OwnerReference>, o: OwnerReference, pending: OwnerReference)
    ensures WithoutOwner([], pending) == []
    ensures WithoutOwner(owners + [o], pending)
         == WithoutOwner(owners, pending) + if o.uid == pending.uid then [] else [o]
  {
    var all := owners + [o];
    if owners == [] {
      assert all[1..] == [];
    } else {
      OwnersAreRemoved(owners[1..], o, pending);
      assert all[1..] == owners[1..] + [o];
    }
  }

  method AppendOwnerIfNotExists(owners: seq<OwnerReference>, pending: OwnerReference) returns (r: seq<OwnerReference>)
    ensures r == WithOwner(owners, pending)
  {
    var found := false;
    for i := 0 to |owners|
      invariant found <==> exists k | 0 <= k < i :: owners[k].uid == pending.uid
    {
      if owners[i].uid == pending.uid {
        found := true;
      }
    }
    r := if found then owners else owners + [pending];
  }

  method DeleteOwnerIfExists(owners: seq<OwnerReference>, pending: OwnerReference) returns (r: seq<OwnerReference>)
    ensures r == WithoutOwner(owners, pending)
  {
    r := [];
    for i := 0 to |owners|
      invariant r + WithoutOwner(owners[i..], pending) == WithoutOwner(owners, pending)
    {
      assert owners[i..][1..] == owners[i + 1..];
      if owners[i].uid != pending.uid {
        r := r + [owners[i]];
      }
    }
  }

  /** Taking over and giving back leaves the owner list as it was exactly if the canary did not own it before. */
  lemma OwnersRestoredExactly(owners: seq<OwnerReference>, canary: OwnerReference)
    ensures WithoutOwner(WithOwner(owners, canary), canary) == owners <==> !HasOwner(owners, canary.uid)
  {
    OwnersAreRemoved(owners, canary, canary);
  }
}
