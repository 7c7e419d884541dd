/** The last steps of a cleanup: resetting owners and deleting what the canary release created. */
module Cleaning {
  import opened Kube
  import opened Takeover
  import opened Protocol
  import opened ApiServer
  import opened Recovery

  // ---------------------------------------------------------------- on values

  /** Nothing but forks and canary services is gone. */
  ghost predicate OnlyFewer(before: Services, now: Services, names: set<string>) {
    && (forall x | x in now :: x in before && now[x] == before[x])
    && (forall x | x in before && x !in now ::
          exists n :: n in names && (x == n + FORKED_SUFFIX || x == n + CANARY_SUFFIX))
  }

  /** The patched originals are owned by the release alone; of the others some may be. */
  predicate OwnersReset(before: Services, now: Services, names: set<string>, patched: set<string>,
                        owner: OwnerReference) {
    && now.Keys == before.Keys
    && forall x | x in before ::
         || (x !in patched && now[x] == before[x])
         || (x in names && now[x].SameAs(before[x].(owners := [owner])))
  }

  /** Deprecated: every original is as one clean recovery from its fork leaves it, and nothing else changed but that
      forks and canary services are gone. */
  ghost predicate Reverted(before: Services, now: Services, names: set<string>, canary: OwnerReference) {
    && (forall x | x in names && x in before ::
          x in now && now[x].SameAs(Restored(before, x, FORKED_SUFFIX, true, canary)))
    && (forall x | x in now :: x in before && (x !in names ==> now[x] == before[x]))
    && (forall x | x in before && x !in now ::
          exists n :: n in names && (x == n + FORKED_SUFFIX || x == n + CANARY_SUFFIX))
  }

  /** The same, but that an original may be as it was: what a deprecation leaves whose recovery was given up. */
  ghost predicate PartlyReverted(before: Services, now: Services, names: set<string>, canary: OwnerReference) {
    && (forall x | x in names && x in before ::
          x in now && (now[x].SameAs(before[x]) || now[x].SameAs(Restored(before, x, FORKED_SUFFIX, true, canary))))
    && (forall x | x in now :: x in before && (x !in names ==> now[x] == before[x]))
    && (forall x | x in before && x !in now ::
          exists n :: n in names && (x == n + FORKED_SUFFIX || x == n + CANARY_SUFFIX))
  }

  /** Adopted: every original has the selector and the target ports of its canary service, and is owned by the release
      alone if its owners could be patched. */
  ghost predicate HandedOver(before: Services, now: Services, names: set<string>, patched: set<string>,
                             canary: OwnerReference, owner: OwnerReference) {
    && (forall x | x in names && x in before ::
          x in now && (var r := Restored(before, x, CANARY_SUFFIX, false, canary);
                       now[x].SameAs(r.(owners := [owner])) || (x !in patched && now[x].SameAs(r))))
    && (forall x | x in now :: x in before && (x !in names ==> now[x] == before[x]))
    && (forall x | x in before && x !in now ::
          exists n :: n in names && (x == n + FORKED_SUFFIX || x == n + CANARY_SUFFIX))
  }

  /** What `now` holds for original `x`, at the version of `before`. */
  function AtVersion(before: Services, now: Services, x: string): Service
    requires x in before && x in now
  {
    now[x].(resourceVersion := before[x].resourceVersion)
  }

  /** Adopted, original by original: the selector and, port by port, the targets are those of its canary service if
      there is one; the owner is the release, or whoever it was before; nothing else changed. */
  lemma HandedOverExactly(before: Services, now: Services, names: set<string>, patched: set<string>,
                          canary: OwnerReference, owner: OwnerReference, x: string)
    requires HandedOver(before, now, names, patched, canary, owner) && x in names && x in before
    ensures x in now
    ensures var r, c := AtVersion(before, now, x), x + "-canary";
            && (if c in before then CopiedFrom(r, before[x], before[c]) else r == before[x].(owners := r.owners))
            && (r.owners == [owner] || (x !in patched && r.owners == before[x].owners))
  {
    hide Recovered, CopiedFrom;
    var r, c := AtVersion(before, now, x), x + "-canary";
    if c in before {
      RecoveredExactly(Recovered(before[x], before[c], false, canary), before[x], before[c], false, canary);
      RecoveredKeeps(before[x], before[c], false, canary);
      OwnersDoNotMatter(Recovered(before[x], before[c], false, canary), r, before[x], before[c]);
    }
  }

  lemma OwnersDoNotMatter(s: Service, r: Service, o: Service, target: Service)
    requires CopiedFrom(s, o, target) && r == s.(owners := r.owners)
    ensures CopiedFrom(r, o, target)
  {
    hide TargetCopied;
  }

  /** Deprecated, original by original: the same from its fork, and of the owners the canary is gone. */
  lemma RevertedExactly(before: Services, now: Services, names: set<string>, canary: OwnerReference, x: string)
    requires Reverted(before, now, names, canary) && x in names && x in before
    ensures x in now
    ensures var r, f := AtVersion(before, now, x), x + "-forked";
            if f in before
               then CopiedFrom(r, before[x], before[f]) && r.owners == WithoutOwner(before[x].owners, canary)
            else r == before[x]
  {
    hide Recovered, CopiedFrom, WithoutOwner;
    var r, f := AtVersion(before, now, x), x + "-forked";
    if f in before {
      RecoveredExactly(r, before[x], before[f], true, canary);
      RecoveredKeeps(before[x], before[f], true, canary);
    }
  }

  lemma FewerTwice(a: Services, b: Services, c: Services, names: set<string>)
    requires OnlyFewer(a, b, names) && OnlyFewer(b, c, names)
    ensures OnlyFewer(a, c, names)
  {
  }

  lemma OnlyFewerKeys(before: Services, now: Services, names: set<string>)
    requires OnlyFewer(before, now, names)
    ensures now.Keys <= before.Keys
  {
  }

  /** Originals that are listed and patched are all of them. */
  lemma AllArePatched(originals: seq<Service>, before: Services, names: set<string>, patched: set<string>)
    requires NoneOmitted(originals, names, before, "")
    ensures (forall s | s in originals :: s.name in patched) ==> forall n | n in names && n in before :: n in patched
  {
    forall n | n in names && n in before ensures exists s :: s in originals && s.name == n {
      assert n + "" == n;
    }
  }

  lemma RevertedAfterDeletion(before: Services, mid: Services, now: Services, names: set<string>,
                              canary: OwnerReference)
    requires FullyRestored(before, mid, names, FORKED_SUFFIX, true, canary) && OnlyFewer(mid, now, names)
    requires NoClash(names)
    ensures Reverted(before, now, names, canary)
  {
  }

  lemma PartlyRevertedAfterDeletion(before: Services, mid: Services, now: Services, names: set<string>,
                                    canary: OwnerReference)
    requires PartlyRestored(before, mid, names, FORKED_SUFFIX, true, canary) && OnlyFewer(mid, now, names)
    requires NoClash(names)
    ensures PartlyReverted(before, now, names, canary)
  {
  }

  lemma HandedOverAfterDeletion(before: Services, mid: Services, reset: Services, now: Services, names: set<string>,
                                patched: set<string>, canary: OwnerReference, owner: OwnerReference)
    requires FullyRestored(before, mid, names, CANARY_SUFFIX, false, canary)
    requires OwnersReset(mid, reset, names, patched, owner)
    requires OnlyFewer(reset, now, names) && NoClash(names)
    requires patched <= names
    ensures HandedOver(before, now, names, patched, canary, owner)
  {
  }

  /** No fork and no canary service is left. */
  predicate Cleared(now: Services, names: set<string>) {
    forall n | n in names :: n + FORKED_SUFFIX !in now && n + CANARY_SUFFIX !in now
  }

  /** If all that a current lister gave is gone, none of them is left. */
  lemma NoneIsLeft(listed: seq<Service>, before: Services, now: Services, names: set<string>, suffix: string)
    requires NoneOmitted(listed, names, before, suffix)
    requires now.Keys <= before.Keys && forall s | s in listed :: s.name !in now
    ensures forall n | n in names :: n + suffix !in now
  {
  }

  // ---------------------------------------------------------------- on the cluster

  /** deleteSvcs: whatever cannot be deleted stays; errors are ignored, so each one is tried. */
  method DeleteServices(cluster: Cluster, svcs: seq<Service>, suffix: string) returns (ghost all: bool)
    requires cluster.Valid() && cluster.State().pc.Clearing? && (suffix == FORKED_SUFFIX || suffix == CANARY_SUFFIX)
    requires AllSuffixed(svcs, cluster.names, suffix)
    modifies cluster
    ensures cluster.Continues() && cluster.SameNginx() && cluster.State().pc == old(cluster.State().pc)
    ensures OnlyFewer(old(cluster.services), cluster.services, cluster.names)
    ensures all ==> forall s | s in svcs :: s.name !in cluster.services
    ensures cluster.reliable ==> all
    ensures cluster.attempts == old(cluster.attempts) + |svcs|
  {
    hide After, Throughout, Canaries, CoversAll, Reflects, Named, NoClash;
    all := true;
    for i := 0 to |svcs|
      invariant cluster.Continues() && cluster.SameNginx() && cluster.State().pc == old(cluster.State().pc)
      invariant OnlyFewer(old(cluster.services), cluster.services, cluster.names)
      invariant all ==> forall k | 0 <= k < i :: svcs[k].name !in cluster.services
      invariant cluster.reliable ==> all
      invariant cluster.attempts == old(cluster.attempts) + i
    {
      assert svcs[i] in svcs;
      ghost var n :| n in cluster.names && svcs[i].name == n + suffix;
      var ok := cluster.DeleteService(svcs[i].name, n, suffix);
      all := all && ok;
    }
  }

  /** The release client deletes the manifest, of which only the canary services take part here. */
  method DeleteManifest(cluster: Cluster, spec: seq<string>) returns (ghost all: bool)
    requires cluster.Valid() && cluster.State().pc.Clearing? && forall n | n in spec :: n in cluster.names
    modifies cluster
    ensures cluster.Continues() && cluster.SameNginx() && cluster.State().pc == old(cluster.State().pc)
    ensures OnlyFewer(old(cluster.services), cluster.services, cluster.names)
    ensures all ==> forall n | n in spec :: n + CANARY_SUFFIX !in cluster.services
    ensures cluster.reliable ==> all
  {
    hide After, Throughout, Canaries, CoversAll, Reflects, Named, NoClash;
    all := true;
    var i := 0;
    var failed := false;
    while i < |spec| && !failed
      invariant 0 <= i <= |spec|
      invariant all ==> forall k | 0 <= k < i :: spec[k] + CANARY_SUFFIX !in cluster.services
      invariant cluster.Continues() && cluster.SameNginx() && cluster.State().pc == old(cluster.State().pc)
      invariant OnlyFewer(old(cluster.services), cluster.services, cluster.names)
      invariant cluster.reliable ==> all && !failed
    {
      assert spec[i] in spec;
      var ok := cluster.DeleteService(spec[i] + CANARY_SUFFIX, spec[i], CANARY_SUFFIX);
      var others := cluster.Works();
      failed := !others;
      i, all := i + 1, all && ok;
    }
    all := all && i == |spec|;
  }

  /** Lets the release take the originals over; errors are ignored, so each one is tried. */
  method ResetOwners(cluster: Cluster, originals: seq<Service>,
                     owner: OwnerReference) returns (ghost patched: set<string>, all: bool)
    requires cluster.Valid() && AllSuffixed(originals, cluster.names, "")
    modifies cluster
    ensures cluster.Continues() && cluster.SameNginx() && cluster.State().pc == old(cluster.State().pc)
    ensures patched <= cluster.names
    ensures OwnersReset(old(cluster.services), cluster.services, cluster.names, patched, owner)
    ensures all ==> forall s | s in originals :: s.name in patched
    ensures cluster.reliable && (forall s | s in originals :: s.name in old(cluster.services)) ==> all
    ensures cluster.attempts == old(cluster.attempts) + |originals|
  {
    hide After, Throughout, Canaries, CoversAll, Reflects, Named, NoClash;
    patched, all := {}, true;
    for i := 0 to |originals|
      invariant cluster.Continues() && cluster.SameNginx() && cluster.State().pc == old(cluster.State().pc)
      invariant patched <= cluster.names
      invariant OwnersReset(old(cluster.services), cluster.services, cluster.names, patched, owner)
      invariant all ==> forall k | 0 <= k < i :: originals[k].name in patched
      invariant cluster.reliable && (forall s | s in originals :: s.name in old(cluster.services)) ==> all
      invariant cluster.attempts == old(cluster.attempts) + i
    {
      ghost var n :| n in cluster.names && originals[i].name == n + "";
      assert originals[i].name == n;
      ghost var before := cluster.services;
      var ok := cluster.PatchOwners(originals[i].name, [owner]);
      ResetNext(old(cluster.services), before, cluster.services, cluster.names, patched, n, owner, ok);
      if ok {
        patched := patched + {n};
      }
      all := all && ok;
    }
  }

  lemma ResetNext(start: Services, before: Services, now: Services, names: set<string>, patched: set<string>, n: string,
                  owner: OwnerReference, ok: bool)
    requires OwnersReset(start, before, names, patched, owner) && n in names
    requires (now == before && !ok)
          || (n in before && exists v: nat :: now == before[n := before[n].(owners := [owner]).(resourceVersion := v)])
    ensures OwnersReset(start, now, names, if ok then patched + {n} else patched, owner)
  {
  }
}
