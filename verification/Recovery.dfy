/** Giving the originals back: getRelatedAndRecoverSvcs with its retries, over a service lister that may lag. */
module Recovery {
  import opened Kube
  import opened Sequences
  import opened Takeover
  import opened Protocol
  import opened ApiServer

  // ---------------------------------------------------------------- what a recovery is for

  /** The original `n` as one clean recovery from the service `n`+`suffix` leaves it. */
  function Restored(before: Services, n: string, suffix: string, deleteOwner: bool, canary: OwnerReference): Service
    requires n in before
  {
    if n + suffix in before then Recovered(before[n], before[n + suffix], deleteOwner, canary) else before[n]
  }

  /** Every original is as before or as after a clean recovery, and everything else is as before. */
  predicate PartlyRestored(before: Services, now: Services, names: set<string>, suffix: string, deleteOwner: bool,
                           canary: OwnerReference) {
    && now.Keys == before.Keys
    && forall x | x in before ::
         if x in names then now[x].SameAs(before[x]) || now[x].SameAs(Restored(before, x, suffix, deleteOwner, canary))
         else now[x] == before[x]
  }

  /** Every original is as after a clean recovery, and everything else is as before. */
  predicate FullyRestored(before: Services, now: Services, names: set<string>, suffix: string, deleteOwner: bool,
                          canary: OwnerReference) {
    && now.Keys == before.Keys
    && forall x | x in before ::
         if x in names then now[x].SameAs(Restored(before, x, suffix, deleteOwner, canary)) else now[x] == before[x]
  }

  /** A recovery started over on partly recovered services ends where the first one would have. */
  lemma RecoveryRestarts(before: Services, now: Services, names: set<string>, suffix: string, deleteOwner: bool,
                         canary: OwnerReference, n: string)
    requires PartlyRestored(before, now, names, suffix, deleteOwner, canary) && NoClash(names)
    requires suffix == FORKED_SUFFIX || suffix == CANARY_SUFFIX
    requires n in names && n in now && n + suffix in now
    ensures Recovered(now[n], now[n + suffix], deleteOwner,
                      canary).SameAs(Restored(before, n, suffix, deleteOwner, canary))
  {
  }

  lemma VersionDoesNotMatter(s: Service, t: Service, target: Service, deleteOwner: bool, canary: OwnerReference)
    requires s.SameAs(t)
    ensures Recovered(s, target, deleteOwner, canary).SameAs(Recovered(t, target, deleteOwner, canary))
  {
  }

  // ---------------------------------------------------------------- one service

  /** The deep copy of an original, patched in place. */
  method RecoverOne(original: Service, target: Service, deleteOwner: bool, canary: OwnerReference) returns (o: Service)
    ensures o == Recovered(original, target, deleteOwner, canary)
  {
    var ports := new ServicePort[|original.ports|](i requires 0 <= i < |original.ports| => original.ports[i]);
    var patch := new ServicePort[|target.ports|](i requires 0 <= i < |target.ports| => target.ports[i]);
    assert ports[..] == original.ports && patch[..] == target.ports;
    o := original;
    if deleteOwner {
      var owners := DeleteOwnerIfExists(o.owners, canary);
      o := o.(owners := owners);
    }
    PatchTargetPort(ports, patch);
    o := o.(ports := ports[..], selector := target.selector);
  }

  // ---------------------------------------------------------------- listing

  /** A lister's snapshot: targets of a recovery never select the proxy. */
  predicate Usable(cache: Services, originals: seq<string>, selector: map<string, string>) {
    && Named(cache)
    && forall n | n in originals ::
         !Selects(cache, n + FORKED_SUFFIX, selector) && !Selects(cache, n + CANARY_SUFFIX, selector)
  }

  /** The services n+suffix, for n from `spec`, that a lister has. */
  function FromLister(cache: Services, spec: seq<string>, suffix: string): (r: seq<Service>)
    ensures forall s | s in r :: exists n :: n in spec && n + suffix in cache && s == cache[n + suffix]
    ensures forall n | n in spec && n + suffix in cache :: cache[n + suffix] in r
  {
    if spec == [] then []
    else
      var k := |spec| - 1;
      var before := FromLister(cache, spec[..k], suffix);
      assert spec == spec[..k] + [spec[k]];
      if spec[k] + suffix in cache then before + [cache[spec[k] + suffix]] else before
  }

  /** getSvcs: a missing service is passed over; None if the lister fails. */
  method GetSvcs(cache: Services, spec: seq<string>, suffix: string, reliable: bool)
    returns (svcs: Option<seq<Service>>)
    ensures svcs.Some? ==> svcs.value == FromLister(cache, spec, suffix)
    ensures reliable ==> svcs.Some?
  {
    var found := [];
    for i := 0 to |spec|
      invariant found == FromLister(cache, spec[..i], suffix)
    {
      var fails: bool := *;
      if fails && !reliable {
        return None;
      }
      assert spec[..i + 1][..i] == spec[..i];
      if spec[i] + suffix in cache {
        found := found + [cache[spec[i] + suffix]];
      }
    }
    assert spec[..|spec|] == spec;
    svcs := Some(found);
  }

  /** What the lister shows.  With `current` it shows what the server has now, otherwise anything. */
  method ObserveServices(cluster: Cluster, spec: seq<string>, current: bool) returns (cache: Services)
    requires cluster.Valid() && forall n | n in spec :: n in cluster.names
    ensures Usable(cache, spec, cluster.proxySelector) && (current ==> cache == cluster.services)
  {
    var shown: Services := *;
    cache := map[];
    if current {
      cache := cluster.services;
    } else if Usable(shown, spec, cluster.proxySelector) {
      cache := shown;
    }
  }

  // ---------------------------------------------------------------- one attempt

  /** The first service with a name. */
  method FindTarget(targets: seq<Service>, name: string) returns (found: Option<Service>)
    ensures found.None? ==> forall t | t in targets :: t.name != name
    ensures found.Some? ==> found.value in targets && found.value.name == name
  {
    for j := 0 to |targets|
      invariant forall k | 0 <= k < j :: targets[k].name != name
    {
      if targets[j].name == name {
        return Some(targets[j]);
      }
    }
    found := None;
  }

  /** In `cache` both the original and the service to recover it from exist. */
  predicate Recoverable(cache: Services, n: string, suffix: string) {
    n in cache && n + suffix in cache
  }

  predicate RestoredAt(before: Services, now: Services, n: string, suffix: string, deleteOwner: bool,
                       canary: OwnerReference) {
    n in before && n in now && now[n].SameAs(Restored(before, n, suffix, deleteOwner, canary))
  }

  /** The originals that have a target in `cache` are dealt with. */
  predicate AllHandled(names: set<string>, cache: Services, suffix: string, handled: set<string>) {
    forall n | n in names && Recoverable(cache, n, suffix) :: n in handled
  }

  /** Every one of `done` is as after a clean recovery. */
  predicate DoneAre(done: set<string>, before: Services, now: Services, suffix: string, deleteOwner: bool,
                    canary: OwnerReference) {
    forall n | n in done :: RestoredAt(before, now, n, suffix, deleteOwner, canary)
  }

  /** What a recovery makes of the cached original is what one clean recovery leaves. */
  lemma StoredIsRestored(before: Services, cache: Services, names: set<string>, n: string, version: nat, suffix: string,
                         deleteOwner: bool, canary: OwnerReference)
    requires NoClash(names) && (suffix == FORKED_SUFFIX || suffix == CANARY_SUFFIX)
    requires PartlyRestored(before, cache, names, suffix, deleteOwner, canary) && n in names
    requires Recoverable(cache, n, suffix)
    ensures n in before && Recovered(cache[n], cache[n + suffix], deleteOwner, canary).(resourceVersion := version)
                             .SameAs(Restored(before, n, suffix, deleteOwner, canary))
  {
    hide Recovered, Restored;
    KeysKept(before, cache, names, suffix, deleteOwner, canary);
    RecoveryRestarts(before, cache, names, suffix, deleteOwner, canary, n);
  }

  /** An accepted update with what one clean recovery leaves of `n`. */
  lemma OneMoreRestored(before: Services, now: Services, next: Services, names: set<string>, n: string, stored: Service,
                        done: set<string>, suffix: string, deleteOwner: bool, canary: OwnerReference)
    requires PartlyRestored(before, now, names, suffix, deleteOwner, canary)
    requires DoneAre(done, before, now, suffix, deleteOwner, canary)
    requires n in names && n in before && stored.SameAs(Restored(before, n, suffix, deleteOwner, canary))
    requires next == now[n := stored]
    ensures PartlyRestored(before, next, names, suffix, deleteOwner, canary)
    ensures DoneAre(done + {n}, before, next, suffix, deleteOwner, canary)
  {
    hide Restored;
    forall x | x in done + {n} ensures RestoredAt(before, next, x, suffix, deleteOwner, canary) {
      assert x in done ==> RestoredAt(before, now, x, suffix, deleteOwner, canary);
    }
  }

  /** One round of recoverSvcs. */
  method RecoverNext(cluster: Cluster, cache: Services, spec: seq<string>, origin: Service, target: Service,
                     suffix: string, deleteOwner: bool, canary: OwnerReference, ghost before: Services,
                     ghost current: bool, ghost done: set<string>)
    returns (ok: bool)
    requires cluster.Valid() && cluster.State().pc.Recovering? && origin.name in cluster.names && origin.name in spec
    requires Usable(cache, spec, cluster.proxySelector) && (suffix == FORKED_SUFFIX || suffix == CANARY_SUFFIX)
    requires Recoverable(cache, origin.name, suffix) && cache[origin.name] == origin
    requires cache[origin.name + suffix] == target
    requires current ==>
               && PartlyRestored(before, cluster.services, cluster.names, suffix, deleteOwner, canary)
               && PartlyRestored(before, cache, cluster.names, suffix, deleteOwner, canary)
               && DoneAre(done, before, cluster.services, suffix, deleteOwner, canary)
    modifies cluster
    ensures cluster.Continues() && cluster.SameNginx()
    ensures cluster.State().pc.Recovering? && cluster.State().pc.goal == old(cluster.State().pc.goal)
    ensures cluster.State().pc.handled <= old(cluster.State().pc.handled) + {origin.name}
    ensures ok ==> cluster.State().pc.handled == old(cluster.State().pc.handled) + {origin.name}
    ensures current ==> PartlyRestored(before, cluster.services, cluster.names, suffix, deleteOwner, canary)
    ensures current && ok ==> DoneAre(done + {origin.name}, before, cluster.services, suffix, deleteOwner, canary)
    ensures OnlyAt(old(cluster.services), cluster.services, origin.name)
    ensures cluster.reliable && SameAt(cache, old(cluster.services), origin.name) ==> ok
  {
    hide After, Throughout, Canaries, CoversAll, Reflects, Named, NoClash, Recovered, Restored, PartlyRestored, DoneAre;
    var o := RecoverOne(origin, target, deleteOwner, canary);
    RecoveredKeeps(origin, target, deleteOwner, canary);
    ok := cluster.UpdateService(o);
    if current && (ok || cluster.services != old(cluster.services)) {
      ghost var version := cluster.services[o.name].resourceVersion;
      StoredIsRestored(before, cache, cluster.names, o.name, version, suffix, deleteOwner, canary);
      OneMoreRestored(before, old(cluster.services), cluster.services, cluster.names, o.name,
                      o.(resourceVersion := version),
                      done, suffix, deleteOwner, canary);
    }
  }

  lemma RecoveredKeeps(o: Service, target: Service, deleteOwner: bool, canary: OwnerReference)
    ensures var r := Recovered(o, target, deleteOwner, canary);
            r.name == o.name && r.selector == target.selector && r.resourceVersion == o.resourceVersion
  {
  }

  /** One round of recoverSvcs: an original that has a target is recovered from it. */
  method RecoverRound(cluster: Cluster, cache: Services, spec: seq<string>, origin: Service, targets: seq<Service>,
                      suffix: string, deleteOwner: bool, canary: OwnerReference, ghost before: Services,
                      ghost current: bool)
    returns (ok: bool)
    requires cluster.Valid() && cluster.State().pc.Recovering? && cluster.State().pc.handled <= cluster.names
    requires (forall n :: n in spec <==> n in cluster.names) && Usable(cache, spec, cluster.proxySelector)
    requires suffix == FORKED_SUFFIX || suffix == CANARY_SUFFIX
    requires origin in FromLister(cache, spec, "") && targets == FromLister(cache, spec, suffix)
    requires current ==>
               && PartlyRestored(before, cluster.services, cluster.names, suffix, deleteOwner, canary)
               && PartlyRestored(before, cache, cluster.names, suffix, deleteOwner, canary)
               && DoneAre(cluster.State().pc.handled, before, cluster.services, suffix, deleteOwner, canary)
    modifies cluster
    ensures cluster.Continues() && cluster.SameNginx()
    ensures cluster.State().pc.Recovering? && cluster.State().pc.goal == old(cluster.State().pc.goal)
    ensures cluster.State().pc.handled <= cluster.names
    ensures ok ==>
              old(cluster.State().pc.handled) <= cluster.State().pc.handled
              && (Recoverable(cache, origin.name, suffix) ==> origin.name in cluster.State().pc.handled)
    ensures current ==> PartlyRestored(before, cluster.services, cluster.names, suffix, deleteOwner, canary)
    ensures current && ok ==> DoneAre(cluster.State().pc.handled, before, cluster.services, suffix, deleteOwner, canary)
    ensures OnlyAt(old(cluster.services), cluster.services, origin.name)
    ensures cluster.reliable && SameAt(cache, old(cluster.services), origin.name) ==> ok
  {
    hide After, Throughout, Canaries, CoversAll, Reflects, NoClash, PartlyRestored, DoneAre, FromLister, SameAt;
    OriginAt(cache, spec, origin);
    var target := FindTarget(targets, origin.name + suffix);
    TargetOf(cache, spec, suffix, origin.name, target);
    ok := true;
    NothingMoved(cluster.services, origin.name);
    if target.Some? {
      ok := RecoverNext(cluster, cache, spec, origin, target.value, suffix, deleteOwner, canary, before, current,
                        cluster.State().pc.handled);
    }
  }

  /** recoverSvcs: up to the first failing update, every original that has a target is recovered from it. */
  method RecoverSvcs(cluster: Cluster, cache: Services, spec: seq<string>, origins: seq<Service>, targets: seq<Service>,
                     suffix: string, deleteOwner: bool, canary: OwnerReference, ghost before: Services,
                     ghost current: bool)
    returns (ok: bool)
    requires cluster.Valid() && cluster.State().pc.Recovering? && cluster.State().pc.handled == {}
    requires (forall n :: n in spec <==> n in cluster.names) && Usable(cache, spec, cluster.proxySelector)
    requires suffix == FORKED_SUFFIX || suffix == CANARY_SUFFIX
    requires origins == FromLister(cache, spec, "") && targets == FromLister(cache, spec, suffix)
    requires current ==>
               && PartlyRestored(before, cluster.services, cluster.names, suffix, deleteOwner, canary)
               && PartlyRestored(before, cache, cluster.names, suffix, deleteOwner, canary)
    modifies cluster
    ensures cluster.Continues() && cluster.SameNginx()
    ensures cluster.State().pc.Recovering? && cluster.State().pc.goal == old(cluster.State().pc.goal)
    ensures cluster.State().pc.handled <= cluster.names
    ensures ok ==> AllHandled(cluster.names, cache, suffix, cluster.State().pc.handled)
    ensures current ==> PartlyRestored(before, cluster.services, cluster.names, suffix, deleteOwner, canary)
    ensures current && ok ==> DoneAre(cluster.State().pc.handled, before, cluster.services, suffix, deleteOwner, canary)
    ensures cluster.reliable && cache == old(cluster.services) && NoRepeats(spec) ==> ok
  {
    hide After, Throughout, Canaries, CoversAll, Reflects, Named, NoClash, PartlyRestored, DoneAre, FromLister, OnlyAt,
         SameFrom, SameAt, NoRepeats, Usable, Recoverable, HandledUpTo;
    ghost var once := cache == cluster.services && NoRepeats(spec);
    if once {
      ListedOnce(cache, spec);
    }
    NothingDone(before, cluster.services, suffix, deleteOwner, canary);
    NoneHandled(cache, origins, suffix);
    ok := true;
    var i := 0;
    while i < |origins| && ok
      invariant 0 <= i <= |origins| && cluster.Continues() && cluster.SameNginx()
      invariant cluster.State().pc.Recovering? && cluster.State().pc.goal == old(cluster.State().pc.goal)
      invariant cluster.State().pc.handled <= cluster.names
      invariant ok ==> HandledUpTo(cache, origins, i, suffix, cluster.State().pc.handled)
      invariant current ==> PartlyRestored(before, cluster.services, cluster.names, suffix, deleteOwner, canary)
      invariant current && ok ==>
                  DoneAre(cluster.State().pc.handled, before, cluster.services, suffix, deleteOwner, canary)
      invariant once ==> SameFrom(cache, cluster.services, origins, i) && (cluster.reliable ==> ok)
    {
      ghost var now := cluster.services;
      if once {
        SameNext(cache, now, origins, i);
      }
      assert origins[i] in origins;
      ghost var handled := cluster.State().pc.handled;
      ok := RecoverRound(cluster, cache, spec, origins[i], targets, suffix, deleteOwner, canary, before, current);
      if once {
        SameAfter(cache, now, cluster.services, origins, i);
      }
      if ok {
        HandledNext(cache, origins, i, suffix, handled, cluster.State().pc.handled);
      }
      i := i + 1;
    }
    if ok {
      ListedAreHandled(cache, spec, cluster.proxySelector, cluster.names, suffix, cluster.State().pc.handled);
    }
  }

  /** Of the first `n` originals, those that have a target are handled. */
  predicate HandledUpTo(cache: Services, origins: seq<Service>, n: nat, suffix: string, handled: set<string>) {
    forall k | 0 <= k < n && k < |origins| && Recoverable(cache, origins[k].name, suffix) :: origins[k].name in handled
  }

  lemma HandledNext(cache: Services, origins: seq<Service>, n: nat, suffix: string, handled: set<string>,
                    more: set<string>)
    requires HandledUpTo(cache, origins, n, suffix, handled) && handled <= more && n < |origins|
    requires Recoverable(cache, origins[n].name, suffix) ==> origins[n].name in more
    ensures HandledUpTo(cache, origins, n + 1, suffix, more)
  {
  }

  lemma NoneHandled(cache: Services, origins: seq<Service>, suffix: string)
    ensures HandledUpTo(cache, origins, 0, suffix, {})
  {
  }

  lemma ListedAreHandled(cache: Services, spec: seq<string>, selector: map<string, string>, names: set<string>,
                         suffix: string, handled: set<string>)
    requires (forall n :: n in spec <==> n in names) && Usable(cache, spec, selector)
    requires var origins := FromLister(cache, spec, "");
             HandledUpTo(cache, origins, |origins|, suffix, handled)
    ensures AllHandled(names, cache, suffix, handled)
  {
    hide FromLister;
    forall n | n in names && Recoverable(cache, n, suffix) ensures n in handled {
      var k := OriginIndex(cache, spec, n);
    }
  }

  /** The originals from place `i` on are as the lister showed them. */
  predicate SameFrom(cache: Services, now: Services, origins: seq<Service>, i: nat) {
    && (forall j, k | 0 <= j < k < |origins| :: origins[j].name != origins[k].name)
    && forall k | i <= k < |origins| :: SameAt(cache, now, origins[k].name)
  }

  lemma SameNext(cache: Services, now: Services, origins: seq<Service>, i: nat)
    requires SameFrom(cache, now, origins, i) && i < |origins|
    ensures SameAt(cache, now, origins[i].name) && SameFrom(cache, now, origins, i + 1)
  {
  }

  lemma SameAfter(cache: Services, now: Services, next: Services, origins: seq<Service>, i: nat)
    requires SameFrom(cache, now, origins, i) && i < |origins| && OnlyAt(now, next, origins[i].name)
    ensures SameFrom(cache, next, origins, i + 1)
  {
    forall k | i < k < |origins| ensures SameAt(cache, next, origins[k].name) {
      assert SameAt(now, next, origins[k].name);
    }
  }

  /** Originals that are named once are listed once. */
  lemma ListedOnce(cache: Services, spec: seq<string>)
    requires Named(cache) && NoRepeats(spec)
    ensures SameFrom(cache, cache, FromLister(cache, spec, ""), 0)
  {
    ListedInOrder(cache, spec);
  }

  lemma {:induction false} ListedInOrder(cache: Services, spec: seq<string>)
    requires Named(cache) && NoRepeats(spec)
    ensures var r := FromLister(cache, spec, "");
            && (forall j, k | 0 <= j < k < |r| :: r[j].name != r[k].name)
            && (forall s | s in r :: s.name in spec)
  {
    if spec != [] {
      var k := |spec| - 1;
      ListedInOrder(cache, spec[..k]);
      assert spec == spec[..k] + [spec[k]] && spec[k] + "" == spec[k];
      var r, before := FromLister(cache, spec, ""), FromLister(cache, spec[..k], "");
      assert spec[k] !in spec[..k];
      if spec[k] in cache {
        assert r == before + [cache[spec[k]]];
        forall x, y | 0 <= x < y < |r| ensures r[x].name != r[y].name {
          if y == |before| {
            assert r[x] == before[x] && before[x] in before && r[y].name == spec[k];
          } else {
            assert r[x] == before[x] && r[y] == before[y];
          }
        }
      } else {
        assert r == before;
      }
    }
  }

  lemma NothingDone(before: Services, now: Services, suffix: string, deleteOwner: bool, canary: OwnerReference)
    ensures DoneAre({}, before, now, suffix, deleteOwner, canary)
  {
  }

  lemma OriginAt(cache: Services, spec: seq<string>, origin: Service)
    requires Named(cache) && origin in FromLister(cache, spec, "")
    ensures origin.name in spec && origin.name in cache && cache[origin.name] == origin
  {
    var n :| n in spec && n + "" in cache && origin == cache[n + ""];
    assert n + "" == n;
  }

  lemma OriginIndex(cache: Services, spec: seq<string>, n: string) returns (k: nat)
    requires Named(cache) && n in spec && n in cache
    ensures k < |FromLister(cache, spec, "")| && FromLister(cache, spec, "")[k].name == n
  {
    assert n + "" == n;
    assert cache[n + ""] in FromLister(cache, spec, "");
    k :| 0 <= k < |FromLister(cache, spec, "")| && FromLister(cache, spec, "")[k] == cache[n + ""];
  }

  /** The search among the targets finds the service n+suffix of the lister, if it has one. */
  lemma TargetOf(cache: Services, spec: seq<string>, suffix: string, n: string, found: Option<Service>)
    requires Named(cache) && n in spec
    requires found.None? ==> forall t | t in FromLister(cache, spec, suffix) :: t.name != n + suffix
    requires found.Some? ==> found.value in FromLister(cache, spec, suffix) && found.value.name == n + suffix
    ensures found == if n + suffix in cache then Some(cache[n + suffix]) else None
  {
  }

  // ---------------------------------------------------------------- the retries

  /** The originals that were not recovered, in the protocol's terms. */
  ghost method SkipRest(cluster: Cluster)
    requires cluster.Valid() && cluster.State().pc.Recovering? && cluster.State().pc.handled <= cluster.names
    modifies cluster`log
    ensures cluster.Valid() && old(cluster.log) <= cluster.log
    ensures cluster.State() == old(cluster.State()).(pc := Recovering(old(cluster.State().pc.goal), cluster.names))
    ensures old(cluster.Careful()) && old(NoneMissed(cluster)) ==> cluster.Careful()
    ensures old(cluster.Steady()) ==> cluster.Steady()
  {
    hide After, Throughout, Canaries, CoversAll, Reflects, Named, NoClash;
    var rest := cluster.names - cluster.State().pc.handled;
    assert cluster.names - rest == cluster.State().pc.handled;
    while rest != {}
      invariant cluster.Valid() && old(cluster.log) <= cluster.log
      invariant rest <= cluster.names - old(cluster.State().pc.handled)
      invariant cluster.State()
                  == old(cluster.State()).(pc := Recovering(old(cluster.State().pc.goal), cluster.names - rest))
      invariant old(cluster.Careful()) && old(NoneMissed(cluster)) ==> cluster.Careful()
      invariant old(cluster.Steady()) ==> cluster.Steady()
    {
      var n :| n in rest;
      assert cluster.names - (rest - {n}) == cluster.names - rest + {n};
      cluster.Record(SkipOriginal(n));
      rest := rest - {n};
    }
    assert cluster.names - rest == cluster.names;
  }

  /** No original that still selects the proxy and was not recovered has a target. */
  ghost predicate NoneMissed(cluster: Cluster)
    reads cluster
    requires cluster.Valid() && cluster.State().pc.Recovering?
  {
    var s := cluster.State();
    forall n | n in cluster.names && n !in s.pc.handled && n in s.toProxy :: n !in Targets(s, s.pc.goal)
  }

  const RETRIES := 5

  /** Current listers miss nothing: what still selects the proxy and has a target was handled. */
  lemma CurrentMissesNothing(names: set<string>, selector: map<string, string>, cache: Services, now: Services,
                             s: State, suffix: string)
    requires Reflects(names, selector, now, s) && s.pc.Recovering? && now.Keys == cache.Keys
    requires suffix == (if s.pc.goal == Adopted then CANARY_SUFFIX else FORKED_SUFFIX)
    requires AllHandled(names, cache, suffix, s.pc.handled)
    ensures forall n | n in names && n !in s.pc.handled && n in s.toProxy :: n !in Targets(s, s.pc.goal)
  {
  }

  lemma RestoredCompletely(before: Services, cache: Services, now: Services, names: set<string>, handled: set<string>,
                           suffix: string, deleteOwner: bool, canary: OwnerReference)
    requires PartlyRestored(before, now, names, suffix, deleteOwner, canary) && before.Keys == cache.Keys
    requires DoneAre(handled, before, now, suffix, deleteOwner, canary) && AllHandled(names, cache, suffix, handled)
    ensures FullyRestored(before, now, names, suffix, deleteOwner, canary)
  {
  }

  /** Every service of the list is n+suffix for some n. */
  ghost predicate AllSuffixed(svcs: seq<Service>, names: set<string>, suffix: string) {
    forall s | s in svcs :: exists n :: n in names && s.name == n + suffix
  }

  lemma NothingListed(names: set<string>)
    ensures (forall suffix :: AllSuffixed([], names, suffix)) && ListedFor([], [], [], names)
  {
  }

  lemma ListedAreSuffixed(cache: Services, spec: seq<string>, names: set<string>, suffix: string)
    requires Named(cache) && forall n | n in spec :: n in names
    ensures AllSuffixed(FromLister(cache, spec, suffix), names, suffix)
  {
  }

  /** Every service n+suffix there was is in the list. */
  ghost predicate NoneOmitted(listed: seq<Service>, names: set<string>, services: Services, suffix: string) {
    forall n | n in names && n + suffix in services :: exists s :: s in listed && s.name == n + suffix
  }

  /** All of them are services there are. */
  predicate AllStored(listed: seq<Service>, services: Services) {
    forall s | s in listed :: s.name in services
  }

  /** Every original, canary service and fork there was is in the lists, and no other original. */
  ghost predicate Complete(originals: seq<Service>, canaries: seq<Service>, forks: seq<Service>, names: set<string>,
                           services: Services) {
    AllStored(originals, services)
    && NoneOmitted(originals, names, services, "") && NoneOmitted(canaries, names, services, CANARY_SUFFIX)
    && NoneOmitted(forks, names, services, FORKED_SUFFIX)
  }

  lemma ListedOmitNone(before: Services, now: Services, cache: Services, spec: seq<string>, names: set<string>,
                       suffix: string, deleteOwner: bool, canary: OwnerReference, current: bool)
    requires Named(cache) && forall n :: n in spec <==> n in names
    requires current ==> cache == now && PartlyRestored(before, now, names, suffix, deleteOwner, canary)
    ensures current ==> Complete(FromLister(cache, spec, ""), FromLister(cache, spec, CANARY_SUFFIX),
                                 FromLister(cache, spec, FORKED_SUFFIX), names, before)
  {
    hide Restored;
  }

  /** Originals, canary services and forks of `names`. */
  ghost predicate ListedFor(originals: seq<Service>, canaries: seq<Service>, forks: seq<Service>, names: set<string>) {
    AllSuffixed(originals, names, "") && AllSuffixed(canaries, names, CANARY_SUFFIX)
    && AllSuffixed(forks, names, FORKED_SUFFIX)
  }

  /** The services that one attempt starts from, up to the first list that the lister fails to give.  That one is empty
      then, and those after it are what an earlier attempt left in them. */
  method GetRelated(cache: Services, spec: seq<string>, ghost originalsBefore: seq<Service>,
                    canariesBefore: seq<Service>, forksBefore: seq<Service>, ghost names: set<string>, reliable: bool)
    returns (originals: seq<Service>, canaries: seq<Service>, forks: seq<Service>, ok: bool)
    requires Named(cache) && forall n | n in spec :: n in names
    requires ListedFor(originalsBefore, canariesBefore, forksBefore, names)
    ensures ListedFor(originals, canaries, forks, names)
    ensures ok ==>
              && originals == FromLister(cache, spec, "") && canaries == FromLister(cache, spec, CANARY_SUFFIX)
              && forks == FromLister(cache, spec, FORKED_SUFFIX)
    ensures reliable ==> ok
    ensures !ok ==>
              || (originals == [] && canaries == canariesBefore && forks == forksBefore)
              || (originals == FromLister(cache, spec, "") && canaries == [] && forks == forksBefore)
              || (originals == FromLister(cache, spec, "") && canaries == FromLister(cache, spec, CANARY_SUFFIX)
                  && forks == [])
  {
    hide AllSuffixed, FromLister, Named;
    originals, canaries, forks, ok := [], canariesBefore, forksBefore, false;
    NothingListed(names);
    ListedAreSuffixed(cache, spec, names, "");
    ListedAreSuffixed(cache, spec, names, CANARY_SUFFIX);
    ListedAreSuffixed(cache, spec, names, FORKED_SUFFIX);
    var found := GetSvcs(cache, spec, "", reliable);
    if found.None? {
      return;
    }
    originals := found.value;
    found := GetSvcs(cache, spec, CANARY_SUFFIX, reliable);
    if found.None? {
      canaries := [];
      return;
    }
    canaries := found.value;
    found := GetSvcs(cache, spec, FORKED_SUFFIX, reliable);
    if found.None? {
      forks := [];
      return;
    }
    forks, ok := found.value, true;
  }

  /** One attempt; an error of the lister ends them all. */
  method Attempt(cluster: Cluster, spec: seq<string>, suffix: string, deleteOwner: bool, canary: OwnerReference,
                 current: bool, ghost originalsBefore: seq<Service>, canariesBefore: seq<Service>,
                 forksBefore: seq<Service>, ghost before: Services)
    returns (originals: seq<Service>, canaries: seq<Service>, forks: seq<Service>, got: bool, ok: bool)
    requires cluster.Valid() && cluster.State().pc.Recovering? && cluster.State().pc.handled == {}
    requires forall n :: n in spec <==> n in cluster.names
    requires suffix == (if cluster.State().pc.goal == Adopted then CANARY_SUFFIX else FORKED_SUFFIX)
    requires ListedFor(originalsBefore, canariesBefore, forksBefore, cluster.names)
    requires current ==> PartlyRestored(before, cluster.services, cluster.names, suffix, deleteOwner, canary)
    modifies cluster
    ensures cluster.Valid() && old(cluster.log) <= cluster.log && cluster.SameNginx()
    ensures (current && old(cluster.Careful()) ==> cluster.Careful()) && (old(cluster.Steady()) ==> cluster.Steady())
    ensures Last(cluster.crs).phase == old(Last(cluster.crs).phase)
    ensures cluster.State().running == old(cluster.State().running) && (ok ==> got)
    ensures cluster.State().pc == (if ok then Clearing(old(cluster.State().pc.goal)) else old(cluster.State().pc))
    ensures ListedFor(originals, canaries, forks, cluster.names)
    ensures current && ok ==> Complete(originals, canaries, forks, cluster.names, before)
    ensures current ==> PartlyRestored(before, cluster.services, cluster.names, suffix, deleteOwner, canary)
    ensures current && ok ==> FullyRestored(before, cluster.services, cluster.names, suffix, deleteOwner, canary)
    ensures cluster.reliable ==> got && (current && NoRepeats(spec) ==> ok)
  {
    hide After, Throughout, Canaries, CoversAll, Reflects, Named, NoClash, PartlyRestored, FullyRestored, DoneAre,
         FromLister, AllHandled, Complete, ListedFor, NoRepeats;
    ok := false;
    var cache := ObserveServices(cluster, spec, current);
    originals, canaries, forks, got :=
      GetRelated(cache, spec, originalsBefore, canariesBefore, forksBefore, cluster.names, cluster.reliable);
    if !got {
      return;
    }
    ListedOmitNone(before, cluster.services, cache, spec, cluster.names, suffix, deleteOwner, canary, current);
    var recoverService := if suffix == CANARY_SUFFIX then canaries else forks;
    ok := RecoverSvcs(cluster, cache, spec, originals, recoverService, suffix, deleteOwner, canary, before, current);
    FinishAttempt(cluster, cache, suffix, deleteOwner, canary, before, current, ok);
  }

  /** getRelatedAndRecoverSvcs.  However often attempts fail half-way, with listers that are current at each attempt
      the originals are at every moment as before or as after one clean recovery, and a success leaves all of them
      as after one clean recovery and nothing else changed.  It gives up after five attempts or a failing lister; with
      current listers and no failing call the first one succeeds. */
  method GetRelatedAndRecover(cluster: Cluster, spec: seq<string>, suffix: string, deleteOwner: bool,
                              canary: OwnerReference, current: bool)
    returns (originals: seq<Service>, canaries: seq<Service>, forks: seq<Service>, ok: bool, ghost attempts: nat)
    requires cluster.Valid() && cluster.State().pc.Recovering? && cluster.State().pc.handled == {}
    requires forall n :: n in spec <==> n in cluster.names
    requires suffix == (if cluster.State().pc.goal == Adopted then CANARY_SUFFIX else FORKED_SUFFIX)
    modifies cluster
    ensures cluster.Valid() && old(cluster.log) <= cluster.log && cluster.SameNginx()
    ensures (current && old(cluster.Careful()) ==> cluster.Careful()) && (old(cluster.Steady()) ==> cluster.Steady())
    ensures Last(cluster.crs).phase == old(Last(cluster.crs).phase)
    ensures cluster.State().running == old(cluster.State().running)
    ensures var goal := old(cluster.State().pc.goal);
            if ok then cluster.State().pc == Clearing(goal)
               else cluster.State().pc.Recovering? && cluster.State().pc.goal == goal
    ensures current && ok ==> Complete(originals, canaries, forks, cluster.names, old(cluster.services))
    ensures ListedFor(originals, canaries, forks, cluster.names)
    ensures current ==>
              PartlyRestored(old(cluster.services), cluster.services, cluster.names, suffix, deleteOwner, canary)
    ensures current && ok ==>
              FullyRestored(old(cluster.services), cluster.services, cluster.names, suffix, deleteOwner, canary)
    ensures 1 <= attempts <= 5
    ensures cluster.reliable ==> (ok || attempts == 5) && (current && NoRepeats(spec) ==> ok && attempts == 1)
  {
    hide After, Throughout, Canaries, CoversAll, Reflects, Named, NoClash, PartlyRestored, FullyRestored, DoneAre,
         FromLister, AllHandled, Complete, ListedFor, NoRepeats;
    ghost var before, goal := cluster.services, cluster.State().pc.goal;
    NothingChangedYet(before, cluster.names, suffix, deleteOwner, canary);
    originals, canaries, forks, ok := [], [], [], false;
    NothingListed(cluster.names);
    attempts := 0;
    var attempt := 0;
    while attempt < RETRIES && !ok
      invariant cluster.Valid() && old(cluster.log) <= cluster.log && cluster.SameNginx()
      invariant (current && old(cluster.Careful()) ==> cluster.Careful())
                && (old(cluster.Steady()) ==> cluster.Steady())
      invariant Last(cluster.crs).phase == old(Last(cluster.crs).phase)
      invariant cluster.State().running == old(cluster.State().running)
      invariant current && ok ==> Complete(originals, canaries, forks, cluster.names, before)
      invariant if ok then cluster.State().pc == Clearing(goal) else cluster.State().pc == Recovering(goal, {})
      invariant ListedFor(originals, canaries, forks, cluster.names)
      invariant current ==> PartlyRestored(before, cluster.services, cluster.names, suffix, deleteOwner, canary)
      invariant current && ok ==> FullyRestored(before, cluster.services, cluster.names, suffix, deleteOwner, canary)
      invariant attempts == attempt <= RETRIES && (ok ==> attempts >= 1)
      invariant cluster.reliable && current && NoRepeats(spec) && attempt > 0 ==> ok && attempt == 1
    {
      attempts := attempts + 1;
      var got;
      originals, canaries, forks, got, ok :=
        Attempt(cluster, spec, suffix, deleteOwner, canary, current, originals, canaries, forks, before);
      if !got {
        return;
      }
      attempt := attempt + 1;
    }
  }

  lemma FullyRestoredKeys(before: Services, now: Services, names: set<string>, suffix: string, deleteOwner: bool,
                          canary: OwnerReference)
    requires FullyRestored(before, now, names, suffix, deleteOwner, canary)
    ensures now.Keys == before.Keys
  {
  }

  lemma NothingChangedYet(before: Services, names: set<string>, suffix: string, deleteOwner: bool,
                          canary: OwnerReference)
    ensures PartlyRestored(before, before, names, suffix, deleteOwner, canary)
  {
  }

  /** An attempt is over. */
  ghost method FinishAttempt(cluster: Cluster, cache: Services, suffix: string, deleteOwner: bool,
                             canary: OwnerReference, before: Services, current: bool, ok: bool)
    requires cluster.Valid() && cluster.State().pc.Recovering? && cluster.State().pc.handled <= cluster.names
    requires suffix == (if cluster.State().pc.goal == Adopted then CANARY_SUFFIX else FORKED_SUFFIX)
    requires current ==>
               && PartlyRestored(before, cluster.services, cluster.names, suffix, deleteOwner, canary)
               && PartlyRestored(before, cache, cluster.names, suffix, deleteOwner, canary)
    requires ok ==> AllHandled(cluster.names, cache, suffix, cluster.State().pc.handled)
    requires current && ok ==>
               DoneAre(cluster.State().pc.handled, before, cluster.services, suffix, deleteOwner, canary)
    modifies cluster`log
    ensures cluster.Valid() && old(cluster.log) <= cluster.log
    ensures (current && old(cluster.Careful()) ==> cluster.Careful()) && (old(cluster.Steady()) ==> cluster.Steady())
    ensures var goal := old(cluster.State().pc.goal);
            cluster.State() == old(cluster.State()).(pc := if ok then Clearing(goal) else Recovering(goal, {}))
    ensures current && ok ==> FullyRestored(before, cluster.services, cluster.names, suffix, deleteOwner, canary)
  {
    hide After, Throughout, Canaries, CoversAll, Reflects, Named, NoClash, PartlyRestored, FullyRestored, DoneAre,
         AllHandled;
    if ok {
      if current {
        KeysKept(before, cluster.services, cluster.names, suffix, deleteOwner, canary);
        KeysKept(before, cache, cluster.names, suffix, deleteOwner, canary);
        CurrentMissesNothing(cluster.names, cluster.proxySelector, cache, cluster.services, cluster.State(), suffix);
        RestoredCompletely(before, cache, cluster.services, cluster.names, cluster.State().pc.handled, suffix,
                           deleteOwner, canary);
      }
      SkipRest(cluster);
      cluster.Record(RecoverySucceeds);
    } else {
      cluster.Record(RetryRecovery);
    }
  }

  lemma KeysKept(before: Services, now: Services, names: set<string>, suffix: string, deleteOwner: bool,
                 canary: OwnerReference)
    requires PartlyRestored(before, now, names, suffix, deleteOwner, canary)
    ensures now.Keys == before.Keys
  {
  }
}
