/** What a sync is to make of the services, and how far it has come, on values. */
module Plan {
  import opened Kube
  import opened Takeover
  import opened ApiServer

  /** One original to take over: the release manifest's description of it and its table of listen ports. */
  datatype Target = Target(manifest: Service, table: map<string, int>)

  /** The fork to create. */
  function WantedFork(t: Target, canary: OwnerReference): Service {
    Fork(t.manifest).(owners := WithOwner(t.manifest.owners, canary))
  }

  /** The generated original to copy from. */
  function WantedOriginal(t: Target, selector: map<string, string>): Service {
    Generated(Forked(t.manifest), selector, t.table)
  }

  predicate PlanFor(plan: seq<Target>, names: set<string>) {
    && (forall i, j | 0 <= i < j < |plan| :: plan[i].manifest.name != plan[j].manifest.name)
    && (forall i | 0 <= i < |plan| :: plan[i].manifest.name in names)
  }

  // ---------------------------------------------------------------- how far it has come

  /** A fork that was there stays as it was; a new one is what the release manifest says, owned by the canary. */
  predicate ForkRight(start: Services, now: Services, t: Target, canary: OwnerReference) {
    var f := t.manifest.name + FORKED_SUFFIX;
    if f in start then f in now && now[f] == start[f] else f in now ==> now[f].SameAs(WantedFork(t, canary))
  }

  /** The original is as before, or it was at the version the lister had shown and is as a complete takeover of what
      the lister handed out leaves it. */
  predicate OriginalRight(start: Services, now: Services, lister: Services, t: Target, selector: map<string, string>,
                          canary: OwnerReference) {
    var n := t.manifest.name;
    && (n in start <==> n in now)
    && (n in start ==>
          || now[n] == start[n]
          || (&& n in lister && lister[n].resourceVersion == start[n].resourceVersion
              && now[n].SameAs(AfterTakeover(lister[n], WantedOriginal(t, selector), canary))))
  }

  /** Services that are neither originals nor forks nor canary services are as before. */
  ghost predicate OthersKept(start: Services, now: Services, names: set<string>) {
    forall x | x !in names && (forall n | n in names :: x != n + FORKED_SUFFIX && x != n + CANARY_SUFFIX) ::
      (x in start <==> x in now) && (x in start ==> now[x] == start[x])
  }

  predicate ForksRight(start: Services, now: Services, plan: seq<Target>, canary: OwnerReference) {
    forall i | 0 <= i < |plan| :: ForkRight(start, now, plan[i], canary)
  }

  predicate OriginalsRight(start: Services, now: Services, lister: Services, plan: seq<Target>,
                           selector: map<string, string>, canary: OwnerReference) {
    forall i | 0 <= i < |plan| :: OriginalRight(start, now, lister, plan[i], selector, canary)
  }

  /** The originals among `names` are the same. */
  predicate SameOriginals(start: Services, now: Services, names: set<string>) {
    forall n | n in names :: (n in start <==> n in now) && (n in start ==> now[n] == start[n])
  }

  /** The takeover of the original is complete: what the lister handed out pointed at the proxy already, and nothing
      was sent; or its update was stored over the version the lister had shown. */
  predicate TakenOverAt(start: Services, now: Services, lister: Services, t: Target, selector: map<string, string>,
                        canary: OwnerReference) {
    var n := t.manifest.name;
    && n in lister && (n in start <==> n in now)
    && if AlreadyPoints(lister[n], WantedOriginal(t, selector)) then n in start ==> now[n] == start[n]
       else && n in start && lister[n].resourceVersion == start[n].resourceVersion
            && now[n].SameAs(AfterTakeover(lister[n], WantedOriginal(t, selector), canary))
  }

  predicate AllTakenOver(start: Services, now: Services, lister: Services, plan: seq<Target>,
                         selector: map<string, string>, canary: OwnerReference) {
    forall i | 0 <= i < |plan| :: TakenOverAt(start, now, lister, plan[i], selector, canary)
  }

  predicate AllForked(now: Services, plan: seq<Target>) {
    forall i | 0 <= i < |plan| :: plan[i].manifest.name + FORKED_SUFFIX in now
  }

  /** What there is as long as no original was pointed: true forks, and everything else as before. */
  ghost predicate OnlyForksMade(start: Services, now: Services, plan: seq<Target>, canary: OwnerReference,
                                names: set<string>) {
    ForksRight(start, now, plan, canary) && OthersKept(start, now, names) && SameOriginals(start, now, names)
  }

  /** What every sync leaves after its manifest was recorded, however far it came; it points no original before all
      forks exist. */
  ghost predicate PartlySynced(start: Services, now: Services, lister: Services, plan: seq<Target>,
                               selector: map<string, string>, canary: OwnerReference, names: set<string>) {
    && ForksRight(start, now, plan, canary) && OthersKept(start, now, names)
    && OriginalsRight(start, now, lister, plan, selector, canary)
    && (SameOriginals(start, now, names) || AllForked(now, plan))
  }

  // ---------------------------------------------------------------- what each call keeps

  /** Only canary services were written. */
  lemma CanariesWritten(start: Services, now: Services, lister: Services, plan: seq<Target>,
                        selector: map<string, string>, canary: OwnerReference, names: set<string>)
    requires PlanFor(plan, names) && NoClash(names)
    requires OnlyCanariesChanged(start, now, names)
    ensures OnlyForksMade(start, now, plan, canary, names)
    ensures PartlySynced(start, now, lister, plan, selector, canary, names)
  {
    hide WantedFork, WantedOriginal, AfterTakeover;
    forall i, n | 0 <= i < |plan| && n in names ensures plan[i].manifest.name + FORKED_SUFFIX != n + CANARY_SUFFIX {
      SuffixedNamesDiffer(plan[i].manifest.name, n);
    }
  }

  /** The fork of target `k` was created. */
  lemma ForkCreated(start: Services, now: Services, next: Services, lister: Services, plan: seq<Target>, k: nat,
                    selector: map<string, string>, canary: OwnerReference, names: set<string>, version: nat)
    requires PlanFor(plan, names) && NoClash(names) && k < |plan|
    requires var f := plan[k].manifest.name + FORKED_SUFFIX;
             f !in now && next == now[f := WantedFork(plan[k], canary).(resourceVersion := version)]
    ensures ForksRight(start, now, plan, canary) ==> ForksRight(start, next, plan, canary)
    ensures OriginalsRight(start, now, lister, plan, selector, canary) ==>
              OriginalsRight(start, next, lister, plan, selector, canary)
    ensures OthersKept(start, now, names) ==> OthersKept(start, next, names)
    ensures SameOriginals(now, next, names)
  {
    hide WantedFork, WantedOriginal, AfterTakeover;
    forall i | 0 <= i < |plan| && i != k
      ensures plan[i].manifest.name + FORKED_SUFFIX != plan[k].manifest.name + FORKED_SUFFIX
    {
      SuffixedNamesDiffer(plan[i].manifest.name, plan[k].manifest.name);
    }
    var f := WantedFork(plan[k], canary);
    assert f.(resourceVersion := version).SameAs(f);
    if ForksRight(start, now, plan, canary) {
      forall i | 0 <= i < |plan| ensures ForkRight(start, next, plan[i], canary) {
        assert ForkRight(start, now, plan[i], canary);
      }
    }
    if OriginalsRight(start, now, lister, plan, selector, canary) {
      forall i | 0 <= i < |plan| ensures OriginalRight(start, next, lister, plan[i], selector, canary) {
        assert OriginalRight(start, now, lister, plan[i], selector, canary);
      }
    }
  }

  /** The original of target `k` was updated. */
  lemma OriginalUpdated(start: Services, now: Services, next: Services, lister: Services, plan: seq<Target>, k: nat,
                        selector: map<string, string>, canary: OwnerReference, names: set<string>, stored: Service)
    requires PlanFor(plan, names) && NoClash(names) && k < |plan|
    requires plan[k].manifest.name in now && next == now[plan[k].manifest.name := stored]
    ensures ForksRight(start, now, plan, canary) ==> ForksRight(start, next, plan, canary)
    ensures OthersKept(start, now, names) ==> OthersKept(start, next, names)
    ensures AllForked(now, plan) ==> AllForked(next, plan)
    ensures OriginalsRight(start, now, lister, plan, selector, canary)
            && TakenOverAt(start, next, lister, plan[k], selector, canary)
        ==> OriginalsRight(start, next, lister, plan, selector, canary)
    ensures AllTakenOver(start, now, lister, plan[..k], selector, canary) ==>
              AllTakenOver(start, next, lister, plan[..k], selector, canary)
    ensures SameOriginals(now, next, names - {plan[k].manifest.name})
  {
    hide WantedFork, WantedOriginal, AfterTakeover;
    if ForksRight(start, now, plan, canary) {
      forall i | 0 <= i < |plan| ensures ForkRight(start, next, plan[i], canary) {
        assert ForkRight(start, now, plan[i], canary);
      }
    }
    if OriginalsRight(start, now, lister, plan, selector, canary)
       && TakenOverAt(start, next, lister, plan[k], selector, canary) {
      forall i | 0 <= i < |plan| ensures OriginalRight(start, next, lister, plan[i], selector, canary) {
        assert OriginalRight(start, now, lister, plan[i], selector, canary);
      }
    }
    if AllTakenOver(start, now, lister, plan[..k], selector, canary) {
      forall i | 0 <= i < k ensures TakenOverAt(start, next, lister, plan[..k][i], selector, canary) {
        assert TakenOverAt(start, now, lister, plan[..k][i], selector, canary);
      }
    }
  }
}
