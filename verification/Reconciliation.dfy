/** Any number of syncs of one release, whatever failed in them, followed by any number of deprecating cleanups: what
    becomes of an original from before its first fork to the end. */
module Reconciliation {
  import opened Kube
  import opened Takeover
  import opened Rendering
  import opened ApiServer
  import opened Plan
  import opened Preparation
  import opened Recovery
  import opened Cleaning
  import opened Proxy

  /** One sync: the plan it made, if it got that far, and what its lister handed out. */
  datatype Round = Round(plan: seq<Target>, lister: Services)

  /** All manifests of the plan are those of the rendered release. */
  ghost predicate PlannedOf(plan: seq<Target>, origins: Items) {
    forall k | 0 <= k < |plan| ::
      var n := plan[k].manifest.name;
      Find(origins, n) < |origins| && plan[k].manifest == ManifestOf(origins, n)
  }

  /** What one sync, complete or not, makes of the services. */
  ghost predicate IsRound(before: Services, after: Services, r: Round, names: set<string>, origins: Items,
                          selector: map<string, string>, canary: OwnerReference) {
    && PlannedOf(r.plan, origins)
    && (|| OnlyCanariesChanged(before, after, names)
        || (PlanCovers(r.plan, names) && PartlySynced(before, after, r.lister, r.plan, selector, canary, names)))
  }

  /** What a sync leaves in the lister's object for `n`: what the lister handed out, or what a takeover made of it. */
  predicate LeftInCache(r: Round, n: string, s: Service, selector: map<string, string>, canary: OwnerReference) {
    && n in r.lister
    && (|| s == r.lister[n]
        || exists k :: 0 <= k < |r.plan| && r.plan[k].manifest.name == n
                       && s == AfterTakeover(r.lister[n], WantedOriginal(r.plan[k], selector), canary))
  }

  /** The lister of round `i` hands out some version that the server has had, however old, or an object that an earlier
      round was handed out and has perhaps rewritten. */
  predicate Shown(history: seq<Services>, rounds: seq<Round>, i: nat, n: string, selector: map<string, string>,
                  canary: OwnerReference)
    requires i < |rounds| < |history|
  {
    n in rounds[i].lister ==>
      || (exists j :: 0 <= j <= i && n in history[j] && rounds[i].lister[n] == history[j][n])
      || (exists j :: 0 <= j < i && LeftInCache(rounds[j], n, rounds[i].lister[n], selector, canary))
  }

  /** `history` is what a sequence of syncs made of the services, one after the other. */
  ghost predicate Reconciled(history: seq<Services>, rounds: seq<Round>, names: set<string>, origins: Items,
                             selector: map<string, string>, canary: OwnerReference) {
    && |history| == |rounds| + 1
    && (forall i | 0 <= i < |rounds| ::
          IsRound(history[i], history[i + 1], rounds[i], names, origins, selector, canary))
    && (forall i, n | 0 <= i < |rounds| && n in names :: Shown(history, rounds, i, n, selector, canary))
  }

  /** What a lister may hand out next. */
  predicate HandedOut(history: seq<Services>, rounds: seq<Round>, lister: Services, n: string,
                      selector: map<string, string>, canary: OwnerReference) {
    n in lister ==>
      || (exists j :: 0 <= j < |history| && n in history[j] && lister[n] == history[j][n])
      || (exists j :: 0 <= j < |rounds| && LeftInCache(rounds[j], n, lister[n], selector, canary))
  }

  /** One sync more on what the lister hands out. */
  lemma OneMoreRound(history: seq<Services>, rounds: seq<Round>, after: Services, r: Round, names: set<string>,
                     origins: Items, selector: map<string, string>, canary: OwnerReference)
    requires Reconciled(history, rounds, names, origins, selector, canary)
    requires IsRound(history[|rounds|], after, r, names, origins, selector, canary)
    requires forall n | n in names :: HandedOut(history, rounds, r.lister, n, selector, canary)
    ensures Reconciled(history + [after], rounds + [r], names, origins, selector, canary)
  {
    hide IsRound, LeftInCache;
    var longer, more := history + [after], rounds + [r];
    forall i | 0 <= i < |more| ensures IsRound(longer[i], longer[i + 1], more[i], names, origins, selector, canary) {
      if i < |rounds| {
        assert IsRound(history[i], history[i + 1], rounds[i], names, origins, selector, canary);
      }
    }
    forall i, n | 0 <= i < |more| && n in names ensures Shown(longer, more, i, n, selector, canary) {
      if i < |rounds| {
        StillShown(history, rounds, after, r, i, n, selector, canary);
      } else {
        NowShown(history, rounds, after, r, n, selector, canary);
      }
    }
  }

  lemma StillShown(history: seq<Services>, rounds: seq<Round>, after: Services, r: Round, i: nat, n: string,
                   selector: map<string, string>, canary: OwnerReference)
    requires |history| == |rounds| + 1 && i < |rounds| && Shown(history, rounds, i, n, selector, canary)
    ensures Shown(history + [after], rounds + [r], i, n, selector, canary)
  {
    hide LeftInCache;
    var longer, more := history + [after], rounds + [r];
    assert more[i] == rounds[i];
    if n in rounds[i].lister {
      if j :| 0 <= j <= i && n in history[j] && rounds[i].lister[n] == history[j][n] {
        assert longer[j] == history[j];
      } else {
        var j :| 0 <= j < i && LeftInCache(rounds[j], n, rounds[i].lister[n], selector, canary);
        assert more[j] == rounds[j];
      }
    }
  }

  lemma NowShown(history: seq<Services>, rounds: seq<Round>, after: Services, r: Round, n: string,
                 selector: map<string, string>, canary: OwnerReference)
    requires |history| == |rounds| + 1 && HandedOut(history, rounds, r.lister, n, selector, canary)
    ensures Shown(history + [after], rounds + [r], |rounds|, n, selector, canary)
  {
    hide LeftInCache;
    var longer, more := history + [after], rounds + [r];
    assert more[|rounds|] == r;
    if n in r.lister {
      if j :| 0 <= j < |history| && n in history[j] && r.lister[n] == history[j][n] {
        assert longer[j] == history[j];
      } else {
        var j :| 0 <= j < |rounds| && LeftInCache(rounds[j], n, r.lister[n], selector, canary);
        assert more[j] == rounds[j];
      }
    }
  }

  // ---------------------------------------------------------------- what every round keeps

  /** A recovery from the fork makes the same of both. */
  predicate Akin(s: Service, o: Service, origins: Items, n: string, canary: OwnerReference) {
    Find(origins, n) < |origins| ==>
      Recovered(s, Fork(ManifestOf(origins, n)), true,
                canary).SameAs(Recovered(o, Fork(ManifestOf(origins, n)), true, canary))
  }

  /** The original is akin to what it was at first, and is just that as long as its fork does not exist; the fork
      carries the manifest. */
  predicate Tracked(first: Service, now: Services, n: string, origins: Items, canary: OwnerReference) {
    var f := n + FORKED_SUFFIX;
    && n in now && Akin(now[n], first, origins, n, canary)
    && (f !in now ==> now[n] == first)
    && (f in now ==>
          && Find(origins, n) < |origins|
          && now[f].ports == Fork(ManifestOf(origins, n)).ports
          && now[f].selector == Fork(ManifestOf(origins, n)).selector)
  }

  lemma TakenOverIsAkin(s: Service, first: Service, t: Target, origins: Items, n: string, selector: map<string, string>,
                        canary: OwnerReference)
    requires Akin(s, first, origins, n, canary) && Find(origins, n) < |origins| && t.manifest == ManifestOf(origins, n)
    ensures forall u: Service | u.SameAs(AfterTakeover(s, WantedOriginal(t, selector), canary)) ::
              Akin(u, first, origins, n, canary)
  {
    hide AfterTakeover, Generated, Recovered, Fork, Forked;
    TakeoverKeepsRecovery(s, t.manifest, selector, t.table, canary);
    forall u: Service | u.SameAs(AfterTakeover(s, WantedOriginal(t, selector), canary))
      ensures Akin(u, first, origins, n, canary)
    {
      VersionDoesNotMatter(u, AfterTakeover(s, WantedOriginal(t, selector), canary), Fork(t.manifest), true, canary);
    }
  }

  /** One round keeps an original tracked. */
  lemma RoundKeeps(first: Service, before: Services, after: Services, r: Round, names: set<string>, origins: Items,
                   selector: map<string, string>, canary: OwnerReference, n: string)
    requires NoClash(names) && n in names && Tracked(first, before, n, origins, canary)
    requires IsRound(before, after, r, names, origins, selector, canary)
    requires n in r.lister ==> Akin(r.lister[n], first, origins, n, canary)
    ensures Tracked(first, after, n, origins, canary)
  {
    hide Akin, AfterTakeover, WantedOriginal, Fork;
    if OnlyCanariesChanged(before, after, names) {
      forall m | m in names ensures n != m + CANARY_SUFFIX && n + FORKED_SUFFIX != m + CANARY_SUFFIX {
        SuffixedNamesDiffer(n, m);
      }
    } else {
      var k :| 0 <= k < |r.plan| && r.plan[k].manifest.name == n;
      assert OriginalRight(before, after, r.lister, r.plan[k], selector, canary)
             && ForkRight(before, after, r.plan[k], canary);
      NewForkFits(after, r.plan[k], canary);
      if n in r.lister {
        TakenOverIsAkin(r.lister[n], first, r.plan[k], origins, n, selector, canary);
      }
    }
  }

  lemma NewForkFits(now: Services, t: Target, canary: OwnerReference)
    ensures forall f: Service | f.SameAs(WantedFork(t, canary)) ::
              f.ports == Fork(t.manifest).ports && f.selector == Fork(t.manifest).selector
  {
  }

  lemma AlwaysTracked(history: seq<Services>, rounds: seq<Round>, names: set<string>, origins: Items,
                      selector: map<string, string>, canary: OwnerReference, n: string, i: nat)
    requires NoClash(names) && n in names && Reconciled(history, rounds, names, origins, selector, canary)
    requires i < |history|
    requires n in history[0] && n + FORKED_SUFFIX !in history[0]
    ensures Tracked(history[0][n], history[i], n, origins, canary)
    decreases i, 0
  {
    hide IsRound, Shown, Recovered;
    if i > 0 {
      AlwaysTracked(history, rounds, names, origins, selector, canary, n, i - 1);
      HandedOutIsAkin(history, rounds, names, origins, selector, canary, n, i - 1);
      RoundKeeps(history[0][n], history[i - 1], history[i], rounds[i - 1], names, origins, selector, canary, n);
    }
  }

  lemma HandedOutIsAkin(history: seq<Services>, rounds: seq<Round>, names: set<string>, origins: Items,
                        selector: map<string, string>, canary: OwnerReference, n: string, i: nat)
    requires NoClash(names) && n in names && Reconciled(history, rounds, names, origins, selector, canary)
    requires i < |rounds|
    requires n in history[0] && n + FORKED_SUFFIX !in history[0]
    ensures n in rounds[i].lister ==> Akin(rounds[i].lister[n], history[0][n], origins, n, canary)
    decreases i, 1
  {
    hide Akin, AfterTakeover, WantedOriginal;
    if n in rounds[i].lister {
      assert Shown(history, rounds, i, n, selector, canary);
      if j :| 0 <= j <= i && n in history[j] && rounds[i].lister[n] == history[j][n] {
        AlwaysTracked(history, rounds, names, origins, selector, canary, n, j);
      } else {
        var j :| 0 <= j < i && LeftInCache(rounds[j], n, rounds[i].lister[n], selector, canary);
        HandedOutIsAkin(history, rounds, names, origins, selector, canary, n, j);
        if rounds[i].lister[n] != rounds[j].lister[n] {
          var k :| 0 <= k < |rounds[j].plan| && rounds[j].plan[k].manifest.name == n
                   && rounds[i].lister[n]
                        == AfterTakeover(rounds[j].lister[n], WantedOriginal(rounds[j].plan[k], selector), canary);
          assert IsRound(history[j], history[j + 1], rounds[j], names, origins, selector, canary);
          TakenOverIsAkin(rounds[j].lister[n], history[0][n], rounds[j].plan[k], origins, n, selector, canary);
        }
      }
    }
  }

  // ---------------------------------------------------------------- deprecating cleanups

  /** What a sequence of deprecating cleanups made of the services: the proxy starts over as long as its phase is not
      written.  The recovery of each may have been given up, but that of number `k` came through. */
  ghost predicate CleanedInTurn(cleanups: seq<Services>, k: nat, names: set<string>, canary: OwnerReference) {
    && k + 1 < |cleanups|
    && (forall i | 0 <= i < |cleanups| - 1 :: PartlyReverted(cleanups[i], cleanups[i + 1], names, canary))
    && Reverted(cleanups[k], cleanups[k + 1], names, canary)
  }

  /** While the fork `g` is there, and if it is gone: what a recovery from it would make of the original. */
  predicate WouldBecome(now: Services, n: string, g: Service, r: Service, canary: OwnerReference) {
    && n in now && Recovered(now[n], g, true, canary).SameAs(r)
    && (n + FORKED_SUFFIX in now ==> now[n + FORKED_SUFFIX] == g)
  }

  lemma RecoveredTwice(s: Service, g: Service, r: Service, canary: OwnerReference)
    requires Recovered(s, g, true, canary).SameAs(r)
    ensures forall u: Service | u.SameAs(s) || u.SameAs(Recovered(s, g, true, canary)) || u.SameAs(r) ::
              Recovered(u, g, true, canary).SameAs(r)
  {
    hide Recovered;
    RecoveryIsIdempotent(s, g, true, canary);
    forall u: Service | u.SameAs(s) || u.SameAs(Recovered(s, g, true, canary)) || u.SameAs(r)
      ensures Recovered(u, g, true, canary).SameAs(r)
    {
      if u.SameAs(s) {
        VersionDoesNotMatter(u, s, g, true, canary);
      } else {
        VersionDoesNotMatter(u, Recovered(s, g, true, canary), g, true, canary);
      }
    }
  }

  /** No cleanup changes what a recovery from the fork would make of an original, nor an original that is that. */
  lemma CleanupKeeps(before: Services, now: Services, names: set<string>, canary: OwnerReference, n: string, g: Service,
                     r: Service)
    requires NoClash(names) && n in names && PartlyReverted(before, now, names, canary)
    requires WouldBecome(before, n, g, r, canary)
    ensures WouldBecome(now, n, g, r, canary) && (n + FORKED_SUFFIX in now ==> n + FORKED_SUFFIX in before)
    ensures before[n].SameAs(r) ==> now[n].SameAs(r)
    ensures Reverted(before, now, names, canary) && n + FORKED_SUFFIX in before ==> now[n].SameAs(r)
  {
    hide Recovered;
    RecoveredTwice(before[n], g, r, canary);
  }

  /** Once one recovery came through while the fork was there, an original stays what that made of it. */
  lemma CleanupsKeep(cleanups: seq<Services>, k: nat, names: set<string>, canary: OwnerReference, n: string, g: Service,
                     r: Service, i: nat)
    requires NoClash(names) && n in names && CleanedInTurn(cleanups, k, names, canary) && i < |cleanups|
    requires WouldBecome(cleanups[0], n, g, r, canary) && n + FORKED_SUFFIX in cleanups[k]
    ensures WouldBecome(cleanups[i], n, g, r, canary) && (i > k ==> cleanups[i][n].SameAs(r))
  {
    hide WouldBecome, PartlyReverted, Reverted;
    if i > 0 {
      CleanupsKeep(cleanups, k, names, canary, n, g, r, i - 1);
      assert PartlyReverted(cleanups[i - 1], cleanups[i], names, canary);
      OriginalIsThere(cleanups[i - 1], n, g, r, canary);
      CleanupKeeps(cleanups[i - 1], cleanups[i], names, canary, n, g, r);
      OriginalIsThere(cleanups[i], n, g, r, canary);
    } else {
      OriginalIsThere(cleanups[0], n, g, r, canary);
    }
  }

  lemma OriginalIsThere(now: Services, n: string, g: Service, r: Service, canary: OwnerReference)
    requires WouldBecome(now, n, g, r, canary)
    ensures n in now
  {
  }

  /** Without a fork no cleanup touches an original. */
  lemma {:induction false} CleanupsPassOver(cleanups: seq<Services>, k: nat, names: set<string>, canary: OwnerReference,
                                            n: string, i: nat)
    requires CleanedInTurn(cleanups, k, names, canary) && i < |cleanups| && n in names
    requires n in cleanups[0] && n + FORKED_SUFFIX !in cleanups[0]
    ensures n in cleanups[i] && cleanups[i][n].SameAs(cleanups[0][n]) && n + FORKED_SUFFIX !in cleanups[i]
  {
    if i > 0 {
      CleanupsPassOver(cleanups, k, names, canary, n, i - 1);
      assert PartlyReverted(cleanups[i - 1], cleanups[i], names, canary);
    }
  }

  // ---------------------------------------------------------------- result

  /** "Just like nothing had happened" (docs/design.md:83).  However many syncs of the release there were, with whatever
      tables, completed or failed at any point, retried on objects that were fresh, stale or rewritten in place, and
      however many deprecating cleanups, of which one recovered while the fork was there: an original is as it was
      before its first fork exactly if its fork never came to be, or it agreed with the release manifest and the canary
      release did not own it.  In any case nothing but its owners, its selector and its target ports can differ. */
  lemma TakeoverThenDeprecationRestores(history: seq<Services>, rounds: seq<Round>, names: set<string>, origins: Items,
                                        selector: map<string, string>, canary: OwnerReference, cleanups: seq<Services>,
                                        k: nat, n: string)
    requires NoClash(names) && n in names && Reconciled(history, rounds, names, origins, selector, canary)
    requires n in history[0] && n + FORKED_SUFFIX !in history[0]
    requires CleanedInTurn(cleanups, k, names, canary) && cleanups[0] == history[|rounds|]
    requires n + FORKED_SUFFIX in cleanups[0] ==> n + FORKED_SUFFIX in cleanups[k]
    ensures n in cleanups[|cleanups| - 1] && OnlyTargetsDiffer(cleanups[|cleanups| - 1][n], history[0][n])
    ensures n + FORKED_SUFFIX in cleanups[0] ==> Find(origins, n) < |origins|
    ensures var first, mid, end := history[0][n], cleanups[0], cleanups[|cleanups| - 1];
            end[n].SameAs(first) <==>
              || (n + FORKED_SUFFIX !in mid && n in mid && mid[n] == first)
              || (Find(origins, n) < |origins| && Agrees(first, ManifestOf(origins, n))
                  && !HasOwner(first.owners, canary.uid))
  {
    hide Recovered, Agrees, HasOwner, Fork, OnlyTargetsDiffer, IsRound, Shown, PartlyReverted, Reverted;
    var first, mid, f := history[0][n], cleanups[0], n + FORKED_SUFFIX;
    var end := cleanups[|cleanups| - 1];
    AlwaysTracked(history, rounds, names, origins, selector, canary, n, |rounds|);
    if f in mid {
      var fork := Fork(ManifestOf(origins, n));
      TargetIsAll(mid[n], mid[f], fork, true, canary);
      var r := Recovered(first, fork, true, canary);
      CleanupsKeep(cleanups, k, names, canary, n, mid[f], r, |cleanups| - 1);
      RecoveryChangesNothing(first, ManifestOf(origins, n), canary);
      OnlyTargetsChange(first, first, fork, true, canary);
      RecoveryKeepsVersion(first, fork, true, canary);
      RestoredReads(end[n], r, first);
    } else {
      CleanupsPassOver(cleanups, k, names, canary, n, |cleanups| - 1);
      RestoredReads(end[n], first, first);
    }
  }

  lemma TargetIsAll(o: Service, a: Service, b: Service, deleteOwner: bool, canary: OwnerReference)
    requires a.ports == b.ports && a.selector == b.selector
    ensures Recovered(o, a, deleteOwner, canary) == Recovered(o, b, deleteOwner, canary)
  {
  }

  lemma RecoveryKeepsVersion(o: Service, target: Service, deleteOwner: bool, canary: OwnerReference)
    ensures Recovered(o, target, deleteOwner, canary).resourceVersion == o.resourceVersion
  {
  }

  lemma RestoredReads(e: Service, r: Service, s: Service)
    requires e.SameAs(r) && (r == s || OnlyTargetsDiffer(r, s)) && r.resourceVersion == s.resourceVersion
    ensures OnlyTargetsDiffer(e, s) && (e.SameAs(s) <==> r == s)
  {
  }
}
