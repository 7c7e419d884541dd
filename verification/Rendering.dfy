/** renderService: finds every requested service among the generated and the canary objects, forks the generated
    one as a shallow copy, and renames the canary one in place. */
module Rendering {
  import opened Sequences
  import opened Kube
  import opened Upstream
  import opened Objects
  import opened Takeover

  // ---------------------------------------------------------------- on values

  /** A rendered object: a service, or None for an object of another kind. */
  type Items = seq<Option<Service>>

  /** The index of the first service with a name, or |items|. */
  function Find(items: Items, name: string): (k: nat)
    ensures k <= |items|
    ensures k < |items| ==> items[k].Some? && items[k].value.name == name
    ensures forall j | 0 <= j < k :: items[j].Some? ==> items[j].value.name != name
  {
    if items == [] then 0
    else if items[0].Some? && items[0].value.name == name then 0
    else 1 + Find(items[1..], name)
  }

  /** The canary objects after the named ones were renamed in turn; None if one was not found. */
  function RenameInTurn(items: Items, names: seq<string>): Option<Items> {
    if names == [] then Some(items)
    else
      var n := |names| - 1;
      match RenameInTurn(items, names[..n])
      case None => None
      case Some(before) =>
        var k := Find(before, names[n]);
        if k < |before| then Some(before[k := Some(Renamed(before[k].value, CANARY_SUFFIX))]) else None
  }

  predicate DistinctNames(items: Items) {
    forall i, j | 0 <= i < j < |items| && items[i].Some? && items[j].Some? :: items[i].value.name != items[j].value.name
  }

  predicate AllFound(items: Items, names: seq<string>) {
    forall n | n in names :: Find(items, n) < |items|
  }

  /** Every requested service, and that is the first one of its name, is renamed once, and nothing else changes. */
  function RenamedItem(items: Items, names: seq<string>, x: nat): Option<Service>
    requires x < |items|
  {
    if items[x].Some? && items[x].value.name in names && Find(items, items[x].value.name) == x
    then Some(Renamed(items[x].value, CANARY_SUFFIX)) else items[x]
  }

  function RenamedItems(items: Items, names: seq<string>): (r: Items)
    ensures |r| == |items| && forall x | 0 <= x < |r| :: r[x] == RenamedItem(items, names, x)
  {
    seq(|items|, x requires 0 <= x < |items| => RenamedItem(items, names, x))
  }

  /** The requested names are distinct and all there, and where one is another one's with the canary suffix, its service
      comes first, so that the renamed one is not found in its place. */
  predicate InOrder(items: Items, names: seq<string>) {
    && NoRepeats(names) && AllFound(items, names)
    && forall i, j | 0 <= i < j < |names| && names[j] == names[i] + CANARY_SUFFIX ::
         Find(items, names[j]) < Find(items, names[i])
  }

  lemma PrefixInOrder(items: Items, names: seq<string>)
    requires names != []
    ensures var n := |names| - 1;
            InOrder(items, names) <==>
              && InOrder(items, names[..n]) && names[n] !in names[..n] && Find(items, names[n]) < |items|
              && forall i | 0 <= i < n && names[n] == names[i] + CANARY_SUFFIX ::
                   Find(items, names[n]) < Find(items, names[i])
  {
    hide Find;
    LastIsNew(names);
    assert names == names[..|names| - 1] + [names[|names| - 1]];
  }

  /** Turn by turn: nothing, one renaming, or more, which leaves a longer name. */
  predicate Grown(item: Option<Service>, next: Option<Service>) {
    || next == item
    || (&& item.Some? && next.Some?
        && (next.value == Renamed(item.value, CANARY_SUFFIX)
            || |next.value.name| > |Renamed(item.value, CANARY_SUFFIX).name|))
  }

  lemma {:induction false} RenamingGrows(items: Items, names: seq<string>)
    requires RenameInTurn(items, names).Some?
    ensures |RenameInTurn(items, names).value| == |items|
    ensures forall x | 0 <= x < |items| :: Grown(items[x], RenameInTurn(items, names).value[x])
  {
    hide Find;
    if names != [] {
      RenamingGrows(items, names[..|names| - 1]);
    }
  }

  /** In order: the next one is found where it was. */
  lemma NextInOrder(items: Items, names: seq<string>, next: string)
    requires next !in names && Find(items, next) < |items|
    requires forall n | n in names && next == n + CANARY_SUFFIX :: Find(items, next) < Find(items, n)
    ensures Find(RenamedItems(items, names), next) == Find(items, next)
    ensures RenamedItems(items, names)[Find(items, next)] == items[Find(items, next)]
    ensures RenamedItems(items,
                         names)[Find(items, next) := Some(Renamed(items[Find(items, next)].value, CANARY_SUFFIX))]
         == RenamedItems(items, names + [next])
  {
    hide Find;
    var k, before, after := Find(items, next), RenamedItems(items, names), RenamedItems(items, names + [next]);
    assert before[k] == items[k];
    forall x | 0 <= x < k && before[x].Some? ensures before[x].value.name != next {
      assert before[x] == RenamedItem(items, names, x);
    }
    FirstFound(before, next, k);
    forall x | 0 <= x < |items| && x != k ensures before[x] == after[x] {
      assert items[x].Some? && items[x].value.name == next ==> Find(items, next) != x;
    }
  }

  lemma {:induction false} FirstFound(items: Items, name: string, k: nat)
    requires k < |items| && items[k].Some? && items[k].value.name == name
    requires forall j | 0 <= j < k :: items[j].Some? ==> items[j].value.name != name
    ensures Find(items, name) == k
  {
  }

  lemma AtNextTurn(items: Items, names: seq<string>)
    requires names != []
    ensures var n := |names| - 1;
            RenameInTurn(items, names).Some? ==>
              && RenameInTurn(items, names[..n]).Some?
              && var before := RenameInTurn(items, names[..n]).value;
                 var f := Find(before, names[n]);
                 f < |before|
                 && RenameInTurn(items, names).value == before[f := Some(Renamed(before[f].value, CANARY_SUFFIX))]
  {
  }

  predicate OnceAtMost(items: Items, now: Items) {
    |now| == |items| && forall x | 0 <= x < |items| ::
      now[x] == items[x] || (items[x].Some? && now[x] == Some(Renamed(items[x].value, CANARY_SUFFIX)))
  }

  /** If nothing was renamed twice, the last turn renamed a service that had its own name, and before it nothing was
      renamed twice either. */
  lemma LastHadItsName(items: Items, names: seq<string>)
    requires names != [] && RenameInTurn(items, names).Some? && OnceAtMost(items, RenameInTurn(items, names).value)
    ensures var n := |names| - 1;
            && RenameInTurn(items, names[..n]).Some?
            && var before := RenameInTurn(items, names[..n]).value;
               var f := Find(before, names[n]);
               && f < |before| && OnceAtMost(items, before) && before[f] == items[f]
               && RenameInTurn(items, names).value == before[f := Some(Renamed(items[f].value, CANARY_SUFFIX))]
  {
    hide Find, RenameInTurn;
    var n := |names| - 1;
    AtNextTurn(items, names);
    RenamingGrows(items, names[..n]);
    var before, result := RenameInTurn(items, names[..n]).value, RenameInTurn(items, names).value;
    var f := Find(before, names[n]);
    assert Grown(items[f], before[f]);
    assert |result[f].value.name| == |before[f].value.name| + |CANARY_SUFFIX|;
  }

  predicate HadTurn(items: Items, now: Items, name: string) {
    exists x :: 0 <= x < |items| == |now| && items[x].Some? && items[x].value.name == name
                && now[x] == Some(Renamed(items[x].value, CANARY_SUFFIX))
  }

  /** Then each name had a service of its own. */
  lemma {:induction false} EachHadTurn(items: Items, names: seq<string>)
    requires RenameInTurn(items, names).Some? && OnceAtMost(items, RenameInTurn(items, names).value)
    ensures forall n | n in names :: HadTurn(items, RenameInTurn(items, names).value, n)
  {
    hide Find, RenameInTurn;
    if names != [] {
      var n := |names| - 1;
      LastHadItsName(items, names);
      EachHadTurn(items, names[..n]);
      var before, result := RenameInTurn(items, names[..n]).value, RenameInTurn(items, names).value;
      var f := Find(before, names[n]);
      assert RenamedDiffers(items[f].value);
      forall m | m in names ensures HadTurn(items, result, m) {
        if m in names[..n] {
          var x :| 0 <= x < |items| == |before| && items[x].Some? && items[x].value.name == m
                   && before[x] == Some(Renamed(items[x].value, CANARY_SUFFIX));
          assert x != f && result[x] == before[x];
        } else {
          assert m == names[n] && items[f].value.name == m;
        }
      }
    }
  }

  predicate RenamedDiffers(s: Service)
    ensures RenamedDiffers(s)
  {
    assert |Renamed(s, CANARY_SUFFIX).name| != |s.name|;
    Renamed(s, CANARY_SUFFIX) != s
  }

  lemma ItemBeforeLast(items: Items, names: seq<string>, x: nat)
    requires names != [] && x < |items|
    ensures x != Find(items, names[|names| - 1]) ==>
              RenamedItem(items, names[..|names| - 1], x) == RenamedItem(items, names, x)
    ensures RenamedItem(items, names, x) != items[x] ==> items[x].Some? && Find(items, items[x].value.name) == x
    ensures items[x].Some? && items[x].value.name !in names ==> RenamedItem(items, names, x) == items[x]
  {
  }

  /** What came out in order: the last turn was that of the first service of a new name. */
  lemma LastWasNew(items: Items, names: seq<string>)
    requires names != [] && RenameInTurn(items, names) == Some(RenamedItems(items, names))
    ensures var n := |names| - 1;
            && RenameInTurn(items, names[..n]).Some?
            && var before, k := RenameInTurn(items, names[..n]).value, Find(items, names[n]);
               && names[n] !in names[..n] && k < |items| && |before| == |items| && Find(before, names[n]) == k
               && before[k] == items[k]
               && RenamedItems(items, names) == before[k := Some(Renamed(items[k].value, CANARY_SUFFIX))]
  {
    hide Find, RenameInTurn, Renamed, RenamedItem, RenamedItems;
    var n := |names| - 1;
    RenamedAtMostOnce(items, names);
    LastHadItsName(items, names);
    var before := RenameInTurn(items, names[..n]).value;
    var f := Find(before, names[n]);
    assert RenamedDiffers(items[f].value);
    ItemBeforeLast(items, names, f);
    if names[n] in names[..n] {
      EachHadTurn(items, names[..n]);
      assert HadTurn(items, before, names[n]);
      var x :| 0 <= x < |items| == |before| && items[x].Some? && items[x].value.name == names[n]
               && before[x] == Some(Renamed(items[x].value, CANARY_SUFFIX));
      assert RenamedDiffers(items[x].value);
      ItemBeforeLast(items, names, x);
      assert false;
    }
  }

  /** And the turns before it left their services in order. */
  lemma LastWasInOrder(items: Items, names: seq<string>)
    requires names != [] && RenameInTurn(items, names) == Some(RenamedItems(items, names))
    ensures var n := |names| - 1;
            var k := Find(items, names[n]);
            && names[n] !in names[..n] && k < |items|
            && RenameInTurn(items, names[..n]) == Some(RenamedItems(items, names[..n]))
            && Find(RenamedItems(items, names[..n]), names[n]) == k && RenamedItems(items, names[..n])[k] == items[k]
  {
    hide Find, RenameInTurn, Renamed, RenamedItem, RenamedItems;
    var n := |names| - 1;
    LastWasNew(items, names);
    var before, k := RenameInTurn(items, names[..n]).value, Find(items, names[n]);
    forall x | 0 <= x < |items| ensures before[x] == RenamedItems(items, names[..n])[x] {
      if x == k {
        ItemOfOthers(items, names[..n], x);
      } else {
        ItemBeforeLast(items, names, x);
        assert before[x] == RenamedItems(items, names)[x];
      }
    }
    assert before == RenamedItems(items, names[..n]);
  }

  lemma ItemOfOthers(items: Items, names: seq<string>, x: nat)
    requires x < |items| && (items[x].Some? ==> items[x].value.name !in names)
    ensures RenamedItem(items, names, x) == items[x]
  {
  }

  lemma RenamedAtMostOnce(items: Items, names: seq<string>)
    ensures OnceAtMost(items, RenamedItems(items, names))
  {
  }

  /** Rendering renames each requested service once and nothing else exactly if the names are in order. */
  lemma {:induction false} EachRenamedOnce(items: Items, names: seq<string>)
    ensures RenameInTurn(items, names) == Some(RenamedItems(items, names)) <==> InOrder(items, names)
  {
    hide Find, Renamed;
    if names == [] {
      assert RenamedItems(items, names) == items;
    } else {
      var n := |names| - 1;
      assert names == names[..n] + [names[n]];
      PrefixInOrder(items, names);
      EachRenamedOnce(items, names[..n]);
      if InOrder(items, names) {
        NextInOrder(items, names[..n], names[n]);
      }
      if RenameInTurn(items, names) == Some(RenamedItems(items, names)) {
        LastWasInOrder(items, names);
        forall i | 0 <= i < n && names[n] == names[i] + CANARY_SUFFIX
          ensures Find(items, names[n]) < Find(items, names[i])
        {
          assert names[..n][i] in names[..n];
          RenamedComesLater(items, names[..n], names[n], names[i]);
        }
      }
    }
  }

  lemma FindIsFirst(items: Items, name: string, x: nat)
    requires x < |items| && items[x].Some? && items[x].value.name == name
    ensures Find(items, name) <= x
  {
  }

  lemma FirstIsRenamed(items: Items, names: seq<string>, name: string)
    requires name in names && Find(items, name) < |items|
    ensures RenamedItem(items, names, Find(items, name)) == Some(Renamed(items[Find(items, name)].value, CANARY_SUFFIX))
  {
  }

  lemma RenamedComesLater(items: Items, names: seq<string>, next: string, name: string)
    requires name in names && Find(items, name) < |items| && next == name + CANARY_SUFFIX && Find(items, next) < |items|
    requires Find(RenamedItems(items, names), next) == Find(items, next)
    requires RenamedItems(items, names)[Find(items, next)] == items[Find(items, next)]
    ensures Find(items, next) < Find(items, name)
  {
    hide Find, RenamedItem, RenamedItems;
    var before, g := RenamedItems(items, names), Find(items, name);
    FirstIsRenamed(items, names, name);
    assert RenamedDiffers(items[g].value) && before[g] != items[g];
    FindIsFirst(before, next, g);
  }

  /** Without two requested names that the canary suffix leads from one to the other, and without repetition, whatever
      renders is in order. */
  lemma {:induction false} UnrelatedIsInOrder(items: Items, names: seq<string>)
    requires Unrelated(names)
    ensures RenameInTurn(items, names).Some? && NoRepeats(names) <==> InOrder(items, names)
  {
    hide Find, Renamed, RenameInTurn, InOrder;
    EachRenamedOnce(items, names);
    if names == [] {
      NothingToRename(items);
    } else {
      var n := |names| - 1;
      LastIsNew(names);
      LastIsUnrelated(names);
      UnrelatedIsInOrder(items, names[..n]);
      EachRenamedOnce(items, names[..n]);
      PrefixInOrder(items, names);
      if RenameInTurn(items, names).Some? && NoRepeats(names) {
        AtNextTurn(items, names);
        FoundUnderItsName(items, names[..n], names[n]);
      }
      InOrderIsDistinct(items, names);
    }
  }

  lemma InOrderIsDistinct(items: Items, names: seq<string>)
    ensures InOrder(items, names) ==> NoRepeats(names)
  {
  }

  lemma FoundUnderItsName(items: Items, names: seq<string>, next: string)
    requires forall m | m in names :: next != m + CANARY_SUFFIX
    requires Find(RenamedItems(items, names), next) < |items|
    ensures items[Find(RenamedItems(items, names), next)].Some?
    ensures items[Find(RenamedItems(items, names), next)].value.name == next && Find(items, next) < |items|
  {
    hide Find;
    var before := RenamedItems(items, names);
    var f := Find(before, next);
    assert before[f] == RenamedItem(items, names, f);
    assert items[f].Some? && items[f].value.name == next;
  }

  /** A name is requested twice only if that does not render. */
  predicate RendersOnce(items: Items, names: seq<string>) {
    RenameInTurn(items, names).Some? ==> NoRepeats(names)
  }

  /** That is so among objects of distinct names. */
  lemma {:induction false} DistinctRendersOnce(items: Items, names: seq<string>)
    requires DistinctNames(items) && Unrelated(names)
    ensures RendersOnce(items, names)
  {
    hide Find, Renamed, RenameInTurn, InOrder, DistinctNames;
    if names != [] {
      var n := |names| - 1;
      LastIsNew(names);
      LastIsUnrelated(names);
      DistinctRendersOnce(items, names[..n]);
      UnrelatedIsInOrder(items, names[..n]);
      EachRenamedOnce(items, names[..n]);
      if RenameInTurn(items, names).Some? {
        AtNextTurn(items, names);
        FoundUnderItsName(items, names[..n], names[n]);
        FoundAgain(items, names[..n], names[n]);
      }
    }
  }

  lemma FoundAgain(items: Items, names: seq<string>, next: string)
    requires DistinctNames(items) && Find(RenamedItems(items, names), next) < |items|
    requires items[Find(RenamedItems(items, names), next)].Some?
    requires items[Find(RenamedItems(items, names), next)].value.name == next
    ensures next !in names
  {
    hide Find;
    var f := Find(RenamedItems(items, names), next);
    assert RenamedItems(items, names)[f] == RenamedItem(items, names, f);
    assert Find(items, next) == f;
  }

  predicate Unrelated(names: seq<string>) {
    forall m, n | m in names && n in names :: n != m + CANARY_SUFFIX
  }

  lemma LastIsUnrelated(names: seq<string>)
    requires names != [] && Unrelated(names)
    ensures Unrelated(names[..|names| - 1]) && forall m | m in names[..|names| - 1] ::
              names[|names| - 1] != m + CANARY_SUFFIX
  {
    var init := names[..|names| - 1];
    assert names[|names| - 1] in names;
    forall m, n | m in init && n in init ensures n != m + CANARY_SUFFIX {
      assert m in names && n in names;
    }
  }

  lemma NothingToRename(items: Items)
    ensures RenameInTurn(items, []).Some? && InOrder(items, [])
  {
  }

  lemma LastIsNew(names: seq<string>)
    requires names != []
    ensures var n := |names| - 1;
            NoRepeats(names) <==> NoRepeats(names[..n]) && names[n] !in names[..n]
  {
  }

  // ---------------------------------------------------------------- on the heap

  /** Rendered objects; null stands for an object that is not a Service. */
  type ObjectList = seq<ServiceObject?>

  predicate Held(objs: ObjectList, items: Items)
    reads set o: ServiceObject | o in objs
    reads set o: ServiceObject | o in objs :: o.ports
  {
    |objs| == |items| && forall i | 0 <= i < |objs| ::
      if objs[i] == null then items[i].None? else items[i] == Some(objs[i].View())
  }

  /** Decoded objects share nothing. */
  predicate Apart(objs: ObjectList) {
    forall i, j | 0 <= i < j < |objs| && objs[i] != null && objs[j] != null ::
      objs[i] != objs[j] && objs[i].ports != objs[j].ports
  }

  predicate ApartFrom(a: ObjectList, b: ObjectList) {
    forall o, q | o in a && q in b && o != null && q != null :: o != q && o.ports != q.ports
  }

  method GetService(objs: ObjectList, name: string, ghost items: Items) returns (found: ServiceObject?)
    requires Held(objs, items)
    ensures found == if Find(items, name) < |objs| then objs[Find(items, name)] else null
    ensures found != null <==> Find(items, name) < |objs|
  {
    var i := 0;
    while i < |objs|
      invariant 0 <= i <= |objs|
      invariant forall j | 0 <= j < i :: items[j].Some? ==> items[j].value.name != name
    {
      if objs[i] != null && objs[i].name == name {
        FirstFound(items, name, i);
        return objs[i];
      }
      i := i + 1;
    }
    found := null;
    assert Find(items, name) == |items|;
  }

  method ZeroNodePorts(ports: array<ServicePort>)
    modifies ports
    ensures ports[..] == WithoutNodePorts(old(ports[..]))
  {
    var i := 0;
    while i < ports.Length
      invariant 0 <= i <= ports.Length
      invariant forall k | 0 <= k < i :: ports[k] == old(ports[k]).(nodePort := 0)
      invariant forall k | i <= k < ports.Length :: ports[k] == old(ports[k])
    {
      ports[i] := ports[i].(nodePort := 0);
      i := i + 1;
    }
  }

  /** `copy := *s.origin` shares the port array, so zeroing the fork's node ports zeroes the origin's. */
  method ForkService(origin: ServiceObject) returns (forked: ServiceObject)
    modifies origin.ports
    ensures fresh(forked) && forked.ports == origin.ports
    ensures forked.View() == Fork(old(origin.View())) && origin.View() == Forked(old(origin.View()))
  {
    forked := new ServiceObject(origin.View(), origin.ports);
    forked.name := forked.name + FORKED_SUFFIX;
    if forked.serviceType == NodePort {
      ZeroNodePorts(forked.ports);
    }
    forked.serviceType := ClusterIP;
  }

  method RenameCanary(canary: ServiceObject)
    modifies canary`name, canary`serviceType, canary.ports
    ensures canary.View() == Renamed(old(canary.View()), CANARY_SUFFIX)
  {
    canary.name := canary.name + CANARY_SUFFIX;
    if canary.serviceType == NodePort {
      ZeroNodePorts(canary.ports);
    }
    canary.serviceType := ClusterIP;
  }

  /** An entry of cr.spec.services. */
  datatype CanaryService = CanaryService(service: string, ports: array<CanaryPort>)

  function ServiceNames(spec: seq<CanaryService>): (r: seq<string>)
    ensures |r| == |spec| && forall i | 0 <= i < |r| :: r[i] == spec[i].service
  {
    seq(|spec|, i requires 0 <= i < |spec| => spec[i].service)
  }

  /** Generated item `k` after the named services were forked. */
  function ForkedItem(origins: Items, names: seq<string>, k: nat): Option<Service>
    requires k < |origins|
  {
    if origins[k].Some? && origins[k].value.name in names && Find(origins, origins[k].value.name) == k
    then Some(Forked(origins[k].value)) else origins[k]
  }

  function ForkedItems(origins: Items, names: seq<string>): (r: Items)
    ensures |r| == |origins| && forall k | 0 <= k < |r| :: r[k] == ForkedItem(origins, names, k)
  {
    seq(|origins|, k requires 0 <= k < |origins| => ForkedItem(origins, names, k))
  }

  lemma FindAfterForking(origins: Items, names: seq<string>, name: string)
    ensures Find(ForkedItems(origins, names), name) == Find(origins, name)
  {
    var k := Find(origins, name);
    var items := ForkedItems(origins, names);
    if k < |origins| {
      FirstFound(items, name, k);
    } else {
      assert forall i | 0 <= i < |items| && items[i].Some? :: items[i].value.name != name;
    }
  }

  /** The collection made for one service, whose generated object is `manifest`. */
  predicate Made(c: ServiceCollection, svc: CanaryService, manifest: Service, origin: ServiceObject?,
                 canary: ServiceObject?, inCluster: ServiceObject)
    reads c, c.forked
  {
    && c.service == svc.service && c.canaryPorts == svc.ports && c.name == "" && c.upstreamPorts == map[]
    && c.origin == origin && c.canary == canary && c.inCluster == inCluster
    && c.forked.ports == c.origin.ports && ForkOf(c.forked, manifest)
  }

  /** All fields of the fork of `manifest` but the ports, which it shares. */
  predicate ForkOf(forked: ServiceObject, manifest: Service)
    reads forked
  {
    && forked.name == manifest.name + FORKED_SUFFIX && forked.serviceType == ClusterIP
    && forked.resourceVersion == manifest.resourceVersion && forked.owners == manifest.owners
    && forked.selector == manifest.selector && forked.otherFields == manifest.otherFields
  }

  method ForkAmong(objs: ObjectList, origin: ServiceObject, ghost k: nat,
                   ghost items: Items) returns (forked: ServiceObject)
    requires Held(objs, items) && Apart(objs) && k < |objs| && objs[k] == origin
    modifies origin.ports
    ensures fresh(forked) && forked.ports == origin.ports && ForkOf(forked, items[k].value)
    ensures Held(objs, items[k := Some(Forked(items[k].value))])
  {
    hide Forked;
    forked := ForkService(origin);
  }

  method RenameAmong(objs: ObjectList, canary: ServiceObject, ghost m: nat, ghost items: Items)
    requires Held(objs, items) && Apart(objs) && m < |objs| && objs[m] == canary
    modifies canary`name, canary`serviceType, canary.ports
    ensures Held(objs, items[m := Some(Renamed(items[m].value, CANARY_SUFFIX))])
  {
    hide Renamed;
    RenameCanary(canary);
  }

  /** One round of renderService. */
  method RenderOne(originObjs: ObjectList, canaryObjs: ObjectList, svc: CanaryService,
                   cached: map<string, ServiceObject>, ghost origins: Items, ghost canaries: Items)
    returns (c: Option<ServiceCollection>, ghost k: nat, ghost m: nat)
    requires Held(originObjs, origins) && Held(canaryObjs, canaries)
    requires Apart(originObjs) && Apart(canaryObjs) && ApartFrom(originObjs, canaryObjs)
    modifies set o: ServiceObject | o in originObjs :: o.ports
    modifies set o: ServiceObject | o in canaryObjs :: o.ports
    modifies (set o: ServiceObject | o in canaryObjs)`name, (set o: ServiceObject | o in canaryObjs)`serviceType
    ensures k == Find(origins, svc.service) && m == Find(canaries, svc.service)
    ensures c.Some? <==> k < |originObjs| && svc.service in cached && m < |canaryObjs|
    ensures c.Some? ==>
              && fresh(c.value) && fresh(c.value.forked)
              && Made(c.value, svc, origins[k].value, originObjs[k], canaryObjs[m], cached[svc.service])
              && Held(originObjs, origins[k := Some(Forked(origins[k].value))])
              && Held(canaryObjs, canaries[m := Some(Renamed(canaries[m].value, CANARY_SUFFIX))])
  {
    hide Find, ForkOf, Forked, Renamed, Apart;
    k, m := Find(origins, svc.service), Find(canaries, svc.service);
    var origin := GetService(originObjs, svc.service, origins);
    if origin == null {
      return None, k, m;
    }
    var forked := ForkAmong(originObjs, origin, k, origins);
    if svc.service !in cached {
      return None, k, m;
    }
    assert Held(canaryObjs, canaries);
    var canary := GetService(canaryObjs, svc.service, canaries);
    if canary == null {
      return None, k, m;
    }
    RenameAmong(canaryObjs, canary, m, canaries);
    var made := new ServiceCollection(svc.service, svc.ports, origin, cached[svc.service], forked, canary);
    c := Some(made);
  }

  /** What one more name does to the generated items; forking one again changes nothing. */
  lemma ForkNext(origins: Items, names: seq<string>, i: nat)
    requires i < |names|
    ensures var os, k := ForkedItems(origins, names[..i]), Find(origins, names[i]);
            && Find(os, names[i]) == k
            && (k < |origins| ==>
                  && os[k].Some? && (forall c: ServiceObject :: ForkOf(c, os[k].value) <==> ForkOf(c, origins[k].value))
                  && os[k := Some(Forked(os[k].value))] == ForkedItems(origins, names[..i + 1]))
  {
    hide Forked, ForkedItems, Find, ForkOf;
    PrefixNext(names, i);
    ForkOneMore(origins, names[..i], names[i]);
  }

  lemma ForkOneMore(origins: Items, names: seq<string>, name: string)
    ensures var os, k := ForkedItems(origins, names), Find(origins, name);
            && Find(os, name) == k
            && (k < |origins| ==>
                  && os[k].Some? && (forall c: ServiceObject :: ForkOf(c, os[k].value) <==> ForkOf(c, origins[k].value))
                  && os[k := Some(Forked(os[k].value))] == ForkedItems(origins, names + [name]))
  {
    hide Forked, Find, ForkOf;
    var os, k := ForkedItems(origins, names), Find(origins, name);
    FindAfterForking(origins, names, name);
    if k < |origins| {
      ForkedTwice(origins[k].value);
      var next := ForkedItems(origins, names + [name]);
      forall x | 0 <= x < |origins| && x != k ensures os[x] == next[x] {
        ForkItemNext(origins, names, name, x);
      }
    }
  }

  lemma ForkedTwice(s: Service)
    ensures Forked(Forked(s)) == Forked(s) && forall c: ServiceObject :: ForkOf(c, Forked(s)) <==> ForkOf(c, s)
  {
  }

  lemma ForkItemNext(origins: Items, names: seq<string>, name: string, x: nat)
    requires x < |origins| && x != Find(origins, name)
    ensures ForkedItem(origins, names + [name], x) == ForkedItem(origins, names, x)
  {
  }

  /** Where the canary object of entry `j` is found when its turn comes, or |items|. */
  function TurnOf(items: Items, names: seq<string>, j: nat): nat
    requires j < |names|
  {
    match RenameInTurn(items, names[..j])
    case None => |items|
    case Some(before) => Find(before, names[j])
  }

  /** The collection of an entry whose canary object is the `m`-th. */
  predicate MadeFor(c: ServiceCollection, svc: CanaryService, originObjs: ObjectList, canaryObjs: ObjectList,
                    cached: map<string, ServiceObject>, origins: Items, m: nat)
    reads c, c.forked
  {
    var k := Find(origins, svc.service);
    && k < |origins| == |originObjs| && m < |canaryObjs| && svc.service in cached
    && Made(c, svc, origins[k].value, originObjs[k], canaryObjs[m], cached[svc.service])
  }

  lemma {:induction false} PrefixRenames(items: Items, names: seq<string>, i: nat)
    requires i <= |names| && RenameInTurn(items, names).Some?
    ensures RenameInTurn(items, names[..i]).Some?
  {
    if i == |names| {
      assert names[..i] == names;
    } else {
      PrefixRenames(items, names[..|names| - 1], i);
      assert names[..|names| - 1][..i] == names[..i];
    }
  }

  lemma TurnTaken(items: Items, names: seq<string>, i: nat)
    requires i < |names| && RenameInTurn(items, names[..i]).Some?
    ensures var before, m := RenameInTurn(items, names[..i]).value, TurnOf(items, names, i);
            && |before| == |items|
            && RenameInTurn(items, names[..i + 1])
                == if m < |items| then Some(before[m := Some(Renamed(before[m].value, CANARY_SUFFIX))]) else None
  {
    RenamingGrows(items, names[..i]);
    assert names[..i + 1][..i] == names[..i];
  }

  /** In order, the turn of each entry finds the service of its name. */
  lemma TurnInOrder(items: Items, names: seq<string>, j: nat)
    requires j < |names| && InOrder(items, names)
    ensures TurnOf(items, names, j) == Find(items, names[j])
  {
    hide Find, RenameInTurn;
    EachRenamedOnce(items, names[..j]);
    assert names[j] !in names[..j];
    NextInOrder(items, names[..j], names[j]);
  }

  /** Each name is among the generated objects, in the lister and, at its turn, among the canary objects. */
  predicate Renders(origins: Items, canaries: Items, names: seq<string>, cached: set<string>) {
    AllFound(origins, names) && RenameInTurn(canaries, names).Some? && forall n | n in names :: n in cached
  }

  /** Rendering succeeds exactly if each name is among the generated objects, in the lister and, at its turn, among the
      canary objects as the earlier turns have renamed them.  It then makes one collection per entry, and leaves every
      requested original forked. */
  method RenderService(originObjs: ObjectList, canaryObjs: ObjectList, spec: seq<CanaryService>,
                       cached: map<string, ServiceObject>, ghost origins: Items, ghost canaries: Items)
    returns (result: Option<seq<ServiceCollection>>)
    requires Held(originObjs, origins) && Held(canaryObjs, canaries)
    requires Apart(originObjs) && Apart(canaryObjs) && ApartFrom(originObjs, canaryObjs)
    modifies set o: ServiceObject | o in originObjs :: o.ports
    modifies set o: ServiceObject | o in canaryObjs :: o.ports
    modifies (set o: ServiceObject | o in canaryObjs)`name, (set o: ServiceObject | o in canaryObjs)`serviceType
    ensures result.Some? <==> Renders(origins, canaries, ServiceNames(spec), cached.Keys)
    ensures result.Some? ==>
              && |result.value| == |spec|
              && (forall j | 0 <= j < |spec| ::
                    MadeFor(result.value[j], spec[j], originObjs, canaryObjs, cached, origins,
                            TurnOf(canaries, ServiceNames(spec), j)))
              && (forall j | 0 <= j < |spec| :: fresh(result.value[j]) && fresh(result.value[j].forked))
              && Held(originObjs, ForkedItems(origins, ServiceNames(spec)))
              && Held(canaryObjs, RenameInTurn(canaries, ServiceNames(spec)).value)
  {
    hide Find, Forked, Renamed, ForkOf, Held, Apart, ApartFrom, RenameInTurn, TurnOf;
    ghost var names := ServiceNames(spec);
    var services: seq<ServiceCollection> := [];
    var i := 0;
    NothingRendered(origins, canaries, names);
    HeldLength(originObjs, origins);
    HeldLength(canaryObjs, canaries);
    while i < |spec|
      invariant 0 <= i == |services| <= |spec|
      invariant RenameInTurn(canaries, names[..i]).Some? && Held(canaryObjs, RenameInTurn(canaries, names[..i]).value)
      invariant Held(originObjs, ForkedItems(origins, names[..i]))
      invariant forall j | 0 <= j < i ::
                  MadeFor(services[j], spec[j], originObjs, canaryObjs, cached, origins, TurnOf(canaries, names, j))
      invariant forall j | 0 <= j < i :: fresh(services[j]) && fresh(services[j].forked)
    {
      TurnTaken(canaries, names, i);
      TurnMeans(canaries, names, i);
      FindAfterForking(origins, names[..i], names[i]);
      var c;
      ghost var k, m;
      label Before:
      c, k, m := RenderOne(originObjs, canaryObjs, spec[i], cached,
                           ForkedItems(origins, names[..i]), RenameInTurn(canaries, names[..i]).value);
      if c.None? {
        RenderFails(origins, canaries, names, i, cached);
        return None;
      }
      ForkNext(origins, names, i);
      assert MadeFor(c.value, spec[i], originObjs, canaryObjs, cached, origins, TurnOf(canaries, names, i));
      forall j | 0 <= j < i
        ensures MadeFor(services[j], spec[j], originObjs, canaryObjs, cached, origins, TurnOf(canaries, names, j))
      {
        assert unchanged@Before(services[j]) && unchanged@Before(services[j].forked);
      }
      services := services + [c.value];
      i := i + 1;
    }
    assert names[..i] == names;
    result := Some(services);
    forall n | n in names ensures Find(origins, n) < |origins| && n in cached {
      var j :| 0 <= j < |names| && names[j] == n;
      assert MadeFor(services[j], spec[j], originObjs, canaryObjs, cached, origins, TurnOf(canaries, names, j));
    }
  }

  lemma TurnMeans(items: Items, names: seq<string>, i: nat)
    requires i < |names| && RenameInTurn(items, names[..i]).Some?
    ensures TurnOf(items, names, i) == Find(RenameInTurn(items, names[..i]).value, names[i])
  {
  }

  lemma HeldLength(objs: ObjectList, items: Items)
    requires Held(objs, items)
    ensures |objs| == |items|
  {
  }

  lemma NothingRendered(origins: Items, canaries: Items, names: seq<string>)
    ensures RenameInTurn(canaries, names[..0]) == Some(canaries) && ForkedItems(origins, names[..0]) == origins
  {
  }

  lemma RenderFails(origins: Items, canaries: Items, names: seq<string>, i: nat, cached: map<string, ServiceObject>)
    requires i < |names| && RenameInTurn(canaries, names[..i]).Some?
    requires Find(origins, names[i]) == |origins| || names[i] !in cached || TurnOf(canaries, names, i) >= |canaries|
    ensures !(AllFound(origins, names) && RenameInTurn(canaries, names).Some? && forall n | n in names :: n in cached)
  {
    hide Find, RenameInTurn, TurnOf;
    assert names[i] in names;
    TurnTaken(canaries, names, i);
    if RenameInTurn(canaries, names).Some? {
      PrefixRenames(canaries, names, i + 1);
    }
  }
}
