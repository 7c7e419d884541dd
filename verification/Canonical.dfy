/** When the allocation does not depend on the order in which the specification lists services and ports, for any
    sort that sorts. */
module Canonical {
  import opened Text
  import opened Sequences
  import opened Upstream
  import opened Objects
  import opened Allocator
  import opened ChangeCheck
  import opened Routing

  // ---------------------------------------------------------------- results of sorting

  predicate SameBut(a: Column, b: Column) {
    a.name == b.name && a.forked == b.forked && a.canary == b.canary && multiset(a.ports) == multiset(b.ports)
  }

  function ColumnNames(cols: seq<Column>): (r: seq<string>)
    ensures |r| == |cols| && forall i | 0 <= i < |r| :: r[i] == cols[i].name
  {
    seq(|cols|, i requires 0 <= i < |cols| => cols[i].name)
  }

  predicate HasCounterpart(c: Column, cols: seq<Column>) {
    exists d :: d in cols && SameBut(c, d)
  }

  predicate Within(a: seq<Column>, b: seq<Column>) {
    forall c | c in a :: HasCounterpart(c, b)
  }

  /** The same services with the same ports, in whatever order. */
  predicate Reordered(a: seq<Column>, b: seq<Column>) {
    |a| == |b| && Within(a, b) && Within(b, a)
  }

  lemma Counterpart(c: Column, a: seq<Column>, b: seq<Column>) returns (d: Column)
    requires c in a && Within(a, b)
    ensures d in b && SameBut(c, d) && SameBut(d, c)
  {
    assert HasCounterpart(c, b);
    d :| d in b && SameBut(c, d);
  }

  /** A result that sorting the services by name and each service's ports by number may leave, stable or not. */
  predicate SortResult(views: seq<Column>, cols: seq<Column>) {
    Reordered(views, cols) && SortedNames(ColumnNames(views)) && forall v | v in views :: SortedPorts(v.ports)
  }

  function PortNumbers(ports: seq<CanaryPort>): (r: seq<int>)
    ensures |r| == |ports| && forall i | 0 <= i < |r| :: r[i] == ports[i].port
  {
    seq(|ports|, i requires 0 <= i < |ports| => ports[i].port)
  }

  // ---------------------------------------------------------------- one service's ports

  predicate Ascending(ports: seq<CanaryPort>) {
    forall i, j | 0 <= i < j < |ports| :: ports[i].port < ports[j].port
  }

  lemma {:induction false} AscendingUnique(a: seq<CanaryPort>, b: seq<CanaryPort>)
    requires Ascending(a) && Ascending(b) && |a| == |b| && forall p :: p in a <==> p in b
    ensures a == b
  {
    if a != [] {
      assert a[0] in a && a[0] in b;
      assert b[0] in b && b[0] in a;
      assert a[0] == b[0];
      forall p ensures p in a[1..] <==> p in b[1..] {
        HeadOrTail(a, p);
        HeadOrTail(b, p);
      }
      AscendingUnique(a[1..], b[1..]);
    }
  }

  lemma SameNumbers(a: seq<CanaryPort>, b: seq<CanaryPort>)
    requires forall p | p in a :: p in b
    ensures Elements(PortNumbers(a)) <= Elements(PortNumbers(b))
  {
    forall x | x in PortNumbers(a) ensures x in PortNumbers(b) {
      var i :| 0 <= i < |a| && PortNumbers(a)[i] == x;
      assert a[i] in b;
      var j :| 0 <= j < |b| && b[j] == a[i];
      assert PortNumbers(b)[j] == x;
    }
  }

  lemma PermutationKeepsDistinct(a: seq<CanaryPort>, b: seq<CanaryPort>)
    requires NoRepeats(PortNumbers(a)) && multiset(a) == multiset(b)
    ensures NoRepeats(PortNumbers(b)) && forall p :: p in a <==> p in b
  {
    forall p ensures p in a <==> p in b {
      assert p in multiset(a) <==> p in multiset(b);
    }
    assert |multiset(a)| == |a| && |multiset(b)| == |b|;
    SameNumbers(a, b);
    SameNumbers(b, a);
    assert Elements(PortNumbers(a)) == Elements(PortNumbers(b));
    CountsElements(PortNumbers(a));
    CountsElements(PortNumbers(b));
  }

  lemma SortedIsAscending(ports: seq<CanaryPort>)
    requires SortedPorts(ports) && NoRepeats(PortNumbers(ports))
    ensures Ascending(ports)
  {
  }

  /** Sorting ports of distinct numbers has one result. */
  lemma SortedPortsUnique(a: seq<CanaryPort>, b: seq<CanaryPort>, ports: seq<CanaryPort>)
    requires NoRepeats(PortNumbers(ports)) && multiset(a) == multiset(ports) == multiset(b) && SortedPorts(a)
    requires SortedPorts(b)
    ensures a == b
  {
    PermutationKeepsDistinct(ports, a);
    PermutationKeepsDistinct(ports, b);
    SortedIsAscending(a);
    SortedIsAscending(b);
    assert |multiset(a)| == |a| && |multiset(b)| == |b|;
    AscendingUnique(a, b);
  }

  // ---------------------------------------------------------------- all services

  predicate StrictlySorted(cols: seq<Column>) {
    forall i, j | 0 <= i < j < |cols| :: Less(cols[i].name, cols[j].name)
  }

  lemma {:induction false} StrictlySortedUnique(a: seq<Column>, b: seq<Column>)
    requires StrictlySorted(a) && StrictlySorted(b) && |a| == |b| && forall c :: c in a <==> c in b
    ensures a == b
  {
    if a != [] {
      assert a[0] in a && a[0] in b;
      assert b[0] in b && b[0] in a;
      LessTotal(a[0].name, b[0].name);
      assert a[0] == b[0];
      LessTotal(a[0].name, a[0].name);
      forall c ensures c in a[1..] <==> c in b[1..] {
        HeadOrTail(a, c);
        HeadOrTail(b, c);
      }
      StrictlySortedUnique(a[1..], b[1..]);
    }
  }

  /** A sort result of columns with distinct names is strictly sorted: it has each of them once. */
  lemma SortResultIsStrict(views: seq<Column>, cols: seq<Column>)
    requires SortResult(views, cols) && NoRepeats(ColumnNames(cols))
    ensures StrictlySorted(views)
  {
    DistinctTransfers(cols, views);
    forall i, j | 0 <= i < j < |views| ensures Less(views[i].name, views[j].name) {
      assert !Less(ColumnNames(views)[j], ColumnNames(views)[i]) && ColumnNames(views)[i] != ColumnNames(views)[j];
      LessTotal(views[i].name, views[j].name);
    }
  }

  lemma DistinctTransfers(a: seq<Column>, b: seq<Column>)
    requires NoRepeats(ColumnNames(a)) && Reordered(b, a)
    ensures NoRepeats(ColumnNames(b))
  {
    CountsElements(ColumnNames(a));
    CountsElements(ColumnNames(b));
    SameNames(a, b);
    SameNames(b, a);
    assert Elements(ColumnNames(a)) == Elements(ColumnNames(b));
  }

  lemma SameNames(a: seq<Column>, b: seq<Column>)
    requires Within(a, b)
    ensures Elements(ColumnNames(a)) <= Elements(ColumnNames(b))
  {
    hide Within;
    forall n | n in ColumnNames(a) ensures n in ColumnNames(b) {
      var i :| 0 <= i < |a| && ColumnNames(a)[i] == n;
      var c := Counterpart(a[i], a, b);
      var j :| 0 <= j < |b| && b[j] == c;
      assert ColumnNames(b)[j] == n;
    }
  }

  /** The sorted services are the same ones with the same sorted ports. */
  lemma SameViews(views: seq<Column>, cols: seq<Column>, views': seq<Column>, cols': seq<Column>)
    requires Reordered(cols, cols') && SortResult(views, cols) && SortResult(views', cols')
    requires forall c | c in cols :: NoRepeats(PortNumbers(c.ports))
    ensures forall v | v in views :: v in views'
  {
    hide Within;
    forall v | v in views ensures v in views' {
      var c := Counterpart(v, views, cols);
      var c' := Counterpart(c, cols, cols');
      var v' := Counterpart(c', cols', views');
      SortedPortsUnique(v.ports, v'.ports, c.ports);
      assert v == v';
    }
  }

  lemma PortsStayDistinct(cols: seq<Column>, cols': seq<Column>)
    requires Reordered(cols, cols') && forall c | c in cols :: NoRepeats(PortNumbers(c.ports))
    ensures forall c | c in cols' :: NoRepeats(PortNumbers(c.ports))
  {
    hide Within;
    forall d | d in cols' ensures NoRepeats(PortNumbers(d.ports)) {
      var c := Counterpart(d, cols', cols);
      PermutationKeepsDistinct(c.ports, d.ports);
    }
  }

  /** Columns of distinct names and port numbers are sorted in one way. */
  lemma DistinctIsCanonical(cols: seq<Column>, views: seq<Column>, cols': seq<Column>,
                              views': seq<Column>)
    requires Reordered(cols, cols') && SortResult(views, cols) && SortResult(views', cols')
    requires NoRepeats(ColumnNames(cols)) && forall c | c in cols :: NoRepeats(PortNumbers(c.ports))
    ensures views == views'
  {
    hide Within, NoRepeats, SortedNames, SortedPorts;
    DistinctTransfers(cols, cols');
    PortsStayDistinct(cols, cols');
    SortResultIsStrict(views, cols);
    SortResultIsStrict(views', cols');
    SameViews(views, cols, views', cols');
    SameViews(views', cols', views, cols);
    StrictlySortedUnique(views, views');
  }

  // ---------------------------------------------------------------- what configures nginx

  /** The columns that ask for ports. */
  function Busy(cols: seq<Column>): (r: seq<Column>)
    ensures forall c :: c in r <==> c in cols && c.ports != []
  {
    if cols == [] then []
    else
      var before, last := Busy(cols[..|cols| - 1]), cols[|cols| - 1];
      assert cols == cols[..|cols| - 1] + [last];
      if last.ports == [] then before else before + [last]
  }

  lemma AddColumn(namespace: string, cols: seq<Column>, c: Column)
    ensures Entries(namespace, cols + [c])
              == Entries(namespace, cols) + ColumnEntries(namespace, c, FIRST_PORT + PortCount(cols))
    ensures PortCount(cols + [c]) == PortCount(cols) + |c.ports|
  {
  }

  lemma {:induction false} BusyEntries(namespace: string, cols: seq<Column>)
    ensures Entries(namespace, Busy(cols)) == Entries(namespace, cols) && PortCount(Busy(cols)) == PortCount(cols)
  {
    hide ColumnEntries, Entries, PortCount;
    if cols != [] {
      var before, last := cols[..|cols| - 1], cols[|cols| - 1];
      BusyEntries(namespace, before);
      AddColumn(namespace, before, last);
      AddColumn(namespace, Busy(before), last);
      assert before + [last] == cols;
    }
  }

  lemma SameLength(a: seq<CanaryPort>, b: seq<CanaryPort>)
    requires multiset(a) == multiset(b)
    ensures |a| == |b|
  {
    assert |multiset(a)| == |a| && |multiset(b)| == |b|;
  }

  /** What sorting leaves of a busy column. */
  lemma BusyCounterpart(v: Column, views: seq<Column>, cols: seq<Column>) returns (c: Column)
    requires v in views && v.ports != [] && Within(views, cols)
    ensures c in cols && c.ports != [] && SameBut(v, c)
  {
    hide Within;
    c := Counterpart(v, views, cols);
    SameLength(v.ports, c.ports);
  }

  lemma ForksStayDistinct(a: seq<Column>, b: seq<Column>)
    requires NoRepeats(ForkedNames(a)) && Reordered(b, a)
    ensures NoRepeats(ForkedNames(b))
  {
    CountsElements(ForkedNames(a));
    CountsElements(ForkedNames(b));
    SameForks(a, b);
    SameForks(b, a);
    assert Elements(ForkedNames(a)) == Elements(ForkedNames(b));
  }

  lemma SameForks(a: seq<Column>, b: seq<Column>)
    requires Within(a, b)
    ensures Elements(ForkedNames(a)) <= Elements(ForkedNames(b))
  {
    hide Within;
    forall n | n in ForkedNames(a) ensures n in ForkedNames(b) {
      var i :| 0 <= i < |a| && ForkedNames(a)[i] == n;
      var c := Counterpart(a[i], a, b);
      var j :| 0 <= j < |b| && b[j] == c;
      assert ForkedNames(b)[j] == n;
    }
  }

  lemma {:induction false} BusyIsSorted(cols: seq<Column>)
    requires SortedNames(ColumnNames(cols))
    ensures SortedNames(ColumnNames(Busy(cols)))
  {
    hide Less;
    if cols != [] {
      var before, last := cols[..|cols| - 1], cols[|cols| - 1];
      assert ColumnNames(before) == ColumnNames(cols)[..|cols| - 1];
      BusyIsSorted(before);
      forall k | 0 <= k < |Busy(before)| ensures !Less(last.name, Busy(before)[k].name) {
        assert Busy(before)[k] in Busy(before);
        var i :| 0 <= i < |before| && before[i] == Busy(before)[k];
        assert !Less(ColumnNames(cols)[|cols| - 1], ColumnNames(cols)[i]);
      }
    }
  }

  lemma {:induction false} BusyForksAreDistinct(cols: seq<Column>)
    requires NoRepeats(ForkedNames(cols))
    ensures NoRepeats(ForkedNames(Busy(cols)))
  {
    if cols != [] {
      var before, last := cols[..|cols| - 1], cols[|cols| - 1];
      assert ForkedNames(before) == ForkedNames(cols)[..|cols| - 1];
      BusyForksAreDistinct(before);
      forall k | 0 <= k < |Busy(before)| ensures Busy(before)[k].forked != last.forked {
        assert Busy(before)[k] in Busy(before);
        var i :| 0 <= i < |before| && before[i] == Busy(before)[k];
        assert ForkedNames(cols)[i] != ForkedNames(cols)[|cols| - 1];
      }
    }
  }

  lemma BusyIsWithin(a: seq<Column>, b: seq<Column>)
    requires Within(a, b)
    ensures Within(Busy(a), Busy(b))
  {
    hide SameBut;
    forall v | v in Busy(a) ensures HasCounterpart(v, Busy(b)) {
      var c := BusyCounterpart(v, a, b);
      assert c in Busy(b);
    }
  }

  lemma BusyIsReordered(a: seq<Column>, b: seq<Column>)
    requires Reordered(a, b) && NoRepeats(ForkedNames(b))
    ensures Reordered(Busy(a), Busy(b))
  {
    hide Within, NoRepeats, Busy;
    BusyIsWithin(a, b);
    BusyIsWithin(b, a);
    ForksStayDistinct(b, a);
    BusyForksAreDistinct(a);
    BusyForksAreDistinct(b);
    CountsElements(ForkedNames(Busy(a)));
    CountsElements(ForkedNames(Busy(b)));
    SameForks(Busy(a), Busy(b));
    SameForks(Busy(b), Busy(a));
    assert Elements(ForkedNames(Busy(a))) == Elements(ForkedNames(Busy(b)));
  }

  lemma BusyIsSortResult(views: seq<Column>, cols: seq<Column>)
    requires SortResult(views, cols) && NoRepeats(ForkedNames(cols))
    ensures SortResult(Busy(views), Busy(cols))
  {
    hide Within, NoRepeats, SortedNames, SortedPorts;
    BusyIsReordered(views, cols);
    BusyIsSorted(views);
  }

  /** With distinct sort names among the services that ask for ports, and distinct port numbers within each service,
      neither the order of the services nor that of their ports changes how nginx is configured, whatever sort is
      used. */
  lemma AllocationIsCanonical(namespace: string, cols: seq<Column>, views: seq<Column>, cols': seq<Column>,
                              views': seq<Column>)
    requires Reordered(cols', cols) && SortResult(views, cols) && SortResult(views', cols')
    requires NoRepeats(ForkedNames(cols)) && NoRepeats(ColumnNames(Busy(cols)))
    requires forall c | c in cols :: NoRepeats(PortNumbers(c.ports))
    ensures Busy(views) == Busy(views') && Generate(namespace, views) == Generate(namespace, views')
  {
    hide Within, NoRepeats, SortedNames, SortedPorts, SortResult, Entries, WithProtocol;
    ForksStayDistinct(cols, cols');
    BusyIsReordered(cols', cols);
    BusyIsSortResult(views, cols);
    BusyIsSortResult(views', cols');
    DistinctIsCanonical(Busy(cols), Busy(views), Busy(cols'), Busy(views'));
    BusyEntries(namespace, views);
    BusyEntries(namespace, views');
  }

  // ---------------------------------------------------------------- two services of one name that ask

  function Inserted(p: CanaryPort, ports: seq<CanaryPort>): (r: seq<CanaryPort>)
    ensures multiset(r) == multiset(ports) + multiset{p}
  {
    if ports == [] || p.port <= ports[0].port then [p] + ports
    else
      assert ports == [ports[0]] + ports[1..];
      [ports[0]] + Inserted(p, ports[1..])
  }

  lemma {:induction false} InsertedIsSorted(p: CanaryPort, ports: seq<CanaryPort>)
    requires SortedPorts(ports)
    ensures SortedPorts(Inserted(p, ports))
  {
    if ports != [] && p.port > ports[0].port {
      InsertedIsSorted(p, ports[1..]);
      var rest := Inserted(p, ports[1..]);
      forall k | 0 <= k < |rest| ensures ports[0].port <= rest[k].port {
        assert rest[k] in multiset(rest);
        assert rest[k] == p || rest[k] in ports[1..];
      }
    }
  }

  function Arranged(ports: seq<CanaryPort>): (r: seq<CanaryPort>)
    ensures multiset(r) == multiset(ports) && SortedPorts(r)
  {
    if ports == [] then []
    else
      assert ports == [ports[0]] + ports[1..];
      InsertedIsSorted(ports[0], Arranged(ports[1..]));
      Inserted(ports[0], Arranged(ports[1..]))
  }

  function ArrangedAll(cols: seq<Column>): (r: seq<Column>)
    ensures |r| == |cols| && forall i | 0 <= i < |r| :: r[i] == cols[i].(ports := Arranged(cols[i].ports))
  {
    seq(|cols|, i requires 0 <= i < |cols| => cols[i].(ports := Arranged(cols[i].ports)))
  }

  function InsertedColumn(c: Column, cols: seq<Column>): (r: seq<Column>)
    ensures |r| == |cols| + 1 && forall d :: d in r <==> d == c || d in cols
  {
    if cols == [] || !Less(cols[0].name, c.name) then [c] + cols
    else
      assert cols == [cols[0]] + cols[1..];
      [cols[0]] + InsertedColumn(c, cols[1..])
  }

  lemma {:induction false} InsertedColumnIsSorted(c: Column, cols: seq<Column>)
    requires SortedNames(ColumnNames(cols))
    ensures SortedNames(ColumnNames(InsertedColumn(c, cols)))
  {
    hide Less;
    var r := InsertedColumn(c, cols);
    if cols == [] || !Less(cols[0].name, c.name) {
      forall k | 0 <= k < |cols| ensures !Less(cols[k].name, c.name) {
        LessTotal(cols[0].name, cols[0].name);
        assert k > 0 ==> !Less(ColumnNames(cols)[k], ColumnNames(cols)[0]);
        LessTransitive(c.name, cols[0].name, cols[k].name);
      }
      LessTotal(c.name, c.name);
      assert forall k | 0 < k < |r| :: ColumnNames(r)[k] == ColumnNames(cols)[k - 1];
    } else {
      assert ColumnNames(cols[1..]) == ColumnNames(cols)[1..];
      InsertedColumnIsSorted(c, cols[1..]);
      var rest := InsertedColumn(c, cols[1..]);
      LessTotal(cols[0].name, c.name);
      forall k | 0 <= k < |rest| ensures !Less(rest[k].name, cols[0].name) {
        assert rest[k] in rest;
        if rest[k] != c {
          var i :| 0 <= i < |cols[1..]| && cols[1..][i] == rest[k];
          assert !Less(ColumnNames(cols)[i + 1], ColumnNames(cols)[0]);
        }
      }
      assert forall k | 0 < k < |r| :: ColumnNames(r)[k] == ColumnNames(rest)[k - 1];
    }
  }

  function SortedColumns(cols: seq<Column>): (r: seq<Column>)
    ensures |r| == |cols| && forall c :: c in r <==> c in cols
  {
    if cols == [] then []
    else
      assert cols == [cols[0]] + cols[1..];
      InsertedColumn(cols[0], SortedColumns(cols[1..]))
  }

  lemma {:induction false} SortedColumnsAreSorted(cols: seq<Column>)
    ensures SortedNames(ColumnNames(SortedColumns(cols)))
  {
    if cols != [] {
      SortedColumnsAreSorted(cols[1..]);
      InsertedColumnIsSorted(cols[0], SortedColumns(cols[1..]));
    }
  }

  lemma SomeSortResult(cols: seq<Column>) returns (views: seq<Column>)
    ensures SortResult(views, cols)
  {
    hide SortedPorts, SortedNames, SortedColumns, Within;
    views := SortedColumns(ArrangedAll(cols));
    SortedColumnsAreSorted(ArrangedAll(cols));
    ArrangedIsWithin(cols);
    SameElementsWithin(views, ArrangedAll(cols), cols);
    forall v | v in views ensures SortedPorts(v.ports) {
      var k :| 0 <= k < |cols| && ArrangedAll(cols)[k] == v;
    }
  }

  lemma ArrangedIsWithin(cols: seq<Column>)
    ensures Within(ArrangedAll(cols), cols) && Within(cols, ArrangedAll(cols))
  {
    hide SortedPorts;
    var views := ArrangedAll(cols);
    forall k | 0 <= k < |views| ensures HasCounterpart(views[k], cols) && HasCounterpart(cols[k], views) {
      assert cols[k] in cols && SameBut(views[k], cols[k]);
      assert views[k] in views && SameBut(cols[k], views[k]);
    }
  }

  lemma SameElementsWithin(a: seq<Column>, b: seq<Column>, cols: seq<Column>)
    requires (forall c :: c in a <==> c in b) && Within(b, cols) && Within(cols, b)
    ensures Within(a, cols) && Within(cols, a)
  {
    hide SameBut;
    forall c | c in cols ensures HasCounterpart(c, a) {
      assert HasCounterpart(c, b);
      var d :| d in b && SameBut(c, d);
      assert d in a;
    }
  }

  function Swapped(cols: seq<Column>, x: nat, y: nat): seq<Column>
    requires x < y < |cols|
  {
    cols[x := cols[y]][y := cols[x]]
  }

  /** Columns of one name may change places. */
  lemma SwappedIsSorted(views: seq<Column>, cols: seq<Column>, x: nat, y: nat)
    requires SortResult(views, cols) && x < y < |views| && views[x].name == views[y].name
    ensures SortResult(Swapped(views, x, y), cols)
  {
    hide Within, SortedPorts, SortedNames;
    var s := Swapped(views, x, y);
    assert ColumnNames(s) == ColumnNames(views);
    forall c ensures c in s <==> c in views {
      if c in views {
        var k :| 0 <= k < |views| && views[k] == c;
        assert s[if k == x then y else if k == y then x else k] == c;
      }
      if c in s {
        var k :| 0 <= k < |s| && s[k] == c;
        assert views[if k == x then y else if k == y then x else k] == c;
      }
    }
    SameElementsWithin(s, views, cols);
  }

  /** But if both ask for ports, that changes the configuration. */
  lemma SwappedMatters(namespace: string, views: seq<Column>, x: nat, y: nat)
    requires x < y < |views| && views[x].forked != views[y].forked && views[x].ports != [] && views[y].ports != []
    ensures Generate(namespace, Swapped(views, x, y)) != Generate(namespace, views)
  {
    hide Generate, Entries, PortCount;
    var s := Swapped(views, x, y);
    assert s[..x] == views[..x];
    var e := PlacedEntry(namespace, views, x);
    var f := PlacedEntry(namespace, s, x);
    if Generate(namespace, s) == Generate(namespace, views) {
      OneEntryPerPort(namespace, views, e, f);
      assert false;
    }
  }

  /** The first port of a column listens at the column's base. */
  lemma PlacedEntry(namespace: string, cols: seq<Column>, i: nat) returns (e: L4Service)
    requires i < |cols| && cols[i].ports != []
    ensures e.port == Base(cols, i) && |e.endpoints| == 2 && e.endpoints[0].address == cols[i].forked
    ensures InConfig(e, Generate(namespace, cols))
  {
    hide Generate, Entries, PortCount;
    EntryAt(namespace, cols, i, 0);
    e := Entry(namespace, cols[i], cols[i].ports[0], Base(cols, i));
    InGenerated(namespace, cols);
    assert e in Entries(namespace, cols);
  }

  lemma OneEntryPerPort(namespace: string, cols: seq<Column>, e: L4Service, f: L4Service)
    requires InConfig(e, Generate(namespace, cols)) && InConfig(f, Generate(namespace, cols)) && e.port == f.port
    ensures e == f
  {
    ListenPortsAreConsecutive(namespace, cols);
    WithProtocolHolds(Entries(namespace, cols), TCP);
    WithProtocolHolds(Entries(namespace, cols), UDP);
    SamePortSameEntry(Entries(namespace, cols), e.port);
  }

  // ---------------------------------------------------------------- result

  /** Every result of sorting configures nginx the same way. */
  ghost predicate Canonical(namespace: string, cols: seq<Column>) {
    forall views, views' | SortResult(views, cols) && SortResult(views', cols) ::
      Generate(namespace, views) == Generate(namespace, views')
  }

  /** The order in which services are sorted matters exactly if two that ask for ports have one sort name. */
  lemma CanonicalExactly(namespace: string, cols: seq<Column>)
    requires NoRepeats(ForkedNames(cols)) && forall c | c in cols :: NoRepeats(PortNumbers(c.ports))
    ensures Canonical(namespace, cols) <==> NoRepeats(ColumnNames(Busy(cols)))
  {
    hide SortResult, Generate, Within, Busy, SortedPorts;
    if NoRepeats(ColumnNames(Busy(cols))) {
      ReorderedReflexive(cols);
      forall views, views' | SortResult(views, cols) && SortResult(views', cols)
        ensures Generate(namespace, views) == Generate(namespace, views')
      {
        AllocationIsCanonical(namespace, cols, views, cols, views');
      }
    } else {
      var i, j :| 0 <= i < j < |Busy(cols)| && ColumnNames(Busy(cols))[i] == ColumnNames(Busy(cols))[j];
      BusyForksAreDistinct(cols);
      assert ForkedNames(Busy(cols))[i] != ForkedNames(Busy(cols))[j];
      assert Busy(cols)[i] in Busy(cols) && Busy(cols)[j] in Busy(cols);
      OrderMatters(namespace, cols, Busy(cols)[i], Busy(cols)[j]);
    }
  }

  lemma ReorderedReflexive(cols: seq<Column>)
    ensures Reordered(cols, cols)
  {
    forall c | c in cols ensures HasCounterpart(c, cols) {
      assert SameBut(c, c);
    }
  }

  lemma OrderMatters(namespace: string, cols: seq<Column>, c: Column, d: Column)
    requires c in cols && d in cols && c.name == d.name && c.forked != d.forked && c.ports != [] && d.ports != []
    ensures !Canonical(namespace, cols)
  {
    hide Generate, Within, SortedPorts, SortedNames;
    var views := SomeSortResult(cols);
    var v := BusyCounterpart(c, cols, views);
    var w := BusyCounterpart(d, cols, views);
    var x :| 0 <= x < |views| && views[x] == v;
    var y :| 0 <= y < |views| && views[y] == w;
    var low, high := if x < y then x else y, if x < y then y else x;
    SwappedIsSorted(views, cols, low, high);
    SwappedMatters(namespace, views, low, high);
  }

  predicate OneName(cols: seq<Column>) {
    forall i, j | 0 <= i < |cols| && 0 <= j < |cols| :: cols[i].name == cols[j].name
  }

  /** All collections that the rendering makes have the same sort name, so services may be sorted in any order.  That
      configures nginx in one way exactly if at most one service asks for ports. */
  lemma RenderedIsCanonicalExactly(namespace: string, cols: seq<Column>)
    requires OneName(cols) && NoRepeats(ForkedNames(cols)) && forall c | c in cols :: NoRepeats(PortNumbers(c.ports))
    ensures Canonical(namespace, cols) <==> |Busy(cols)| <= 1
  {
    hide Canonical, Busy;
    CanonicalExactly(namespace, cols);
    if |Busy(cols)| > 1 {
      assert Busy(cols)[0] in Busy(cols) && Busy(cols)[1] in Busy(cols);
      var i :| 0 <= i < |cols| && cols[i] == Busy(cols)[0];
      var j :| 0 <= j < |cols| && cols[j] == Busy(cols)[1];
      assert ColumnNames(Busy(cols))[0] == ColumnNames(Busy(cols))[1];
    }
  }

  // ---------------------------------------------------------------- the allocation sorts

  /** What was asked for the collections before their ports were sorted in place. */
  function Asked(cols: seq<ServiceCollection>, ports: seq<seq<CanaryPort>>): (r: seq<Column>)
    requires |ports| == |cols|
    reads set c | c in cols :: c.forked
    reads set c | c in cols :: c.canary
    ensures |r| == |cols| && forall i | 0 <= i < |r| ::
              r[i] == Column(cols[i].name, ports[i], cols[i].forked.name, cols[i].canary.name)
  {
    if cols == [] then []
    else
      var n := |cols| - 1;
      Asked(cols[..n], ports[..n]) + [Column(cols[n].name, ports[n], cols[n].forked.name, cols[n].canary.name)]
  }

  /** View `k` arranges what was asked for the collection at place `k`, wherever that was listed. */
  predicate ArrangedAt(cols: seq<ServiceCollection>, ports: seq<seq<CanaryPort>>, c: ServiceCollection, view: Column)
    requires |ports| == |cols|
    reads c, c.canaryPorts, c.forked, c.canary
  {
    exists j :: 0 <= j < |cols| && cols[j] == c && Arranges(c, view, ports[j])
  }

  /** The views that the allocation works through are such a result. */
  lemma AllocationSorts(cols: seq<ServiceCollection>, ports: seq<seq<CanaryPort>>, sorted: seq<ServiceCollection>,
                        views: seq<Column>)
    requires |cols| == |ports| == |sorted| == |views| && (forall c :: c in sorted <==> c in cols)
             && SortedNames(Names(sorted))
    requires forall i, j | 0 <= i < j < |cols| :: cols[i] != cols[j]
    requires forall k | 0 <= k < |sorted| :: ArrangedAt(cols, ports, sorted[k], views[k])
    ensures SortResult(views, Asked(cols, ports))
  {
    hide SortedNames, SortedPorts, ArrangedAt, Within, Asked;
    ViewsWithinAsked(cols, ports, sorted, views);
    AskedWithinViews(cols, ports, sorted, views);
    forall k | 0 <= k < |views| ensures SortedPorts(views[k].ports) && views[k].name == sorted[k].name {
      ArrangedMeans(cols, ports, sorted[k], views[k]);
    }
    assert ColumnNames(views) == Names(sorted);
  }

  lemma ArrangedMeans(cols: seq<ServiceCollection>, ports: seq<seq<CanaryPort>>, c: ServiceCollection, view: Column)
    requires |ports| == |cols| && ArrangedAt(cols, ports, c, view)
    ensures SortedPorts(view.ports) && view.name == c.name
  {
  }

  lemma ViewsWithinAsked(cols: seq<ServiceCollection>, ports: seq<seq<CanaryPort>>, sorted: seq<ServiceCollection>,
                         views: seq<Column>)
    requires |cols| == |ports| && |sorted| == |views|
    requires forall k | 0 <= k < |sorted| :: ArrangedAt(cols, ports, sorted[k], views[k])
    ensures Within(views, Asked(cols, ports))
  {
    hide SortedPorts, Arranges;
    forall k | 0 <= k < |views| ensures HasCounterpart(views[k], Asked(cols, ports)) {
      assert ArrangedAt(cols, ports, sorted[k], views[k]);
      var j :| 0 <= j < |cols| && cols[j] == sorted[k] && Arranges(sorted[k], views[k], ports[j]);
      ArrangesMeans(sorted[k], views[k], ports[j]);
      assert Asked(cols, ports)[j] in Asked(cols, ports) && SameBut(views[k], Asked(cols, ports)[j]);
    }
  }

  lemma AskedWithinViews(cols: seq<ServiceCollection>, ports: seq<seq<CanaryPort>>, sorted: seq<ServiceCollection>,
                         views: seq<Column>)
    requires |cols| == |ports| && |sorted| == |views| && (forall c :: c in sorted <==> c in cols)
    requires forall i, j | 0 <= i < j < |cols| :: cols[i] != cols[j]
    requires forall k | 0 <= k < |sorted| :: ArrangedAt(cols, ports, sorted[k], views[k])
    ensures Within(Asked(cols, ports), views)
  {
    hide SortedPorts, Arranges;
    forall j | 0 <= j < |cols| ensures HasCounterpart(Asked(cols, ports)[j], views) {
      assert cols[j] in sorted;
      var k :| 0 <= k < |sorted| && sorted[k] == cols[j];
      assert ArrangedAt(cols, ports, sorted[k], views[k]);
      var l :| 0 <= l < |cols| && cols[l] == sorted[k] && Arranges(sorted[k], views[k], ports[l]);
      assert l == j;
      ArrangesMeans(sorted[k], views[k], ports[j]);
      assert views[k] in views && SameBut(Asked(cols, ports)[j], views[k]);
    }
  }

  lemma ArrangesMeans(c: ServiceCollection, view: Column, ports: seq<CanaryPort>)
    requires Arranges(c, view, ports)
    ensures view.name == c.name && view.forked == c.forked.name && view.canary == c.canary.name
    ensures SortedPorts(view.ports) && multiset(view.ports) == multiset(ports)
  {
  }
}
