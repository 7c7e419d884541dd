/** getUpsteamService: sorts the collections and their ports in place, and allocates the listen ports. */
module Allocator {
  import opened Text
  import opened Kube
  import opened Upstream
  import opened Objects

  // ---------------------------------------------------------------- the two orders

  predicate SortedPorts(ports: seq<CanaryPort>) {
    forall i, j | 0 <= i < j < |ports| :: ports[i].port <= ports[j].port
  }

  predicate SortedNames(names: seq<string>) {
    forall i, j | 0 <= i < j < |names| :: !Less(names[j], names[i])
  }

  method Swap<T>(a: array<T>, j: nat)
    requires 0 < j < a.Length
    modifies a
    ensures a[..] == old(a[..][j - 1 := a[j]][j := a[j - 1]]) && multiset(a[..]) == multiset(old(a[..]))
  {
    a[j - 1], a[j] := a[j], a[j - 1];
  }

  /** The element at `i` moves to its place among the sorted ones before it. */
  method InsertPort(a: array<CanaryPort>, i: nat)
    requires i < a.Length && SortedPorts(a[..i])
    modifies a
    ensures SortedPorts(a[..i + 1]) && multiset(a[..]) == multiset(old(a[..]))
  {
    var j := i;
    while j > 0 && a[j].port < a[j - 1].port
      invariant 0 <= j <= i
      invariant forall p, q | 0 <= p < q <= i && q != j :: a[p].port <= a[q].port
      invariant multiset(a[..]) == multiset(old(a[..]))
    {
      Swap(a, j);
      j := j - 1;
    }
  }

  /** Stands for sort.Sort, which need not be stable; only what any sort does is used. */
  method SortByPort(a: array<CanaryPort>)
    modifies a
    ensures SortedPorts(a[..]) && multiset(a[..]) == multiset(old(a[..]))
    ensures forall i, j | 0 <= i < j < a.Length :: a[i].port <= a[j].port
  {
    var i := 0;
    while i < a.Length
      invariant 0 <= i <= a.Length && SortedPorts(a[..i])
      invariant multiset(a[..]) == multiset(old(a[..]))
    {
      InsertPort(a, i);
      i := i + 1;
    }
    assert a[..i] == a[..];
  }

  function Names(cols: seq<ServiceCollection>): seq<string> {
    seq(|cols|, i requires 0 <= i < |cols| => cols[i].name)
  }

  /** The same for the other order. */
  method SortByName(a: array<ServiceCollection>)
    modifies a
    ensures SortedNames(Names(a[..])) && multiset(a[..]) == multiset(old(a[..]))
    ensures forall i, j | 0 <= i < j < a.Length :: !Less(a[j].name, a[i].name)
  {
    var i := 0;
    while i < a.Length
      invariant 0 <= i <= a.Length
      invariant forall p, q | 0 <= p < q < i :: !Less(a[q].name, a[p].name)
      invariant multiset(a[..]) == multiset(old(a[..]))
    {
      var j := i;
      while j > 0 && Less(a[j].name, a[j - 1].name)
        invariant 0 <= j <= i
        invariant forall p, q | 0 <= p < q <= i && q != j :: !Less(a[q].name, a[p].name)
        invariant multiset(a[..]) == multiset(old(a[..]))
      {
        LessTotal(a[j].name, a[j - 1].name);
        Swap(a, j);
        j := j - 1;
      }
      if j > 0 {
        forall p | 0 <= p < j ensures !Less(a[j].name, a[p].name) {
          if p < j - 1 {
            LessTransitive(a[p].name, a[j - 1].name, a[j].name);
          }
        }
      }
      i := i + 1;
    }
  }

  // ---------------------------------------------------------------- one service

  lemma {:induction false} WithProtocolAppend(a: seq<L4Service>, b: seq<L4Service>, protocol: Protocol)
    ensures WithProtocol(a + b, protocol) == WithProtocol(a, protocol) + WithProtocol(b, protocol)
  {
    if b == [] {
      assert a + b == a;
    } else {
      var n := |b| - 1;
      assert (a + b)[..|a + b| - 1] == a + b[..n];
      WithProtocolAppend(a, b[..n], protocol);
    }
  }

  lemma WithProtocolNext(list: seq<L4Service>, entries: seq<L4Service>, e: L4Service, protocol: Protocol)
    ensures list + WithProtocol(entries + [e], protocol)
         == if e.backend.protocol == protocol then list + WithProtocol(entries, protocol) + [e]
         else list + WithProtocol(entries, protocol)
  {
  }

  lemma TableOfNext(table: map<string, int>, keys: seq<string>, key: string, first: int)
    ensures table + TableOf(keys + [key], first) == (table + TableOf(keys, first))[key := first + |keys|]
  {
  }

  lemma NothingAllocated(namespace: string, first: int)
    ensures PortCount([]) == 0 && Entries(namespace, []) == [] && TableOf([], first) == map[]
    ensures WithProtocol([], TCP) == WithProtocol([], UDP) == []
  {
  }

  /** One round of the inner loop. */
  method AllocatePort(namespace: string, col: ServiceCollection, p: CanaryPort, tcp: seq<L4Service>,
                      udp: seq<L4Service>, listen: int)
    returns (tcp': seq<L4Service>, udp': seq<L4Service>, ghost key: string)
    modifies col`upstreamPorts
    ensures var upstream := Entry(namespace, col.AsColumn(), p, listen);
            && tcp' == (if upstream.backend.protocol == TCP then tcp + [upstream] else tcp)
            && udp' == (if upstream.backend.protocol == UDP then udp + [upstream] else udp)
    ensures key == Key(p) && col.upstreamPorts == old(col.upstreamPorts)[key := listen]
  {
    var protocol := TCP;
    if p.protocol == Udp {
      protocol := UDP;
    }
    var canaryWeight, originWeight := GetWeight(p.weight);
    var upstream := L4Service(listen, Backend(p.port, col.name, namespace, protocol),
                              [Endpoint(col.forked.name, p.port, originWeight),
                               Endpoint(col.canary.name, p.port, canaryWeight)]);
    tcp', udp', key := tcp, udp, Key(p);
    if protocol == TCP {
      tcp' := tcp' + [upstream];
    } else {
      udp' := udp' + [upstream];
    }
    col.upstreamPorts := col.upstreamPorts[ProtoPortKey(protocol.Text(), p.port) := listen];
  }

  method GetWeight(weight: Option<int>) returns (canary: int, origin: int)
    ensures canary == CanaryWeight(weight) && 0 <= canary <= 100 && canary + origin == 100
  {
    if weight.None? {
      return 0, 100;
    }
    canary := weight.value;
    if weight.value >= 100 {
      canary := 100;
    }
    if weight.value <= 0 {
      canary := 0;
    }
    origin := 100 - canary;
  }

  /** What the first `n` ports of a column have added to the lists and to the table. */
  ghost predicate FilledUpTo(namespace: string, column: Column, n: nat, first: int, tcp: seq<L4Service>,
                             udp: seq<L4Service>, table: map<string, int>, tcp': seq<L4Service>, udp': seq<L4Service>,
                             table': map<string, int>)
    requires n <= |column.ports|
  {
    && tcp' == tcp + WithProtocol(EntriesUpTo(namespace, column, n, first), TCP)
    && udp' == udp + WithProtocol(EntriesUpTo(namespace, column, n, first), UDP)
    && table' == table + TableOf(KeysUpTo(column.ports, n), first)
  }

  lemma NothingFilled(namespace: string, column: Column, first: int, tcp: seq<L4Service>, udp: seq<L4Service>,
                      table: map<string, int>)
    ensures FilledUpTo(namespace, column, 0, first, tcp, udp, table, tcp, udp, table)
  {
  }

  lemma FilledNext(namespace: string, column: Column, n: nat, first: int, tcp: seq<L4Service>, udp: seq<L4Service>,
                   table: map<string, int>, tcp': seq<L4Service>, udp': seq<L4Service>, table': map<string, int>)
    requires n < |column.ports| && FilledUpTo(namespace, column, n, first, tcp, udp, table, tcp', udp', table')
    ensures var p, e := column.ports[n], Entry(namespace, column, column.ports[n], first + n);
            FilledUpTo(namespace, column, n + 1, first, tcp, udp, table,
                       if e.backend.protocol == TCP then tcp' + [e] else tcp',
                       if e.backend.protocol == UDP then udp' + [e] else udp',
                       table'[Key(p) := first + n])
  {
    hide WithProtocol, TableOf, Key;
    var entries, keys := EntriesUpTo(namespace, column, n, first), KeysUpTo(column.ports, n);
    var e := Entry(namespace, column, column.ports[n], first + n);
    WithProtocolNext(tcp, entries, e, TCP);
    WithProtocolNext(udp, entries, e, UDP);
    TableOfNext(table, keys, Key(column.ports[n]), first);
  }

  /** The inner loop: one column's entries are appended to the lists, and its table is filled. */
  method AllocateColumn(namespace: string, col: ServiceCollection, tcp: seq<L4Service>, udp: seq<L4Service>, first: int)
    returns (tcp': seq<L4Service>, udp': seq<L4Service>, next: int)
    modifies col`upstreamPorts
    ensures next == first + col.canaryPorts.Length
    ensures tcp' == tcp + WithProtocol(ColumnEntries(namespace, col.AsColumn(), first), TCP)
    ensures udp' == udp + WithProtocol(ColumnEntries(namespace, col.AsColumn(), first), UDP)
    ensures col.upstreamPorts == old(col.upstreamPorts) + Table(col.canaryPorts[..], first)
  {
    hide WithProtocol, EntriesUpTo, KeysUpTo, TableOf, Key, FilledUpTo, Entry;
    ghost var column := col.AsColumn();
    NothingFilled(namespace, column, first, tcp, udp, col.upstreamPorts);
    tcp', udp', next := tcp, udp, first;
    var i := 0;
    while i < col.canaryPorts.Length
      invariant 0 <= i <= col.canaryPorts.Length && next == first + i
      invariant FilledUpTo(namespace, column, i, first, tcp, udp, old(col.upstreamPorts), tcp', udp', col.upstreamPorts)
    {
      FilledNext(namespace, column, i, first, tcp, udp, old(col.upstreamPorts), tcp', udp', col.upstreamPorts);
      ghost var key;
      tcp', udp', key := AllocatePort(namespace, col, col.canaryPorts[i], tcp', udp', next);
      next := next + 1;
      i := i + 1;
    }
    AllFilled(namespace, column, first, tcp, udp, old(col.upstreamPorts), tcp', udp', col.upstreamPorts);
  }

  lemma AllFilled(namespace: string, column: Column, first: int, tcp: seq<L4Service>, udp: seq<L4Service>,
                  table: map<string, int>, tcp': seq<L4Service>, udp': seq<L4Service>, table': map<string, int>)
    requires FilledUpTo(namespace, column, |column.ports|, first, tcp, udp, table, tcp', udp', table')
    ensures tcp' == tcp + WithProtocol(ColumnEntries(namespace, column, first), TCP)
    ensures udp' == udp + WithProtocol(ColumnEntries(namespace, column, first), UDP)
    ensures table' == table + Table(column.ports, first)
  {
  }

  /** One round of the outer loop: a column is sorted and allocated. */
  method SortAndAllocateColumn(namespace: string, col: ServiceCollection, tcp: seq<L4Service>, udp: seq<L4Service>,
                               first: int)
    returns (tcp': seq<L4Service>, udp': seq<L4Service>, next: int)
    modifies col.canaryPorts, col`upstreamPorts
    ensures SortedPorts(col.canaryPorts[..]) && multiset(col.canaryPorts[..]) == multiset(old(col.canaryPorts[..]))
    ensures next == first + col.canaryPorts.Length
    ensures tcp' == tcp + WithProtocol(ColumnEntries(namespace, col.AsColumn(), first), TCP)
    ensures udp' == udp + WithProtocol(ColumnEntries(namespace, col.AsColumn(), first), UDP)
    ensures col.upstreamPorts == old(col.upstreamPorts) + Table(col.canaryPorts[..], first)
  {
    SortByPort(col.canaryPorts);
    tcp', udp', next := AllocateColumn(namespace, col, tcp, udp, first);
  }

  // ---------------------------------------------------------------- all services

  /** Different collections have different port lists to sort. */
  predicate Separate(cols: seq<ServiceCollection>) {
    forall i, j | 0 <= i < j < |cols| :: cols[i] != cols[j] && cols[i].canaryPorts != cols[j].canaryPorts
  }

  lemma SeparatePermuted(a: seq<ServiceCollection>, b: seq<ServiceCollection>)
    requires Separate(a) && multiset(a) == multiset(b)
    ensures Separate(b)
    ensures forall c :: c in a <==> c in b
  {
    forall c ensures c in a <==> c in b {
      assert c in a <==> c in multiset(a);
      assert c in b <==> c in multiset(b);
    }
    forall i, j | 0 <= i < j < |b| ensures b[i] != b[j] && b[i].canaryPorts != b[j].canaryPorts {
      if b[i] == b[j] {
        TwiceIn(b, i, j);
        OnceIn(a, b[i]);
        assert false;
      }
      assert b[i] in a && b[j] in a;
    }
  }

  lemma TwiceIn(b: seq<ServiceCollection>, i: nat, j: nat)
    requires i < j < |b| && b[i] == b[j]
    ensures multiset(b)[b[i]] >= 2
  {
    assert b == b[..j] + [b[j]] + b[j + 1..];
    assert b[j] in b[..j] by { assert b[..j][i] == b[j]; }
  }

  lemma {:induction false} OnceIn(a: seq<ServiceCollection>, c: ServiceCollection)
    requires Separate(a)
    ensures multiset(a)[c] <= 1
  {
    if a != [] {
      var n := |a| - 1;
      OnceIn(a[..n], c);
      assert a == a[..n] + [a[n]];
      assert a[n] !in a[..n];
    }
  }

  predicate Arranges(col: ServiceCollection, view: Column, before: seq<CanaryPort>)
    reads col, col.canaryPorts, col.forked, col.canary
  {
    view == col.AsColumn() && SortedPorts(view.ports) && multiset(view.ports) == multiset(before)
  }

  lemma EntriesNext(namespace: string, before: seq<Column>, col: Column, protocol: Protocol)
    ensures PortCount(before + [col]) == PortCount(before) + |col.ports|
    ensures WithProtocol(Entries(namespace, before + [col]), protocol)
         == WithProtocol(Entries(namespace, before), protocol)
          + WithProtocol(ColumnEntries(namespace, col, FIRST_PORT + PortCount(before)), protocol)
  {
    hide WithProtocol, ColumnEntries;
    assert (before + [col])[..|before|] == before;
    var added := ColumnEntries(namespace, col, FIRST_PORT + PortCount(before));
    assert Entries(namespace, before + [col]) == Entries(namespace, before) + added;
    WithProtocolAppend(Entries(namespace, before), added, protocol);
  }

  lemma BaseNext(before: seq<Column>, col: Column, bases: seq<int>)
    requires |bases| == |before| && forall k | 0 <= k < |before| :: bases[k] == Base(before, k)
    ensures forall k | 0 <= k < |before| :: bases[k] == Base(before + [col], k)
    ensures Base(before + [col], |before|) == FIRST_PORT + PortCount(before)
  {
    forall k | 0 <= k <= |before| ensures Base(before + [col], k) == FIRST_PORT + PortCount(before[..k]) {
      assert (before + [col])[..k] == before[..k];
    }
    assert before[..|before|] == before;
  }

  /** The column was sorted into `view` and its table extended from listen port `first` on. */
  predicate Done(col: ServiceCollection, view: Column, first: int, ports: seq<CanaryPort>, table: map<string, int>)
    reads col, col.canaryPorts, col.forked, col.canary
  {
    Arranges(col, view, ports) && col.upstreamPorts == table + Table(view.ports, first)
  }

  method AllocateSorted(namespace: string, cols: seq<ServiceCollection>)
    returns (tcp: seq<L4Service>, udp: seq<L4Service>, ghost views: seq<Column>)
    requires Separate(cols)
    modifies set c | c in cols :: c.canaryPorts
    modifies (set c | c in cols)`upstreamPorts
    ensures |views| == |cols|
    ensures tcp == WithProtocol(Entries(namespace, views), TCP)
    ensures udp == WithProtocol(Entries(namespace, views), UDP)
    ensures forall k | 0 <= k < |cols| ::
              Done(cols[k], views[k], Base(views, k), old(cols[k].canaryPorts[..]), old(cols[k].upstreamPorts))
  {
    hide WithProtocol, Entries, PortCount, Base, Table;
    NothingAllocated(namespace, FIRST_PORT);
    tcp, udp, views := [], [], [];
    ghost var bases: seq<int> := [];
    var next := FIRST_PORT;
    var i := 0;
    while i < |cols|
      invariant 0 <= i == |views| == |bases| <= |cols| && next == FIRST_PORT + PortCount(views)
      invariant forall k | 0 <= k < i :: bases[k] == Base(views, k)
      invariant tcp == WithProtocol(Entries(namespace, views), TCP)
      invariant udp == WithProtocol(Entries(namespace, views), UDP)
      invariant forall k | 0 <= k < i ::
                  Done(cols[k], views[k], bases[k], old(cols[k].canaryPorts[..]), old(cols[k].upstreamPorts))
      invariant forall k | i <= k < |cols| :: unchanged(cols[k]) && unchanged(cols[k].canaryPorts)
    {
      ghost var before := views;
      assert cols[i].canaryPorts[..] == old(cols[i].canaryPorts[..]);
      tcp, udp, next := SortAndAllocateColumn(namespace, cols[i], tcp, udp, next);
      ghost var view := cols[i].AsColumn();
      views := before + [view];
      EntriesNext(namespace, before, view, TCP);
      EntriesNext(namespace, before, view, UDP);
      assert Done(cols[i], view, FIRST_PORT + PortCount(before), old(cols[i].canaryPorts[..]),
                  old(cols[i].upstreamPorts));
      BaseNext(before, view, bases);
      bases := bases + [FIRST_PORT + PortCount(before)];
      i := i + 1;
    }
  }

  /** Any order that the sort leaves equal names in will do: the lists and tables follow the order that results. */
  method GetUpstreamServices(namespace: string, cols: array<ServiceCollection>)
    returns (tcp: seq<L4Service>, udp: seq<L4Service>, ghost views: seq<Column>)
    requires Separate(cols[..])
    modifies cols
    modifies set c | c in cols[..] :: c.canaryPorts
    modifies (set c | c in cols[..])`upstreamPorts
    ensures multiset(cols[..]) == multiset(old(cols[..])) && SortedNames(Names(cols[..]))
    ensures |views| == cols.Length
    ensures tcp == WithProtocol(Entries(namespace, views), TCP)
    ensures udp == WithProtocol(Entries(namespace, views), UDP)
    ensures Separate(cols[..]) && forall c :: c in cols[..] <==> c in old(cols[..])
    ensures forall k | 0 <= k < cols.Length ::
              var c := cols[k];
              c in old(cols[..]) && Done(c, views[k], Base(views, k), old(c.canaryPorts[..]), old(c.upstreamPorts))
  {
    hide Done, Base, Entries, WithProtocol, Less;
    ghost var given := cols[..];
    SortByName(cols);
    SeparatePermuted(given, cols[..]);
    var sorted := cols[..];
    assert forall k | 0 <= k < |sorted| :: sorted[k] in sorted && sorted[k] in given;
    assert forall k | 0 <= k < |sorted| :: sorted[k].canaryPorts[..] == old(sorted[k].canaryPorts[..]);
    tcp, udp, views := AllocateSorted(namespace, sorted);
    assert cols[..] == sorted;
  }
}
