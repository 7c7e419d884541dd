/** The allocation of nginx listen ports: every configured service port gets the next listen port, an entry in the
    TCP or the UDP list, and a place in its service's table from protocol and port to listen port. */
module Upstream {
  import opened Text
  import opened Kube

  /** The protocol a CanaryPort asks for; nothing keeps a user from writing another text. */
  datatype CanaryProtocol = Http | Https | Tcp | Udp | Unknown(text: string)

  datatype CanaryPort = CanaryPort(port: int, protocol: CanaryProtocol, weight: Option<int>)

  /** The two core protocols an allocation uses. */
  datatype Protocol = TCP | UDP
  {
    function Text(): string {
      if TCP? then "TCP" else "UDP"
    }
  }

  datatype Endpoint = Endpoint(address: string, port: int, weight: int)

  datatype Backend = Backend(port: int, name: string, namespace: string, protocol: Protocol)

  datatype L4Service = L4Service(port: int, backend: Backend, endpoints: seq<Endpoint>)

  /** What the allocation reads of a service: its sort name, its configured ports, and the names of the forked and
      of the canary service behind the proxy. */
  datatype Column = Column(name: string, ports: seq<CanaryPort>, forked: string, canary: string)

  const FIRST_PORT := 8080

  // ---------------------------------------------------------------- one entry

  /** Everything but UDP is proxied as TCP. */
  function BackendProtocol(p: CanaryPort): Protocol {
    if p.protocol == Udp then UDP else TCP
  }

  /** The canary's share: a missing weight sends it nothing, a weight outside 0..100 is clamped. */
  function CanaryWeight(weight: Option<int>): int {
    match weight
    case None => 0
    case Some(w) => if w >= 100 then 100 else if w <= 0 then 0 else w
  }

  /** `share` percent are what the weight asks for: as much as it says, but between nothing and everything, and nothing
      if it is missing. */
  predicate Wants(weight: Option<int>, share: int) {
    match weight
    case None => share == 0
    case Some(w) => (0 <= w <= 100 ==> share == w) && (w < 0 ==> share == 0) && (w > 100 ==> share == 100)
  }

  function ProtoPortKey(protocol: string, port: int): string {
    protocol + "-" + Decimal(port)
  }

  function Key(p: CanaryPort): string {
    ProtoPortKey(BackendProtocol(p).Text(), p.port)
  }

  function Entry(namespace: string, col: Column, p: CanaryPort, listen: int): L4Service {
    L4Service(listen, Backend(p.port, col.name, namespace, BackendProtocol(p)),
              [Endpoint(col.forked, p.port, 100 - CanaryWeight(p.weight)),
               Endpoint(col.canary, p.port, CanaryWeight(p.weight))])
  }

  /** Keys of protocols without a dash determine protocol and port. */
  lemma KeyInjective(p: string, m: int, q: string, n: int)
    requires Free(p, '-') && Free(q, '-')
    requires ProtoPortKey(p, m) == ProtoPortKey(q, n)
    ensures p == q && m == n
  {
    SplitAtSeparator(p, Decimal(m), '-');
    SplitAtSeparator(q, Decimal(n), '-');
    assert p + ['-'] + Decimal(m) == q + ['-'] + Decimal(n);
    assert p == Split(ProtoPortKey(p, m), '-')[0] == q;
    SameTail(p + "-", Decimal(m), Decimal(n));
    DecimalInjective(m, n);
  }

  /** Why the protocols must not contain a dash.  These are no values the API server accepts. */
  lemma KeyCollision()
    ensures ProtoPortKey("TCP-", 1) == ProtoPortKey("TCP", -1)
  {
  }

  // ---------------------------------------------------------------- the whole allocation

  /** The entries of the first `n` ports of a column, `first` being the first one's listen port. */
  function EntriesUpTo(namespace: string, col: Column, n: nat, first: int): (r: seq<L4Service>)
    requires n <= |col.ports|
    ensures |r| == n
  {
    if n == 0 then []
       else EntriesUpTo(namespace, col, n - 1, first) + [Entry(namespace, col, col.ports[n - 1], first + n - 1)]
  }

  function ColumnEntries(namespace: string, col: Column, first: int): (r: seq<L4Service>)
    ensures |r| == |col.ports|
  {
    EntriesUpTo(namespace, col, |col.ports|, first)
  }

  function PortCount(cols: seq<Column>): nat {
    if cols == [] then 0 else PortCount(cols[..|cols| - 1]) + |cols[|cols| - 1].ports|
  }

  /** The listen port of the first port of column `i`. */
  function Base(cols: seq<Column>, i: nat): int
    requires i <= |cols|
  {
    FIRST_PORT + PortCount(cols[..i])
  }

  /** All entries in the order of allocation. */
  function Entries(namespace: string, cols: seq<Column>): seq<L4Service> {
    if cols == [] then []
    else
      var before := cols[..|cols| - 1];
      Entries(namespace, before) + ColumnEntries(namespace, cols[|cols| - 1], FIRST_PORT + PortCount(before))
  }

  function WithProtocol(entries: seq<L4Service>, protocol: Protocol): seq<L4Service> {
    if entries == [] then []
    else
      var before := WithProtocol(entries[..|entries| - 1], protocol);
      var last := entries[|entries| - 1];
      if last.backend.protocol == protocol then before + [last] else before
  }

  function KeysUpTo(ports: seq<CanaryPort>, n: nat): (r: seq<string>)
    requires n <= |ports|
    ensures |r| == n
  {
    if n == 0 then [] else KeysUpTo(ports, n - 1) + [Key(ports[n - 1])]
  }

  function Keys(ports: seq<CanaryPort>): (r: seq<string>)
    ensures |r| == |ports|
  {
    KeysUpTo(ports, |ports|)
  }

  /** The table of one service, `first` being the listen port of its first port; a repeated key keeps its last
      listen port. */
  function TableOf(keys: seq<string>, first: int): map<string, int> {
    if keys == [] then map[]
    else
      var n := |keys| - 1;
      TableOf(keys[..n], first)[keys[n] := first + n]
  }

  function Table(ports: seq<CanaryPort>, first: int): map<string, int> {
    TableOf(Keys(ports), first)
  }

  // ---------------------------------------------------------------- what the lists hold

  lemma {:induction false} EntryUpToAt(namespace: string, col: Column, n: nat, first: int, j: nat)
    requires j < n <= |col.ports|
    ensures EntriesUpTo(namespace, col, n, first)[j] == Entry(namespace, col, col.ports[j], first + j)
  {
    if j < n - 1 {
      EntryUpToAt(namespace, col, n - 1, first, j);
    }
  }

  lemma {:induction false} KeyUpToAt(ports: seq<CanaryPort>, n: nat, j: nat)
    requires j < n <= |ports|
    ensures KeysUpTo(ports, n)[j] == Key(ports[j])
  {
    if j < n - 1 {
      KeyUpToAt(ports, n - 1, j);
    }
  }

  lemma {:induction false} EntriesCount(namespace: string, cols: seq<Column>)
    ensures |Entries(namespace, cols)| == PortCount(cols)
  {
    if cols != [] {
      EntriesCount(namespace, cols[..|cols| - 1]);
    }
  }

  /** The k-th entry listens on port 8080 + k. */
  lemma {:induction false} ListenPortsAreConsecutive(namespace: string, cols: seq<Column>)
    ensures |Entries(namespace, cols)| == PortCount(cols)
    ensures forall k | 0 <= k < PortCount(cols) :: Entries(namespace, cols)[k].port == FIRST_PORT + k
  {
    EntriesCount(namespace, cols);
    if cols != [] {
      var n := |cols| - 1;
      ListenPortsAreConsecutive(namespace, cols[..n]);
      var first := FIRST_PORT + PortCount(cols[..n]);
      var entries := ColumnEntries(namespace, cols[n], first);
      forall j | 0 <= j < |entries| ensures entries[j].port == first + j {
        EntryUpToAt(namespace, cols[n], |cols[n].ports|, first, j);
      }
    }
  }

  /** Port `j` of column `i` has its entry at its own place. */
  lemma {:induction false} EntryAt(namespace: string, cols: seq<Column>, i: nat, j: nat)
    requires i < |cols| && j < |cols[i].ports|
    ensures 0 <= Base(cols, i) - FIRST_PORT + j < |Entries(namespace, cols)| == PortCount(cols)
    ensures Entries(namespace, cols)[Base(cols, i) - FIRST_PORT + j]
              == Entry(namespace, cols[i], cols[i].ports[j], Base(cols, i) + j)
  {
    var n := |cols| - 1;
    EntriesCount(namespace, cols);
    EntriesCount(namespace, cols[..n]);
    if i == n {
      EntryUpToAt(namespace, cols[n], |cols[n].ports|, FIRST_PORT + PortCount(cols[..n]), j);
    } else {
      EntryAt(namespace, cols[..n], i, j);
      assert cols[..n][..i] == cols[..i];
    }
  }

  /** And every entry is the entry of some configured port. */
  lemma {:induction false} EntryOrigin(namespace: string, cols: seq<Column>, k: nat) returns (i: nat, j: nat)
    requires k < |Entries(namespace, cols)|
    ensures i < |cols| && j < |cols[i].ports| && k == Base(cols, i) - FIRST_PORT + j
    ensures Entries(namespace, cols)[k] == Entry(namespace, cols[i], cols[i].ports[j], FIRST_PORT + k)
  {
    var n := |cols| - 1;
    EntriesCount(namespace, cols[..n]);
    if k < |Entries(namespace, cols[..n])| {
      i, j := EntryOrigin(namespace, cols[..n], k);
      assert cols[..n][..i] == cols[..i];
    } else {
      i, j := n, k - |Entries(namespace, cols[..n])|;
      EntryUpToAt(namespace, cols[n], |cols[n].ports|, FIRST_PORT + PortCount(cols[..n]), j);
    }
  }

  predicate Increasing(entries: seq<L4Service>) {
    forall i, j | 0 <= i < j < |entries| :: entries[i].port < entries[j].port
  }

  lemma {:induction false} WithProtocolHolds(entries: seq<L4Service>, protocol: Protocol)
    ensures forall e :: e in WithProtocol(entries, protocol) <==> e in entries && e.backend.protocol == protocol
  {
    if entries != [] {
      var n := |entries| - 1;
      WithProtocolHolds(entries[..n], protocol);
      assert entries == entries[..n] + [entries[n]];
    }
  }

  lemma {:induction false} WithProtocolIncreasing(entries: seq<L4Service>, protocol: Protocol)
    requires Increasing(entries)
    ensures Increasing(WithProtocol(entries, protocol))
  {
    if entries != [] {
      var n := |entries| - 1;
      WithProtocolIncreasing(entries[..n], protocol);
      WithProtocolHolds(entries[..n], protocol);
      var before := WithProtocol(entries[..n], protocol);
      forall i | 0 <= i < |before| ensures before[i].port < entries[n].port {
        assert before[i] in entries[..n];
      }
    }
  }

  lemma {:induction false} TcpAndUdpPartition(entries: seq<L4Service>)
    ensures |WithProtocol(entries, TCP)| + |WithProtocol(entries, UDP)| == |entries|
  {
    if entries != [] {
      TcpAndUdpPartition(entries[..|entries| - 1]);
    }
  }

  predicate Listens(entries: seq<L4Service>, port: int) {
    exists e :: e in entries && e.port == port
  }

  lemma ListensExactly(namespace: string, cols: seq<Column>, l: int)
    ensures Listens(Entries(namespace, cols), l) <==> FIRST_PORT <= l < FIRST_PORT + PortCount(cols)
  {
    var es := Entries(namespace, cols);
    ListenPortsAreConsecutive(namespace, cols);
    if FIRST_PORT <= l < FIRST_PORT + PortCount(cols) {
      assert es[l - FIRST_PORT] in es;
    }
  }

  /** For N configured ports the two lists are strictly increasing and together listen on exactly the ports
      8080 .. 8080+N-1, each in one list only. */
  lemma AllocationIsExact(namespace: string, cols: seq<Column>)
    ensures var tcp, udp := WithProtocol(Entries(namespace, cols), TCP), WithProtocol(Entries(namespace, cols), UDP);
            && Increasing(tcp) && Increasing(udp) && |tcp| + |udp| == PortCount(cols)
            && (forall l :: Listens(tcp, l) || Listens(udp, l) <==> FIRST_PORT <= l < FIRST_PORT + PortCount(cols))
            && (forall l :: !(Listens(tcp, l) && Listens(udp, l)))
  {
    var es := Entries(namespace, cols);
    var tcp, udp := WithProtocol(es, TCP), WithProtocol(es, UDP);
    ListenPortsAreConsecutive(namespace, cols);
    WithProtocolIncreasing(es, TCP);
    WithProtocolIncreasing(es, UDP);
    WithProtocolHolds(es, TCP);
    WithProtocolHolds(es, UDP);
    TcpAndUdpPartition(es);
    forall l ensures Listens(tcp, l) || Listens(udp, l) <==> FIRST_PORT <= l < FIRST_PORT + PortCount(cols) {
      ListensExactly(namespace, cols, l);
      if Listens(es, l) {
        var e :| e in es && e.port == l;
        assert e in tcp || e in udp;
      }
    }
    forall l ensures !(Listens(tcp, l) && Listens(udp, l)) {
      if Listens(tcp, l) && Listens(udp, l) {
        SamePortSameEntry(es, l);
      }
    }
  }

  /** Strictly increasing entries never listen twice on one port. */
  lemma SamePortSameEntry(entries: seq<L4Service>, l: int)
    requires Increasing(entries)
    ensures forall a, b | a in entries && b in entries && a.port == l && b.port == l :: a == b
  {
  }

  /** Every listen port is a TCP or UDP port number exactly up to 57456 configured ports. */
  lemma PortsFitExactly(namespace: string, cols: seq<Column>)
    ensures (forall e | e in Entries(namespace, cols) :: 0 < e.port <= 65535) <==> PortCount(cols) <= 57456
  {
    ListenPortsAreConsecutive(namespace, cols);
    if PortCount(cols) > 57456 {
      assert Entries(namespace, cols)[57456] in Entries(namespace, cols);
    }
  }

  // ---------------------------------------------------------------- what the tables hold

  lemma KeyDetermines(a: CanaryPort, b: CanaryPort)
    ensures Key(a) == Key(b) <==> BackendProtocol(a) == BackendProtocol(b) && a.port == b.port
  {
    if Key(a) == Key(b) {
      KeyInjective(BackendProtocol(a).Text(), a.port, BackendProtocol(b).Text(), b.port);
    }
  }

  /** The table sends a key to the place of its last occurrence. */
  lemma {:induction false} TableOfLookup(keys: seq<string>, first: int, j: nat)
    requires j < |keys|
    ensures keys[j] in TableOf(keys, first)
    ensures TableOf(keys, first)[keys[j]] == first + j <==> forall k | j < k < |keys| :: keys[k] != keys[j]
  {
    var n := |keys| - 1;
    if j < n {
      TableOfLookup(keys[..n], first, j);
      assert keys[..n][j] == keys[j];
      assert forall k | j < k < n :: keys[..n][k] == keys[k];
      if keys[n] == keys[j] {
        assert TableOf(keys, first)[keys[j]] == first + n;
      }
    }
  }

  lemma {:induction false} TableOfOrigin(keys: seq<string>, first: int, key: string) returns (j: nat)
    requires key in TableOf(keys, first)
    ensures j < |keys| && key == keys[j] && TableOf(keys, first)[key] == first + j
  {
    j := |keys| - 1;
    if key != keys[j] {
      j := TableOfOrigin(keys[..j], first, key);
    }
  }

  /** Is `j` the last port listed with its protocol and number? */
  predicate LastOfItsKind(ports: seq<CanaryPort>, j: nat)
    requires j < |ports|
  {
    forall k | j < k < |ports| ::
      !(BackendProtocol(ports[k]) == BackendProtocol(ports[j]) && ports[k].port == ports[j].port)
  }

  /** The table sends a port to its own entry's listen port exactly if it is the last of its kind. */
  lemma TableLookup(ports: seq<CanaryPort>, first: int, j: nat)
    requires j < |ports|
    ensures Key(ports[j]) in Table(ports, first)
    ensures Table(ports, first)[Key(ports[j])] == first + j <==> LastOfItsKind(ports, j)
  {
    TableOfLookup(Keys(ports), first, j);
    KeyUpToAt(ports, |ports|, j);
    forall k | j < k < |ports|
      ensures Keys(ports)[k] == Keys(ports)[j] <==>
                BackendProtocol(ports[k]) == BackendProtocol(ports[j]) && ports[k].port == ports[j].port
    {
      KeyUpToAt(ports, |ports|, k);
      KeyDetermines(ports[k], ports[j]);
    }
  }

  /** Two keys of a table never share a listen port, and every listen port of it is one of its service's. */
  lemma TableOfInjective(keys: seq<string>, first: int, a: string, b: string)
    requires a in TableOf(keys, first) && b in TableOf(keys, first)
    ensures a in keys && first <= TableOf(keys, first)[a] < first + |keys|
    ensures TableOf(keys, first)[a] == TableOf(keys, first)[b] ==> a == b
  {
    var i := TableOfOrigin(keys, first, a);
    var j := TableOfOrigin(keys, first, b);
  }
}
