/** The check that decides whether nginx has to be reloaded.  It tests inclusion in one direction only, yet on
    allocated configurations it is equality. */
module ChangeCheck {
  import opened Text
  import opened Kube
  import opened Upstream

  /** Of a TemplateConfig only the two lists take part in the comparison. */
  datatype TemplateConfig = TemplateConfig(tcp: seq<L4Service>, udp: seq<L4Service>)

  /** The configuration that an allocation over `cols` ends in. */
  function Generate(namespace: string, cols: seq<Column>): TemplateConfig {
    var es := Entries(namespace, cols);
    TemplateConfig(WithProtocol(es, TCP), WithProtocol(es, UDP))
  }

  predicate EntriesAgree(s: L4Service, t: L4Service) {
    && |s.endpoints| == |t.endpoints|
    && (forall e | e in s.endpoints :: e in t.endpoints)
    && s.(endpoints := []) == t.(endpoints := [])
  }

  predicate Included(a: seq<L4Service>, b: seq<L4Service>) {
    |a| == |b| && forall s | s in a :: exists t :: t in b && EntriesAgree(s, t)
  }

  predicate ConfigsAgree(c: TemplateConfig, d: TemplateConfig) {
    Included(c.tcp, d.tcp) && Included(c.udp, d.udp)
  }

  method EntryEqual(s: L4Service, t: L4Service) returns (equal: bool)
    ensures equal == EntriesAgree(s, t)
  {
    if |s.endpoints| != |t.endpoints| {
      return false;
    }
    for i := 0 to |s.endpoints|
      invariant forall k | 0 <= k < i :: s.endpoints[k] in t.endpoints
    {
      var found := false;
      for j := 0 to |t.endpoints|
        invariant !found && forall k | 0 <= k < j :: s.endpoints[i] != t.endpoints[k]
      {
        if s.endpoints[i] == t.endpoints[j] {
          found := true;
          break;
        }
      }
      if !found {
        assert s.endpoints[i] in s.endpoints && s.endpoints[i] !in t.endpoints;
        return false;
      }
    }
    var s', t' := s.(endpoints := []), t.(endpoints := []);
    return s' == t';
  }

  method ListIncluded(a: seq<L4Service>, b: seq<L4Service>) returns (included: bool)
    ensures included == Included(a, b)
  {
    if |a| != |b| {
      return false;
    }
    for i := 0 to |a|
      invariant forall k | 0 <= k < i :: exists t :: t in b && EntriesAgree(a[k], t)
    {
      var found := false;
      for j := 0 to |b|
        invariant !found && forall k | 0 <= k < j :: !EntriesAgree(a[i], b[k])
      {
        var same := EntryEqual(a[i], b[j]);
        if same {
          assert b[j] in b && EntriesAgree(a[i], b[j]);
          found := true;
          break;
        }
      }
      if !found {
        assert a[i] in a;
        return false;
      }
    }
    return true;
  }

  /** None stands for nil, which is equal to nil only. */
  method ConfigEqual(c: Option<TemplateConfig>, d: Option<TemplateConfig>) returns (equal: bool)
    ensures equal == if c.Some? && d.Some? then ConfigsAgree(c.value, d.value) else c == d
  {
    if c.None? || d.None? {
      return c.None? && d.None?;
    }
    equal := ListIncluded(c.value.tcp, d.value.tcp);
    if equal {
      equal := ListIncluded(c.value.udp, d.value.udp);
    }
  }

  /** The source takes a configuration as equal to itself without looking; the comparison would find the same. */
  lemma ConfigsAgreeReflexive(c: TemplateConfig)
    ensures ConfigsAgree(c, c)
  {
  }

  /** In general the comparison is neither symmetric nor equality. */
  lemma EntriesAgreeOneWay(a: Endpoint, b: Endpoint, s: L4Service)
    requires a != b
    ensures EntriesAgree(s.(endpoints := [a, a]), s.(endpoints := [a, b]))
    ensures !EntriesAgree(s.(endpoints := [a, b]), s.(endpoints := [a, a]))
  {
    assert b in [a, b] && b !in [a, a];
  }

  // ---------------------------------------------------------------- allocated configurations

  /** Every column names a forked and a canary service, as the rendering makes it. */
  predicate Rendered(cols: seq<Column>) {
    forall c | c in cols :: EndsWith(c.forked, FORKED_SUFFIX) && EndsWith(c.canary, CANARY_SUFFIX)
  }

  predicate Allocated(e: L4Service) {
    |e.endpoints| == 2 && EndsWith(e.endpoints[0].address, FORKED_SUFFIX)
    && EndsWith(e.endpoints[1].address, CANARY_SUFFIX)
  }

  lemma SuffixesDiffer(s: string)
    ensures !(EndsWith(s, FORKED_SUFFIX) && EndsWith(s, CANARY_SUFFIX))
  {
  }

  /** A forked endpoint only ever matches a forked one. */
  lemma AllocatedEntriesEqual(s: L4Service, t: L4Service)
    requires Allocated(s) && Allocated(t)
    ensures EntriesAgree(s, t) <==> s == t
  {
    if EntriesAgree(s, t) {
      assert s.endpoints[0] in s.endpoints && s.endpoints[1] in s.endpoints;
      SuffixesDiffer(s.endpoints[0].address);
      SuffixesDiffer(s.endpoints[1].address);
      assert s.endpoints == t.endpoints;
      assert s == s.(endpoints := []).(endpoints := s.endpoints);
    }
  }

  /** A strictly increasing list of n indices below n is the list of all of them. */
  lemma {:induction false} IncreasingIndices(g: seq<nat>, low: nat)
    requires forall i, j | 0 <= i < j < |g| :: g[i] < g[j]
    requires forall i | 0 <= i < |g| :: low <= g[i] < low + |g|
    ensures forall i | 0 <= i < |g| :: g[i] == low + i
  {
    if g != [] {
      assert g[|g| - 1] == low + |g| - 1 by { IndexAtLeast(g, low, |g| - 1); }
      IncreasingIndices(g[..|g| - 1], low);
    }
  }

  lemma {:induction false} IndexAtLeast(g: seq<nat>, low: nat, i: nat)
    requires i < |g| && (forall i, j | 0 <= i < j < |g| :: g[i] < g[j]) && g[0] >= low
    ensures g[i] >= low + i
  {
    if i > 0 {
      IndexAtLeast(g, low, i - 1);
    }
  }

  /** Where the elements of the one list are in the other. */
  lemma {:induction false} IndicesIn(a: seq<L4Service>, b: seq<L4Service>) returns (g: seq<nat>)
    requires forall s | s in a :: s in b
    ensures |g| == |a| && forall i | 0 <= i < |a| :: g[i] < |b| && b[g[i]] == a[i]
  {
    if a == [] {
      g := [];
    } else {
      var n := |a| - 1;
      assert a[n] in a;
      var k :| 0 <= k < |b| && b[k] == a[n];
      g := IndicesIn(a[..n], b);
      g := g + [k];
    }
  }

  /** Inclusion between increasing lists of one length is equality. */
  lemma IncludedListsAreEqual(a: seq<L4Service>, b: seq<L4Service>)
    requires Increasing(a) && Increasing(b) && |a| == |b|
    requires forall s | s in a :: s in b
    ensures a == b
  {
    var g := IndicesIn(a, b);
    forall i, j | 0 <= i < j < |g| ensures g[i] < g[j] {
      assert b[g[i]].port < b[g[j]].port;
    }
    IncreasingIndices(g, 0);
  }

  lemma {:induction false} EntriesAreAllocated(namespace: string, cols: seq<Column>)
    requires Rendered(cols)
    ensures forall e | e in Entries(namespace, cols) :: Allocated(e)
  {
    forall e | e in Entries(namespace, cols) ensures Allocated(e) {
      var k :| 0 <= k < |Entries(namespace, cols)| && Entries(namespace, cols)[k] == e;
      var i, j := EntryOrigin(namespace, cols, k);
      assert cols[i] in cols;
    }
  }

  lemma AllocatedListsEqual(a: seq<L4Service>, b: seq<L4Service>)
    requires Increasing(a) && Increasing(b)
    requires forall e | e in a :: Allocated(e)
    requires forall e | e in b :: Allocated(e)
    ensures Included(a, b) <==> a == b
  {
    forall s, t | s in a && t in b ensures EntriesAgree(s, t) <==> s == t {
      AllocatedEntriesEqual(s, t);
    }
    if Included(a, b) {
      IncludedListsAreEqual(a, b);
    }
  }

  lemma GeneratedLists(namespace: string, cols: seq<Column>, protocol: Protocol)
    requires Rendered(cols)
    ensures var list := WithProtocol(Entries(namespace, cols), protocol);
            Increasing(list) && forall e | e in list :: Allocated(e)
  {
    ListenPortsAreConsecutive(namespace, cols);
    WithProtocolIncreasing(Entries(namespace, cols), protocol);
    WithProtocolHolds(Entries(namespace, cols), protocol);
    EntriesAreAllocated(namespace, cols);
  }

  /** On the configurations of any two allocations the change check is exact, hence symmetric and transitive. */
  lemma ChangeCheckIsExact(namespace: string, cols: seq<Column>, namespace': string, cols': seq<Column>)
    requires Rendered(cols) && Rendered(cols')
    ensures ConfigsAgree(Generate(namespace, cols), Generate(namespace', cols'))
       <==> Generate(namespace, cols) == Generate(namespace', cols')
  {
    var c, d := Generate(namespace, cols), Generate(namespace', cols');
    GeneratedLists(namespace, cols, TCP);
    GeneratedLists(namespace, cols, UDP);
    GeneratedLists(namespace', cols', TCP);
    GeneratedLists(namespace', cols', UDP);
    AllocatedListsEqual(c.tcp, d.tcp);
    AllocatedListsEqual(c.udp, d.udp);
  }
}
