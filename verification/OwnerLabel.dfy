/** The label value "namespace.name" by which both processes find what belongs to a CanaryRelease, and its decoding. */
module OwnerLabel {
  import opened Text
  import opened Kube
  import opened Takeover

  /** SplitNamespaceAndNameByDot; None where it returns an error. */
  function SplitByDot(value: string): Option<(string, string)> {
    var parts := Split(value, '.');
    if |parts| != 2 then None else Some((parts[0], parts[1]))
  }

  lemma {:induction false} CountsSeparators(s: string, sep: char)
    ensures |Split(s, sep)| == 1 <==> Free(s, sep)
  {
    if s != "" {
      CountsSeparators(s[1..], sep);
      assert s == [s[0]] + s[1..];
    }
  }

  /** Splitting a joined text splits its two parts. */
  lemma {:induction false} SplitJoined(a: string, b: string, sep: char)
    ensures |Split(a + [sep] + b, sep)| == |Split(a, sep)| + |Split(b, sep)|
  {
    var s := a + [sep] + b;
    if a == "" {
      assert s[1..] == b;
    } else {
      SplitJoined(a[1..], b, sep);
      assert s[1..] == a[1..] + [sep] + b;
    }
  }

  lemma CreatedByIsJoined(namespace: string, name: string)
    ensures CreatedBy(namespace, name) == namespace + ['.'] + name
  {
  }

  /** Decoding what was encoded gives the pair back exactly if neither part contains a dot, and otherwise an error; it
      never gives another pair. */
  lemma DecodingIsExact(namespace: string, name: string)
    ensures SplitByDot(CreatedBy(namespace, name))
         == if Free(namespace, '.') && Free(name, '.') then Some((namespace, name)) else None
  {
    CreatedByIsJoined(namespace, name);
    SplitJoined(namespace, name, '.');
    CountsSeparators(namespace, '.');
    CountsSeparators(name, '.');
    if Free(namespace, '.') && Free(name, '.') {
      SplitAtSeparator(namespace, name, '.');
      SplitFreeText(name, '.');
    }
  }

  /** With dot-free namespaces, which Kubernetes demands, distinct CanaryReleases have distinct label values, dots in
      their names or not, and hence distinct proxy selectors. */
  lemma LabelsAreDistinct(namespace: string, name: string, namespace': string, name': string)
    requires Free(namespace, '.') && Free(namespace', '.')
    ensures CreatedBy(namespace, name) == CreatedBy(namespace', name') <==> namespace == namespace' && name == name'
    ensures ProxySelector(namespace, name) == ProxySelector(namespace', name') <==>
              namespace == namespace' && name == name'
  {
    CreatedByIsJoined(namespace, name);
    CreatedByIsJoined(namespace', name');
    if CreatedBy(namespace, name) == CreatedBy(namespace', name') {
      SplitAtSeparator(namespace, name, '.');
      SplitAtSeparator(namespace', name', '.');
      assert namespace == Split(CreatedBy(namespace, name), '.')[0] == Split(CreatedBy(namespace', name'), '.')[0]
               == namespace';
      SameTail(namespace + ".", name, name');
    }
    assert ProxySelector(namespace, name)[LABEL_KEY_CREATED_BY] == CreatedBy(namespace, name);
    assert ProxySelector(namespace', name')[LABEL_KEY_CREATED_BY] == CreatedBy(namespace', name');
  }

  /** A dot in a namespace would let two CanaryReleases share their label. */
  lemma DottedNamespacesCollide()
    ensures CreatedBy("a.b", "c") == CreatedBy("a", "b.c")
  {
  }
}
