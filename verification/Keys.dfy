/** pkg/cache/common.go: the "namespace:name" keys that events and volumes are matched by. */
module Keys {
  import opened Text

  function BuildKey(namespace: string, name: string): string {
    namespace + ":" + name
  }

  /** SplitKey; None is the error return, whose two strings the callers see as empty. */
  function SplitKey(key: string): Option<(string, string)> {
    var s := Split(key, ':');
    if |s| != 2 || s[0] == "" || s[1] == "" then None else Some((s[0], s[1]))
  }

  predicate KeyPart(s: string) {
    s != "" && ':' !in s
  }

  lemma SplitOfBuilt(namespace: string, name: string)
    ensures Split(BuildKey(namespace, name), ':') == Split(namespace, ':') + Split(name, ':')
  {
    assert BuildKey(namespace, name) == namespace + [':'] + name;
    SplitConcat(namespace, name, ':');
  }

  /** SplitKey accepts exactly the keys BuildKey makes from two non-empty, colon-free parts. */
  lemma SplitKeyDomain(key: string)
    ensures SplitKey(key).Some? <==>
      exists ns, name :: KeyPart(ns) && KeyPart(name) && key == BuildKey(ns, name)
  {
    if SplitKey(key).Some? {
      var s := Split(key, ':');
      JoinSplit(key, ':');
      assert Join(s[1..], ':') == s[1];
      assert KeyPart(s[0]) && KeyPart(s[1]) && key == BuildKey(s[0], s[1]);
    }
    if ns, name :| KeyPart(ns) && KeyPart(name) && key == BuildKey(ns, name) {
      SplitBuild(ns, name);
    }
  }

  /** Building then splitting returns the parts exactly when both are non-empty and colon-free. */
  lemma SplitBuild(namespace: string, name: string)
    ensures SplitKey(BuildKey(namespace, name)) == Some((namespace, name))
      <==> KeyPart(namespace) && KeyPart(name)
  {
    SplitOfBuilt(namespace, name);
    if KeyPart(namespace) && KeyPart(name) {
      SplitWhole(namespace, ':');
      SplitWhole(name, ':');
    } else if SplitKey(BuildKey(namespace, name)) == Some((namespace, name)) {
      JoinSplit(BuildKey(namespace, name), ':');
    }
  }

  /** A built key that splits at all splits into what it was built from. */
  lemma SplitBuiltSame(namespace: string, name: string)
    requires SplitKey(BuildKey(namespace, name)).Some?
    ensures SplitKey(BuildKey(namespace, name)) == Some((namespace, name))
  {
    SplitOfBuilt(namespace, name);
    JoinSplit(namespace, ':');
    JoinSplit(name, ':');
  }

  /** Splitting then building returns the key. */
  lemma BuildSplit(key: string)
    requires SplitKey(key).Some?
    ensures BuildKey(SplitKey(key).value.0, SplitKey(key).value.1) == key
  {
    var s := Split(key, ':');
    JoinSplit(key, ':');
    assert Join(s[1..], ':') == s[1];
  }

  /** With colon-free namespaces, comparing keys is comparing (namespace, name). */
  lemma KeyInjective(ns0: string, name0: string, ns1: string, name1: string)
    requires ':' !in ns0 && ':' !in ns1
    ensures BuildKey(ns0, name0) == BuildKey(ns1, name1) <==> ns0 == ns1 && name0 == name1
  {
    var k0, k1 := BuildKey(ns0, name0), BuildKey(ns1, name1);
    if k0 == k1 {
      assert k0[|ns0|] == ':' && k1[|ns1|] == ':';
      assert |ns0| == |ns1|;
      assert ns0 == k0[..|ns0|] == k1[..|ns1|] == ns1;
      assert name0 == k0[|ns0| + 1..] == k1[|ns1| + 1..] == name1;
    }
  }
}
