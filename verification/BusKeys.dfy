/** Keys: what joining scope, namespace and topic with slashes can and cannot tell apart. */
module BusKeys {
  import opened Text
  import opened BusModel

  function Normal(namespace: string): string {
    if namespace == "" then "default" else namespace
  }

  /** Two strings behind slash-free heads. */
  lemma SlashSplits(a: string, x: string, b: string, y: string)
    requires '/' !in a && '/' !in b
    ensures a + "/" + x <= b + "/" + y <==> a == b && x <= y
  {
    var l, r := a + "/" + x, b + "/" + y;
    assert l[|a|] == '/' && r[|b|] == '/';
    assert l[..|a|] == a && r[..|b|] == b && l[|a| + 1..] == x && r[|b| + 1..] == y;
    if |a| < |b| {
      assert r[|a|] == b[|a|] && b[|a|] in b;
    } else if |b| < |a| {
      assert l[|b|] == a[|b|] && a[|b|] in a;
    } else if l <= r {
      assert a == r[..|a|];
      assert x == r[|a| + 1..][..|x|];
    }
    if a == b && x <= y {
      assert r == l + y[|x|..];
    }
  }

  lemma ScopesHaveNoSlash(scope: string)
    requires ValidScope(scope)
    ensures '/' !in scope
  {
  }

  /** Two keys: one is a prefix of the other's exactly when the scopes agree and so do the rests. */
  lemma KeysByScope(s1: string, n1: string, t1: string, s2: string, n2: string, t2: string)
    requires ValidScope(s1) && ValidScope(s2)
    ensures FullKey(s1, n1, t1) <= FullKey(s2, n2, t2) <==> s1 == s2 && Normal(n1) + "/" + t1 <= Normal(n2) + "/" + t2
    ensures FullKey(s1, n1, t1) == FullKey(s2, n2, t2) <==> s1 == s2 && Normal(n1) + "/" + t1 == Normal(n2) + "/" + t2
  {
    ScopesHaveNoSlash(s1);
    ScopesHaveNoSlash(s2);
    var r1, r2 := Normal(n1) + "/" + t1, Normal(n2) + "/" + t2;
    assert FullKey(s1, n1, t1) == s1 + "/" + r1 && FullKey(s2, n2, t2) == s2 + "/" + r2;
    SlashSplits(s1, r1, s2, r2);
    SlashSplits(s2, r2, s1, r1);
  }

  /** Of the two namespaces, one with a slash behind it begins the other with a slash behind it. */
  predicate Nested(n1: string, n2: string) {
    Normal(n1) + "/" <= Normal(n2) + "/" || Normal(n2) + "/" <= Normal(n1) + "/"
  }

  /** Two namespaces of one scope can be taken for each other, for some topics that events may have,
      exactly when they are nested; keys of different scopes never collide. */
  lemma NamespacesCollideIff(s1: string, n1: string, s2: string, n2: string)
    requires ValidScope(s1) && ValidScope(s2)
    ensures (exists t1: string, t2: string :: !Blank(t1) && !Blank(t2) && FullKey(s1, n1, t1) == FullKey(s2, n2, t2))
       <==> s1 == s2 && Nested(n1, n2)
  {
    var h1, h2 := Normal(n1) + "/", Normal(n2) + "/";
    forall t1: string, t2: string | FullKey(s1, n1, t1) == FullKey(s2, n2, t2) ensures s1 == s2 && Nested(n1, n2) {
      KeysByScope(s1, n1, t1, s2, n2, t2);
      CommonStart(h1, t1, h2, t2);
    }
    if s1 == s2 && h1 <= h2 {
      NestedCollide(s1, n1, n2);
    } else if s1 == s2 && h2 <= h1 {
      NestedCollide(s1, n2, n1);
    }
  }

  lemma NestedCollide(scope: string, n1: string, n2: string)
    requires ValidScope(scope) && Normal(n1) + "/" <= Normal(n2) + "/"
    ensures exists t1: string, t2: string :: !Blank(t1) && !Blank(t2) && FullKey(scope, n1, t1) == FullKey(scope, n2, t2)
  {
    var h1, h2 := Normal(n1) + "/", Normal(n2) + "/";
    var t1, t2 := h2[|h1|..] + "x", "x";
    assert h1 + t1 == h2 + t2;
    KeysByScope(scope, n1, t1, scope, n2, t2);
    assert t1[|t1| - 1] == 'x' && t2[0] == 'x';
  }

  lemma CommonStart(h1: string, t1: string, h2: string, t2: string)
    requires h1 + t1 == h2 + t2
    ensures h1 <= h2 || h2 <= h1
  {
    if |h1| <= |h2| {
      assert h1 == (h1 + t1)[..|h1|] == (h2 + t2)[..|h1|] == h2[..|h1|];
    } else {
      assert h2 == (h2 + t2)[..|h2|] == (h1 + t1)[..|h2|] == h1[..|h2|];
    }
  }

  /** In particular, without slashes only a namespace and itself are nested. */
  lemma NestedWithoutSlash(n1: string, n2: string)
    requires '/' !in n1 && '/' !in n2
    ensures Nested(n1, n2) <==> Normal(n1) == Normal(n2)
  {
    SlashSplits(Normal(n1), "", Normal(n2), "");
    SlashSplits(Normal(n2), "", Normal(n1), "");
    assert Normal(n1) + "/" + "" == Normal(n1) + "/" && Normal(n2) + "/" + "" == Normal(n2) + "/";
  }

  /** As long as namespaces hold no slash, a key names one scope, namespace and topic, and a prefix
      key covers exactly the longer topics of its own scope and namespace. */
  lemma KeysTellApart(s1: string, n1: string, t1: string, s2: string, n2: string, t2: string)
    requires ValidScope(s1) && ValidScope(s2) && '/' !in n1 && '/' !in n2
    ensures FullKey(s1, n1, t1) <= FullKey(s2, n2, t2) <==> s1 == s2 && Normal(n1) == Normal(n2) && t1 <= t2
    ensures FullKey(s1, n1, t1) == FullKey(s2, n2, t2) <==> s1 == s2 && Normal(n1) == Normal(n2) && t1 == t2
  {
    KeysByScope(s1, n1, t1, s2, n2, t2);
    SlashSplits(Normal(n1), t1, Normal(n2), t2);
    SlashSplits(Normal(n2), t2, Normal(n1), t1);
  }

  /** A slash in a namespace is enough to receive another namespace's events. */
  lemma SlashInNamespaceCollides(scope: string, n: string, extra: string, t: string)
    requires n != ""
    ensures FullKey(scope, n + "/" + extra, t) == FullKey(scope, n, extra + "/" + t)
  {
  }

  /** Who dispatch finds, in the words of the subscriber and the publisher. */
  lemma DispatchFindsExactly(b: Bus, e: Event, id: int, scope: string, namespace: string, topic: string)
    requires Ok(b) && Registered(b, id) && b.all[id].key == FullKey(scope, namespace, topic)
    requires ValidScope(scope) && '/' !in namespace && ValidEvent(e) && '/' !in e.namespace
    ensures id in Targets(b, e) <==>
              && scope == e.scope && Normal(namespace) == Normal(e.namespace)
              && (if b.all[id].prefix then topic <= e.topic else topic == e.topic)
  {
    TargetsAre(b, e, id);
    KeysTellApart(scope, namespace, topic, e.scope, e.namespace, e.topic);
  }
}
