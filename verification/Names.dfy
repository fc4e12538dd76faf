/** Agent ids, their lexicographic order, and sorting.

Go compares strings byte by byte; ids are modelled as strings of characters compared
character by character, which is the same order for the ASCII ids the supervisor uses. */
module Names {
  type Id = string

  /** The order sort.Strings sorts by. */
  predicate Le(a: Id, b: Id) {
    a == "" || (b != "" && (a[0] < b[0] || (a[0] == b[0] && Le(a[1..], b[1..]))))
  }

  lemma {:induction false} LeTotal(a: Id, b: Id)
    ensures Le(a, b) || Le(b, a)
  {
    if a != "" && b != "" && a[0] == b[0] {
      LeTotal(a[1..], b[1..]);
    }
  }

  lemma {:induction false} LeAntisymmetric(a: Id, b: Id)
    requires Le(a, b) && Le(b, a)
    ensures a == b
  {
    if a != "" && b != "" {
      LeAntisymmetric(a[1..], b[1..]);
      assert a == [a[0]] + a[1..] && b == [b[0]] + b[1..];
    }
  }

  lemma {:induction false} LeTransitive(a: Id, b: Id, c: Id)
    requires Le(a, b) && Le(b, c)
    ensures Le(a, c)
  {
    if a != "" && a[0] == b[0] == c[0] {
      LeTransitive(a[1..], b[1..], c[1..]);
    }
  }

  function Elems<T(==)>(s: seq<T>): set<T> {
    set x | x in s
  }

  /** No element is repeated: the list is as long as its set of elements is large. */
  ghost predicate NoDuplicates<T>(s: seq<T>) {
    |Elems(s)| == |s|
  }

  lemma ElemsConcat<T>(a: seq<T>, b: seq<T>)
    ensures Elems(a + b) == Elems(a) + Elems(b)
  {
  }

  lemma {:induction false} ElemsBound<T>(s: seq<T>)
    ensures |Elems(s)| <= |s|
  {
    if s != [] {
      assert s == s[..|s| - 1] + [s[|s| - 1]];
      ElemsBound(s[..|s| - 1]);
      assert Elems(s) == Elems(s[..|s| - 1]) + {s[|s| - 1]};
    }
  }

  lemma NoDuplicatesConcat<T>(a: seq<T>, b: seq<T>)
    ensures NoDuplicates(a + b) <==> NoDuplicates(a) && NoDuplicates(b) && Elems(a) !! Elems(b)
  {
    ElemsConcat(a, b);
    ElemsBound(a);
    ElemsBound(b);
    assert |Elems(a) + Elems(b)| == |Elems(a)| + |Elems(b)| - |Elems(a) * Elems(b)|;
  }

  lemma NoDuplicatesAt<T>(s: seq<T>, i: nat, j: nat)
    requires NoDuplicates(s) && i < j < |s|
    ensures s[i] != s[j]
  {
    assert s == s[..j] + s[j..];
    NoDuplicatesConcat(s[..j], s[j..]);
    assert s[i] in Elems(s[..j]) && s[j] in Elems(s[j..]);
  }

  ghost predicate Sorted(s: seq<Id>) {
    forall i, j | 0 <= i < j < |s| :: Le(s[i], s[j])
  }

  lemma SortedCons(x: Id, t: seq<Id>)
    requires Sorted(t) && forall y | y in t :: Le(x, y)
    ensures Sorted([x] + t)
  {
  }

  lemma SameMembers<T>(s: seq<T>, t: seq<T>, x: T)
    requires multiset(s) == multiset(t) && x in s
    ensures x in t
  {
    assert x in multiset(t);
  }

  /** x placed in front of the first element not below it. */
  function Insert(x: Id, s: seq<Id>): (r: seq<Id>)
    requires Sorted(s)
    ensures Sorted(r) && multiset(r) == multiset([x] + s)
  {
    if s == [] then [x]
    else if Le(x, s[0]) then
      InsertInFront(x, s);
      [x] + s
    else
      var t := Insert(x, s[1..]);
      InsertBehind(x, s, t);
      [s[0]] + t
  }

  lemma InsertInFront(x: Id, s: seq<Id>)
    requires Sorted(s) && s != [] && Le(x, s[0])
    ensures Sorted([x] + s)
  {
    forall y | y in s ensures Le(x, y) {
      var j :| 0 <= j < |s| && s[j] == y;
      if j > 0 { LeTransitive(x, s[0], y); }
    }
    SortedCons(x, s);
  }

  lemma InsertBehind(x: Id, s: seq<Id>, t: seq<Id>)
    requires Sorted(s) && s != [] && !Le(x, s[0])
    requires Sorted(t) && multiset(t) == multiset([x] + s[1..])
    ensures Sorted([s[0]] + t) && multiset([s[0]] + t) == multiset([x] + s)
  {
    forall y | y in t ensures Le(s[0], y) {
      SameMembers(t, [x] + s[1..], y);
      if y == x { LeTotal(x, s[0]); }
    }
    SortedCons(s[0], t);
    assert s == [s[0]] + s[1..];
    assert multiset([x] + s) == multiset{x} + multiset{s[0]} + multiset(s[1..]);
  }

  /** sort.Strings: the sorted rearrangement of a list. */
  function SortStrings(s: seq<Id>): (r: seq<Id>)
    ensures Sorted(r) && multiset(r) == multiset(s)
  {
    if s == [] then []
    else
      assert s == [s[0]] + s[1..];
      Insert(s[0], SortStrings(s[1..]))
  }

  /** A set listed in order. This is what every "sort then use" step computes, whatever order
      the set was enumerated in. */
  ghost function SortedSeq(s: set<Id>): (r: seq<Id>)
    ensures Sorted(r) && multiset(r) == multiset(s)
  {
    if s == {} then []
    else
      var x :| x in s;
      var t := SortedSeq(s - {x});
      assert s == (s - {x}) + {x};
      assert multiset([x] + t) == multiset{x} + multiset(t);
      Insert(x, t)
  }

  lemma HeadIsLeast(a: seq<Id>, y: Id)
    requires Sorted(a) && y in a
    ensures Le(a[0], y)
  {
    LeTotal(y, y);
  }

  lemma SameHead(a: seq<Id>, b: seq<Id>)
    requires Sorted(a) && Sorted(b) && multiset(a) == multiset(b) && a != [] && b != []
    ensures a[0] == b[0]
  {
    SameMembers(a, b, a[0]);
    SameMembers(b, a, b[0]);
    HeadIsLeast(a, b[0]);
    HeadIsLeast(b, a[0]);
    LeAntisymmetric(a[0], b[0]);
  }

  lemma TailMultiset<T>(a: seq<T>)
    requires a != []
    ensures multiset(a[1..]) == multiset(a) - multiset{a[0]}
  {
    assert a == [a[0]] + a[1..];
  }

  lemma {:induction false} SortedUnique(a: seq<Id>, b: seq<Id>)
    requires Sorted(a) && Sorted(b) && multiset(a) == multiset(b)
    ensures a == b
    decreases |a|
  {
    assert |a| == |multiset(a)| == |multiset(b)| == |b|;
    if a != [] {
      SameHead(a, b);
      TailMultiset(a);
      TailMultiset(b);
      SortedUnique(a[1..], b[1..]);
      assert a == [a[0]] + a[1..] && b == [b[0]] + b[1..];
    }
  }

  lemma {:induction false} NoDuplicatesMultiset<T>(s: seq<T>)
    requires NoDuplicates(s)
    ensures multiset(s) == multiset(Elems(s))
  {
    if s != [] {
      var t, x := s[..|s| - 1], s[|s| - 1];
      assert s == t + [x];
      NoDuplicatesConcat(t, [x]);
      NoDuplicatesMultiset(t);
      assert x in Elems([x]);
      assert Elems(s) == Elems(t) + {x};
    }
  }

  /** A list without repeats sorts to the sorted enumeration of its elements. */
  lemma SortStringsOfDistinct(s: seq<Id>)
    requires NoDuplicates(s)
    ensures SortStrings(s) == SortedSeq(Elems(s))
  {
    NoDuplicatesMultiset(s);
    SortedUnique(SortStrings(s), SortedSeq(Elems(s)));
  }

  lemma {:induction false} MultisetOfSetSize<T>(s: set<T>)
    ensures |multiset(s)| == |s|
  {
    if s != {} {
      var x :| x in s;
      MultisetOfSetSize(s - {x});
      assert multiset(s) == multiset(s - {x}) + multiset{x};
    }
  }

  lemma ListsOfSet<T>(r: seq<T>, s: set<T>)
    requires multiset(r) == multiset(s)
    ensures NoDuplicates(r) && Elems(r) == s
  {
    forall x ensures x in Elems(r) <==> x in s {
      assert x in multiset(r) <==> x in multiset(s);
    }
    assert Elems(r) == s;
    MultisetOfSetSize(s);
    assert |multiset(r)| == |r|;
  }

  lemma SortedSeqFacts(s: set<Id>)
    ensures NoDuplicates(SortedSeq(s)) && Elems(SortedSeq(s)) == s
  {
    ListsOfSet(SortedSeq(s), s);
  }

  lemma AppendFresh<T>(s: seq<T>, x: T)
    requires NoDuplicates(s) && x !in Elems(s)
    ensures NoDuplicates(s + [x]) && Elems(s + [x]) == Elems(s) + {x}
  {
    NoDuplicatesConcat(s, [x]);
    ElemsConcat(s, [x]);
    assert Elems([x]) == {x};
  }

  /** list holds, once each, the members of target that are not still to be visited. */
  ghost predicate Collected(target: set<Id>, todo: set<Id>, list: seq<Id>) {
    NoDuplicates(list) && Elems(list) == target - todo
  }

  lemma CollectStep(target: set<Id>, todo: set<Id>, list: seq<Id>, id: Id)
    requires Collected(target, todo, list) && id in todo
    ensures Collected(target, todo - {id}, if id in target then list + [id] else list)
  {
    if id in target {
      AppendFresh(list, id);
      assert target - (todo - {id}) == (target - todo) + {id};
    } else {
      assert target - (todo - {id}) == target - todo;
    }
  }

  lemma CollectDone(target: set<Id>, list: seq<Id>)
    requires Collected(target, {}, list)
    ensures NoDuplicates(list) && Elems(list) == target
  {
  }

  lemma BeforeMeansInPrefix(s: seq<Id>, a: Id, b: Id, i: nat)
    requires NoDuplicates(s) && Before(s, a, b) && i < |s| && s[i] == b
    ensures a in Elems(s[..i])
  {
    var j, k :| 0 <= j < k < |s| && s[j] == a && s[k] == b;
    if k < i { NoDuplicatesAt(s, k, i); }
    if i < k { NoDuplicatesAt(s, i, k); }
  }

  /** a stands somewhere before b in s. */
  ghost predicate Before<T(!new)>(s: seq<T>, a: T, b: T) {
    exists i, j :: 0 <= i < j < |s| && s[i] == a && s[j] == b
  }
}
