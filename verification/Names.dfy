/**
 Go's order on strings, and sorting by name.
 */
module Names {
  /** `a < b`: the first difference decides, and a proper prefix comes first. */
  predicate Less(a: string, b: string) {
    if b == [] then false
    else if a == [] then true
    else if a[0] != b[0] then a[0] < b[0]
    else Less(a[1..], b[1..])
  }

  lemma {:induction false} Trichotomy(a: string, b: string)
    ensures !(Less(a, b) && Less(b, a))
    ensures Less(a, b) || Less(b, a) || a == b
    ensures !Less(a, a)
  {
    if a != [] {
      Trichotomy(a[1..], if b == [] then [] else b[1..]);
    }
    if a != [] && b != [] && a[0] == b[0] && a[1..] == b[1..] {
      assert a == [a[0]] + a[1..] == b;
    }
  }

  /** Not after is transitive. */
  lemma {:induction false} Transitive(a: string, b: string, c: string)
    requires !Less(b, a) && !Less(c, b)
    ensures !Less(c, a)
  {
    if a != [] && b != [] && c != [] && a[0] == b[0] == c[0] {
      Transitive(a[1..], b[1..], c[1..]);
    }
  }

  ghost predicate Ordered<T(!new)>(s: seq<T>, name: T -> string) {
    forall i, j | 0 <= i < j < |s| :: !Less(name(s[j]), name(s[i]))
  }

  /** In order, and no name twice. */
  ghost predicate Ascending<T(!new)>(s: seq<T>, name: T -> string) {
    forall i, j | 0 <= i < j < |s| :: Less(name(s[i]), name(s[j]))
  }

  lemma OrderedInsert<T(!new)>(s: seq<T>, name: T -> string, x: T, i: nat)
    requires Ordered(s, name) && i <= |s|
    requires forall j | 0 <= j < i :: !Less(name(x), name(s[j]))
    requires i < |s| ==> Less(name(x), name(s[i]))
    ensures Ordered(s[..i] + [x] + s[i..], name)
  {
    forall j | i <= j < |s|
      ensures !Less(name(s[j]), name(x))
    {
      Trichotomy(name(x), name(s[i]));
      if j > i {
        Transitive(name(x), name(s[i]), name(s[j]));
      }
    }
  }

  method Insert<T(!new)>(s: seq<T>, name: T -> string, x: T) returns (r: seq<T>)
    requires Ordered(s, name)
    ensures Ordered(r, name) && multiset(r) == multiset(s) + multiset{x}
  {
    var i := 0;
    while i < |s| && !Less(name(x), name(s[i]))
      invariant 0 <= i <= |s|
      invariant forall j | 0 <= j < i :: !Less(name(x), name(s[j]))
    {
      i := i + 1;
    }
    OrderedInsert(s, name, x, i);
    r := s[..i] + [x] + s[i..];
    assert s == s[..i] + s[i..];
  }

  method SortByName<T(!new)>(s: seq<T>, name: T -> string) returns (r: seq<T>)
    ensures Ordered(r, name) && multiset(r) == multiset(s)
  {
    r := [];
    var i := 0;
    while i < |s|
      invariant 0 <= i <= |s|
      invariant Ordered(r, name) && multiset(r) == multiset(s[..i])
    {
      r := Insert(r, name, s[i]);
      assert s[..i + 1] == s[..i] + [s[i]];
      i := i + 1;
    }
    assert s[..i] == s;
  }

  /** No two elements share a name. */
  ghost predicate Distinct<T(!new)>(s: seq<T>, name: T -> string) {
    forall i, j | 0 <= i < j < |s| :: name(s[i]) != name(s[j])
  }

  lemma DistinctOrdered<T(!new)>(s: seq<T>, name: T -> string)
    requires Ordered(s, name) && Distinct(s, name)
    ensures Ascending(s, name)
  {
    forall i, j | 0 <= i < j < |s|
      ensures Less(name(s[i]), name(s[j]))
    {
      Trichotomy(name(s[i]), name(s[j]));
    }
  }

  /** Distinctness as a property of the elements alone, whatever their order. */
  ghost predicate DistinctIn<T(!new)>(m: multiset<T>, name: T -> string) {
    && (forall x | x in m :: m[x] == 1)
    && (forall x, y | x in m && y in m && name(x) == name(y) :: x == y)
  }

  lemma Occurrence<T(!new)>(s: seq<T>, j: nat)
    requires j < |s|
    ensures multiset(s) == multiset(s[..j]) + multiset{s[j]} + multiset(s[j + 1..])
  {
    assert s == s[..j] + [s[j]] + s[j + 1..];
  }

  lemma DistinctExactly<T(!new)>(s: seq<T>, name: T -> string)
    ensures Distinct(s, name) <==> DistinctIn(multiset(s), name)
  {
    if Distinct(s, name) {
      forall x | x in multiset(s)
        ensures multiset(s)[x] == 1
      {
        var j: nat :| j < |s| && s[j] == x;
        Occurrence(s, j);
        assert x !in s[..j] && x !in s[j + 1..];
      }
    }
    if DistinctIn(multiset(s), name) {
      forall i, j | 0 <= i < j < |s|
        ensures name(s[i]) != name(s[j])
      {
        Occurrence(s, j);
        assert s[i] in s[..j];
        assert s[i] in multiset(s) && s[j] in multiset(s);
      }
    }
  }

  lemma SameLength<T(!new)>(a: seq<T>, b: seq<T>)
    requires multiset(a) == multiset(b)
    ensures |a| == |b|
  {
    assert |multiset(a)| == |a| && |multiset(b)| == |b|;
  }

  lemma ButLast<T(!new)>(s: seq<T>, name: T -> string)
    requires s != [] && Ascending(s, name)
    ensures var n := |s| - 1; s == s[..n] + [s[n]] && Ascending(s[..n], name) && multiset(s[..n]) == multiset(s) - multiset{s[n]}
  {
  }

  /** Elements with distinct names have one order. */
  lemma {:induction false} AscendingUnique<T(!new)>(a: seq<T>, b: seq<T>, name: T -> string)
    requires Ascending(a, name) && Ascending(b, name) && multiset(a) == multiset(b)
    ensures a == b
  {
    SameLength(a, b);
    if a != [] {
      var n := |a| - 1;
      LastIsLast(a, b, name);
      ButLast(a, name);
      ButLast(b, name);
      AscendingUnique(a[..n], b[..n], name);
    }
  }

  lemma LastIsLast<T(!new)>(a: seq<T>, b: seq<T>, name: T -> string)
    requires Ascending(a, name) && Ascending(b, name) && multiset(a) == multiset(b) && |a| == |b| > 0
    ensures a[|a| - 1] == b[|b| - 1]
  {
    var n := |a| - 1;
    assert b[n] in multiset(b) && a[n] in multiset(a);
    var i :| 0 <= i < |a| && a[i] == b[n];
    var j :| 0 <= j < |b| && b[j] == a[n];
    Trichotomy(name(a[n]), name(b[n]));
  }
}
