/** sort.Slice and Array.sort: a stable sort by an integer key. */
module Sorting {

  ghost predicate SortedBy<T(!new)>(key: T -> int, s: seq<T>) {
    forall i, j :: 0 <= i < j < |s| ==> key(s[i]) <= key(s[j])
  }

  ghost predicate StrictlySortedBy<T(!new)>(key: T -> int, s: seq<T>) {
    forall i, j :: 0 <= i < j < |s| ==> key(s[i]) < key(s[j])
  }

  function Insert<T(!new)>(key: T -> int, x: T, s: seq<T>): (r: seq<T>)
    ensures multiset(r) == multiset(s) + multiset{x}
    ensures |r| == |s| + 1
  {
    if s == [] then [x]
    else if key(x) <= key(s[0]) then [x] + s
    else
      assert s == [s[0]] + s[1..];
      [s[0]] + Insert(key, x, s[1..])
  }

  function Sort<T(!new)>(key: T -> int, s: seq<T>): (r: seq<T>)
    ensures multiset(r) == multiset(s)
    ensures |r| == |s|
  {
    if s == [] then []
    else
      assert s == [s[0]] + s[1..];
      Insert(key, s[0], Sort(key, s[1..]))
  }

  lemma {:induction false} InsertSorts<T(!new)>(key: T -> int, x: T, s: seq<T>)
    requires SortedBy(key, s)
    ensures SortedBy(key, Insert(key, x, s))
  {
    if s != [] && key(x) > key(s[0]) {
      InsertSorts(key, x, s[1..]);
      InsertMembers(key, x, s[1..]);
      LeastFirst(key, s[0], Insert(key, x, s[1..]));
    }
  }

  lemma InsertMembers<T(!new)>(key: T -> int, x: T, s: seq<T>)
    ensures forall y :: y in Insert(key, x, s) <==> y == x || y in s
  {
    forall y ensures y in Insert(key, x, s) <==> y == x || y in s {
      assert y in Insert(key, x, s) <==> y in multiset(Insert(key, x, s));
    }
  }

  lemma LeastFirst<T(!new)>(key: T -> int, x: T, s: seq<T>)
    requires SortedBy(key, s) && forall y :: y in s ==> key(x) <= key(y)
    ensures SortedBy(key, [x] + s)
  {
  }

  lemma {:induction false} SortSorts<T(!new)>(key: T -> int, s: seq<T>)
    ensures SortedBy(key, Sort(key, s))
  {
    if s != [] {
      SortSorts(key, s[1..]);
      InsertSorts(key, s[0], Sort(key, s[1..]));
    }
  }

  lemma SortMembers<T(!new)>(key: T -> int, s: seq<T>)
    ensures forall y :: y in Sort(key, s) <==> y in s
  {
    forall y ensures y in Sort(key, s) <==> y in s {
      assert y in Sort(key, s) <==> y in multiset(Sort(key, s));
      assert y in s <==> y in multiset(s);
    }
  }

  lemma FirstsAgree<T(!new)>(key: T -> int, a: seq<T>, b: seq<T>)
    requires StrictlySortedBy(key, a) && SortedBy(key, b)
    requires multiset(a) == multiset(b) && a != [] && b != []
    ensures a[0] == b[0]
  {
    assert a[0] in multiset(b) && b[0] in multiset(a);
    var i :| 0 <= i < |b| && b[i] == a[0];
    var j :| 0 <= j < |a| && a[j] == b[0];
    assert key(b[0]) <= key(b[i]);
  }

  lemma TailMultiset<T>(a: seq<T>)
    requires a != []
    ensures multiset(a[1..]) == multiset(a) - multiset{a[0]}
  {
    assert a == [a[0]] + a[1..];
  }

  /** A strictly ordered arrangement of some elements is the only one. */
  lemma {:induction false} StrictOrderUnique<T(!new)>(key: T -> int, a: seq<T>, b: seq<T>)
    requires StrictlySortedBy(key, a) && SortedBy(key, b)
    requires multiset(a) == multiset(b)
    ensures a == b
  {
    assert |a| == |multiset(a)| == |multiset(b)| == |b|;
    if a != [] {
      FirstsAgree(key, a, b);
      TailMultiset(a);
      TailMultiset(b);
      StrictOrderUnique(key, a[1..], b[1..]);
      assert a == [a[0]] + a[1..] && b == [b[0]] + b[1..];
    }
  }

  /** Sorting undoes any rearrangement of a strictly ordered sequence. */
  lemma SortRestores<T(!new)>(key: T -> int, ordered: seq<T>, shuffled: seq<T>)
    requires StrictlySortedBy(key, ordered)
    requires multiset(shuffled) == multiset(ordered)
    ensures Sort(key, shuffled) == ordered
  {
    SortSorts(key, shuffled);
    StrictOrderUnique(key, ordered, Sort(key, shuffled));
  }
}
