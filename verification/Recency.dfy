/** Most recent first: the order in which the caches on the controller and on devices evict. */
module Recency {
  /** Newest first, ties as they came. */
  function Newest<T>(names: seq<T>, age: T -> nat): (r: seq<T>)
    ensures |r| == |names|
  {
    if |names| == 0 then [] else Insert(names[0], Newest(names[1..], age), age)
  }

  function Insert<T>(name: T, sorted: seq<T>, age: T -> nat): (r: seq<T>)
    ensures |r| == |sorted| + 1
  {
    if |sorted| == 0 || age(sorted[0]) <= age(name) then [name] + sorted
    else [sorted[0]] + Insert(name, sorted[1..], age)
  }

  lemma {:induction false} InsertAgree<T>(name: T, sorted: seq<T>, a: T -> nat, b: T -> nat)
    requires a(name) == b(name) && forall n :: n in sorted ==> a(n) == b(n)
    ensures Insert(name, sorted, a) == Insert(name, sorted, b)
  {
    if |sorted| > 0 {
      assert sorted[0] in sorted;
      InsertAgree(name, sorted[1..], a, b);
    }
  }

  lemma {:induction false} NewestAgree<T>(names: seq<T>, a: T -> nat, b: T -> nat)
    requires forall n :: n in names ==> a(n) == b(n)
    ensures Newest(names, a) == Newest(names, b)
  {
    if |names| > 0 {
      NewestAgree(names[1..], a, b);
      var rest := Newest(names[1..], a);
      NewestSorts(names[1..], a);
      forall n | n in rest ensures a(n) == b(n) {
        assert n in multiset(rest);
        assert n in names[1..];
      }
      InsertAgree(names[0], rest, a, b);
    }
  }

  ghost predicate SortedByAge<T>(names: seq<T>, age: T -> nat) {
    forall i, j :: 0 <= i < j < |names| ==> age(names[i]) >= age(names[j])
  }

  lemma {:induction false} InsertAdds<T>(name: T, sorted: seq<T>, age: T -> nat)
    ensures multiset(Insert(name, sorted, age)) == multiset{name} + multiset(sorted)
  {
    if |sorted| > 0 && age(sorted[0]) > age(name) {
      InsertAdds(name, sorted[1..], age);
      assert sorted == [sorted[0]] + sorted[1..];
    }
  }

  ghost predicate NoneNewer<T>(names: seq<T>, age: T -> nat, limit: nat) {
    forall i :: 0 <= i < |names| ==> age(names[i]) <= limit
  }

  lemma {:induction false} InsertSorts<T>(name: T, sorted: seq<T>, age: T -> nat)
    requires SortedByAge(sorted, age)
    ensures SortedByAge(Insert(name, sorted, age), age)
    ensures forall limit: nat :: NoneNewer(sorted, age, limit) && age(name) <= limit ==>
                                 NoneNewer(Insert(name, sorted, age), age, limit)
  {
    if |sorted| > 0 && age(sorted[0]) > age(name) {
      InsertSorts(name, sorted[1..], age);
      assert NoneNewer(sorted[1..], age, age(sorted[0]));
    }
  }

  /** The same names, newest first. */
  lemma {:induction false} NewestSorts<T>(names: seq<T>, age: T -> nat)
    ensures SortedByAge(Newest(names, age), age)
    ensures multiset(Newest(names, age)) == multiset(names)
  {
    if |names| > 0 {
      NewestSorts(names[1..], age);
      InsertSorts(names[0], Newest(names[1..], age), age);
      InsertAdds(names[0], Newest(names[1..], age), age);
      assert names == [names[0]] + names[1..];
    }
  }

  function OfAge<T>(names: seq<T>, age: T -> nat, exactly: nat): seq<T> {
    if |names| == 0 then []
    else if age(names[0]) == exactly then [names[0]] + OfAge(names[1..], age, exactly)
    else OfAge(names[1..], age, exactly)
  }

  lemma {:induction false} InsertStable<T>(name: T, sorted: seq<T>, age: T -> nat, exactly: nat)
    requires SortedByAge(sorted, age)
    ensures OfAge(Insert(name, sorted, age), age, exactly) == OfAge([name] + sorted, age, exactly)
  {
    assert ([name] + sorted)[1..] == sorted;
    if |sorted| > 0 && age(sorted[0]) > age(name) {
      InsertStable(name, sorted[1..], age, exactly);
      var rest := Insert(name, sorted[1..], age);
      assert ([sorted[0]] + rest)[1..] == rest;
      assert ([name] + sorted[1..])[1..] == sorted[1..];
    }
  }

  /** Names of one age keep their order. */
  lemma {:induction false} NewestStable<T>(names: seq<T>, age: T -> nat, exactly: nat)
    ensures OfAge(Newest(names, age), age, exactly) == OfAge(names, age, exactly)
  {
    if |names| > 0 {
      NewestStable(names[1..], age, exactly);
      NewestSorts(names[1..], age);
      InsertStable(names[0], Newest(names[1..], age), age, exactly);
      assert ([names[0]] + Newest(names[1..], age))[1..] == Newest(names[1..], age);
    }
  }

  predicate Distinct<T(==)>(s: seq<T>) {
    forall i, j :: 0 <= i < j < |s| ==> s[i] != s[j]
  }

  /** A permutation has the same elements, and stays distinct. */
  lemma SameElements<T>(a: seq<T>, b: seq<T>)
    requires multiset(a) == multiset(b) && Distinct(b)
    ensures Distinct(a) && forall n :: n in a <==> n in b
  {
    forall n ensures n in a <==> n in b {
      assert n in a <==> n in multiset(a);
    }
    forall i, j | 0 <= i < j < |a| ensures a[i] != a[j] {
      if a[i] == a[j] {
        TwiceCounted(a, i, j);
        OnceCounted(b, a[i]);
      }
    }
  }

  lemma TwiceCounted<T>(a: seq<T>, i: nat, j: nat)
    requires i < j < |a| && a[i] == a[j]
    ensures multiset(a)[a[i]] >= 2
  {
    assert a == a[..j] + [a[j]] + a[j + 1..];
    assert a[i] in a[..j];
  }

  lemma {:induction false} OnceCounted<T>(b: seq<T>, n: T)
    requires Distinct(b)
    ensures multiset(b)[n] <= 1
  {
    if |b| > 0 {
      OnceCounted(b[1..], n);
      assert b == [b[0]] + b[1..];
      if b[0] == n {
        assert n !in b[1..];
      }
    }
  }

  /** A name newer than all the others comes first. */
  lemma NewestFirst<T>(names: seq<T>, age: T -> nat, top: T)
    requires top in names && forall n :: n in names && n != top ==> age(n) < age(top)
    ensures Newest(names, age)[0] == top
  {
    var r := Newest(names, age);
    NewestSorts(names, age);
    assert top in multiset(r);
    var k :| 0 <= k < |r| && r[k] == top;
    assert r[0] in multiset(r);
    assert r[0] in names;
  }
}
