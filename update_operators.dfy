/** The record store's array update operators, on the array fields that hold
    references between records: `$addToSet` (with an array of values, which
    Mongoose turns into `$addToSet` with `$each`) and `$pull`. Both keep an
    array free of duplicates when it started that way. */
module UpdateOperators {

  /** A record identity, as held in reference arrays. */
  type Id = int

  /** No element occurs twice: the array is used as a set. */
  predicate NoDup(s: seq<Id>) {
    forall i, j :: 0 <= i < j < |s| ==> s[i] != s[j]
  }

  /** No element of xs is already in s. */
  predicate Disjoint(s: seq<Id>, xs: seq<Id>) {
    forall x :: x in xs ==> x !in s
  }

  lemma NoDupCons(x: Id, rest: seq<Id>)
    ensures NoDup([x] + rest) <==> x !in rest && NoDup(rest)
  {
    var s := [x] + rest;
    if x !in rest && NoDup(rest) {
      forall i, j | 0 <= i < j < |s| ensures s[i] != s[j] {
        if i > 0 { assert s[i] == rest[i - 1] && s[j] == rest[j - 1]; }
        else { assert s[j] == rest[j - 1]; }
      }
    }
    if NoDup(s) {
      forall i, j | 0 <= i < j < |rest| ensures rest[i] != rest[j] {
        assert rest[i] == s[i + 1] && rest[j] == s[j + 1];
      }
      forall k | 0 <= k < |rest| ensures rest[k] != x {
        assert rest[k] == s[k + 1] && s[0] == x;
      }
    }
  }

  /** `$addToSet` with a single value: append x unless it is already present. */
  function AddOne(s: seq<Id>, x: Id): (r: seq<Id>)
    ensures forall y :: y in r <==> y in s || y == x
    ensures |r| == if x in s then |s| else |s| + 1
    ensures r[..|s|] == s
    ensures NoDup(s) ==> NoDup(r)
  {
    if x in s then s
    else
      assert (s + [x])[..|s|] == s;
      s + [x]
  }

  /** `$addToSet` with `$each`: the elements of xs that are not yet present are
      appended in order, so an element listed twice in xs is added once. */
  function AddToSet(s: seq<Id>, xs: seq<Id>): (r: seq<Id>)
    ensures forall y :: y in r <==> y in s || y in xs
    ensures |s| <= |r| <= |s| + |xs|
    ensures r[..|s|] == s
    ensures NoDup(s) ==> NoDup(r)
    decreases |xs|
  {
    if xs == [] then s
    else
      var s' := AddOne(s, xs[0]);
      var r := AddToSet(s', xs[1..]);
      assert forall y :: y in xs <==> y == xs[0] || y in xs[1..];
      assert r[..|s|] == r[..|s'|][..|s|];
      r
  }

  /** Adding values that are all present already changes nothing. */
  lemma {:induction false} AddToSetPresent(s: seq<Id>, xs: seq<Id>)
    requires forall x :: x in xs ==> x in s
    ensures AddToSet(s, xs) == s
    decreases |xs|
  {
    if xs != [] {
      assert xs[0] in xs;
      assert forall x :: x in xs[1..] ==> x in xs;
      AddToSetPresent(s, xs[1..]);
    }
  }

  /** Set semantics: adding the same values a second time is a no-op. */
  lemma AddToSetIdempotent(s: seq<Id>, xs: seq<Id>)
    ensures AddToSet(AddToSet(s, xs), xs) == AddToSet(s, xs)
  {
    AddToSetPresent(AddToSet(s, xs), xs);
  }

  /** Starting from a duplicate-free array, the array grows by exactly |xs|
      when, and only when, the values are distinct and none was present. */
  lemma {:induction false} AddToSetExact(s: seq<Id>, xs: seq<Id>)
    requires NoDup(s)
    ensures |AddToSet(s, xs)| == |s| + |xs| <==> NoDup(xs) && Disjoint(s, xs)
    decreases |xs|
  {
    if xs == [] {
      assert NoDup(xs) && Disjoint(s, xs);
    } else {
      var x, rest := xs[0], xs[1..];
      assert xs == [x] + rest;
      NoDupCons(x, rest);
      var s' := AddOne(s, x);
      AddToSetExact(s', rest);
      if x in s {
        assert !Disjoint(s, xs) by { assert x in xs; }
        assert |AddToSet(s, xs)| == |AddToSet(s', rest)| <= |s| + |rest|;
      } else {
        assert s' == s + [x];
        assert Disjoint(s', rest) <==> x !in rest && Disjoint(s, rest);
        assert Disjoint(s, xs) <==> Disjoint(s, rest) by {
          assert forall y :: y in xs <==> y == x || y in rest;
        }
      }
    }
  }

  /** `$pull` with a value: every occurrence of x is removed. */
  function Pull(s: seq<Id>, x: Id): (r: seq<Id>)
    ensures forall y :: y in r <==> y in s && y != x
    ensures multiset(r) == multiset(s)[x := 0]
    ensures |r| <= |s|
    ensures NoDup(s) ==> NoDup(r)
  {
    if s == [] then []
    else
      var r := Pull(s[1..], x);
      assert s == [s[0]] + s[1..];
      assert multiset(s) == multiset{s[0]} + multiset(s[1..]);
      NoDupCons(s[0], s[1..]);
      if s[0] == x then r
      else
        NoDupCons(s[0], r);
        [s[0]] + r
  }

  /** Pulling a value that is absent leaves the array as it was. */
  lemma {:induction false} PullAbsent(s: seq<Id>, x: Id)
    requires x !in s
    ensures Pull(s, x) == s
  {
    if s != [] {
      assert s[0] in s;
      PullAbsent(s[1..], x);
      assert s == [s[0]] + s[1..];
    }
  }

  /** In a duplicate-free array, pulling a present value shortens it by one. */
  lemma {:induction false} PullOnce(s: seq<Id>, x: Id)
    requires NoDup(s) && x in s
    ensures |Pull(s, x)| == |s| - 1
  {
    assert s == [s[0]] + s[1..];
    NoDupCons(s[0], s[1..]);
    if s[0] == x {
      PullAbsent(s[1..], x);
    } else {
      PullOnce(s[1..], x);
    }
  }
}
