/** Go's sort.Slice by a string key, as insertion into a sorted list. */
module Sorting {
  import opened Common

  function Insert<T>(x: T, xs: seq<T>, key: T -> string): seq<T> {
    if xs == [] then [x]
    else if Less(key(xs[0]), key(x)) then [xs[0]] + Insert(x, xs[1..], key)
    else [x] + xs
  }

  function SortBy<T>(xs: seq<T>, key: T -> string): seq<T> {
    if xs == [] then [] else Insert(xs[0], SortBy(xs[1..], key), key)
  }

  ghost predicate Ordered<T>(xs: seq<T>, key: T -> string) {
    forall i, j :: 0 <= i < j < |xs| ==> !Less(key(xs[j]), key(xs[i]))
  }

  lemma {:induction false} InsertKeeps<T>(x: T, xs: seq<T>, key: T -> string)
    requires Ordered(xs, key)
    ensures multiset(Insert(x, xs, key)) == multiset(xs) + multiset{x}
    ensures Ordered(Insert(x, xs, key), key)
  {
    if xs != [] {
      assert xs == [xs[0]] + xs[1..];
      if Less(key(xs[0]), key(x)) {
        var rest := Insert(x, xs[1..], key);
        InsertKeeps(x, xs[1..], key);
        forall j | 0 <= j < |rest| ensures !Less(key(rest[j]), key(xs[0])) {
          assert rest[j] in multiset(rest);
          if rest[j] == x { LessAsymmetric(key(xs[0]), key(x)); }
          else { assert rest[j] in xs[1..]; }
        }
      } else {
        forall j | 0 <= j < |xs| ensures !Less(key(xs[j]), key(x)) {
          if Less(key(xs[j]), key(x)) {
            if key(xs[0]) != key(xs[j]) {
              LessTotal(key(xs[0]), key(xs[j]));
              LessTransitive(key(xs[0]), key(xs[j]), key(x));
            }
          }
        }
      }
    }
  }

  lemma {:induction false} SortKeeps<T>(xs: seq<T>, key: T -> string)
    ensures multiset(SortBy(xs, key)) == multiset(xs)
    ensures Ordered(SortBy(xs, key), key)
  {
    if xs != [] {
      assert xs == [xs[0]] + xs[1..];
      SortKeeps(xs[1..], key);
      InsertKeeps(xs[0], SortBy(xs[1..], key), key);
    }
  }

  lemma {:induction false} SortMembers<T>(xs: seq<T>, key: T -> string, x: T)
    ensures x in SortBy(xs, key) <==> x in xs
    ensures |SortBy(xs, key)| == |xs|
  {
    SortKeeps(xs, key);
    assert x in SortBy(xs, key) <==> x in multiset(SortBy(xs, key));
    assert x in xs <==> x in multiset(xs);
    assert |multiset(SortBy(xs, key))| == |SortBy(xs, key)| && |multiset(xs)| == |xs|;
  }

  ghost predicate KeysApart<T>(xs: seq<T>, key: T -> string) {
    forall i, j :: 0 <= i < j < |xs| ==> key(xs[i]) != key(xs[j])
  }

  lemma {:induction false} InsertApart<T>(x: T, xs: seq<T>, key: T -> string)
    requires KeysApart(xs, key) && forall i :: 0 <= i < |xs| ==> key(xs[i]) != key(x)
    ensures KeysApart(Insert(x, xs, key), key)
    ensures forall y :: y in Insert(x, xs, key) ==> y == x || y in xs
  {
    if xs != [] && Less(key(xs[0]), key(x)) {
      InsertApart(x, xs[1..], key);
      var rest := Insert(x, xs[1..], key);
      forall i | 0 <= i < |rest| ensures key(rest[i]) != key(xs[0]) {
        assert rest[i] in rest;
        if rest[i] != x { var k :| 1 <= k < |xs| && xs[k] == rest[i]; }
      }
    }
  }

  lemma {:induction false} SortKeepsApart<T>(xs: seq<T>, key: T -> string)
    requires KeysApart(xs, key)
    ensures KeysApart(SortBy(xs, key), key)
  {
    if xs != [] {
      var rest := SortBy(xs[1..], key);
      SortKeepsApart(xs[1..], key);
      forall i | 0 <= i < |rest| ensures key(rest[i]) != key(xs[0]) {
        SortMembers(xs[1..], key, rest[i]);
        var k :| 1 <= k < |xs| && xs[k] == rest[i];
      }
      InsertApart(xs[0], rest, key);
    }
  }

  lemma {:induction false} HeadsAgree<T>(xs: seq<T>, ys: seq<T>, key: T -> string)
    requires Ordered(xs, key) && Ordered(ys, key) && KeysApart(xs, key)
    requires xs != [] && ys != [] && xs[0] in ys && ys[0] in xs
    ensures xs[0] == ys[0]
  {
    var k :| 0 <= k < |ys| && ys[k] == xs[0];
    var l :| 0 <= l < |xs| && xs[l] == ys[0];
    if l != 0 { LessTotal(key(xs[0]), key(xs[l])); }
  }

  lemma {:induction false} TailBag<T>(xs: seq<T>)
    requires xs != []
    ensures multiset(xs[1..]) == multiset(xs) - multiset{xs[0]}
  {
    assert xs == [xs[0]] + xs[1..];
  }

  lemma {:induction false} TailsAgree<T>(xs: seq<T>, ys: seq<T>)
    requires multiset(xs) == multiset(ys) && xs != [] && ys != [] && xs[0] == ys[0]
    ensures multiset(xs[1..]) == multiset(ys[1..])
  {
    TailBag(xs);
    TailBag(ys);
  }

  /** A sorted list with distinct keys is determined by its elements, so the order the elements
      arrived in is forgotten. */
  lemma {:induction false} OrderedIsUnique<T>(xs: seq<T>, ys: seq<T>, key: T -> string)
    requires Ordered(xs, key) && Ordered(ys, key) && KeysApart(xs, key)
    requires multiset(xs) == multiset(ys)
    ensures xs == ys
  {
    assert |multiset(xs)| == |xs| && |multiset(ys)| == |ys|;
    if xs != [] {
      assert xs[0] in multiset(ys) && ys[0] in multiset(xs);
      HeadsAgree(xs, ys, key);
      TailsAgree(xs, ys);
      OrderedIsUnique(xs[1..], ys[1..], key);
      assert xs == [xs[0]] + xs[1..] && ys == [ys[0]] + ys[1..];
    }
  }
}
