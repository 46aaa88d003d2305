/** `Array.prototype.sort` by a numeric key: ascending, a rearrangement, and stable. */
module Sorting {

  function Insert<T>(e: T, sorted: seq<T>, key: T -> int): seq<T> {
    if sorted == [] || key(e) < key(sorted[0]) then [e] + sorted else [sorted[0]] + Insert(e, sorted[1..], key)
  }

  function SortBy<T>(s: seq<T>, key: T -> int): seq<T> {
    if s == [] then [] else Insert(s[|s| - 1], SortBy(s[..|s| - 1], key), key)
  }

  predicate Ascending<T>(s: seq<T>, key: T -> int) {
    forall i, j | 0 <= i < j < |s| :: key(s[i]) <= key(s[j])
  }

  lemma {:induction false} InsertKeeps<T>(e: T, s: seq<T>, key: T -> int)
    ensures multiset(Insert(e, s, key)) == multiset(s) + multiset{e}
  {
    if s != [] && key(e) >= key(s[0]) {
      InsertKeeps(e, s[1..], key);
      assert s == [s[0]] + s[1..];
    }
  }

  lemma AscendingCons<T>(e: T, s: seq<T>, key: T -> int)
    requires Ascending(s, key) && forall x | x in multiset(s) :: key(e) <= key(x)
    ensures Ascending([e] + s, key)
  {
    forall j | 0 <= j < |s|
      ensures key(e) <= key(s[j])
    {
      assert s[j] in multiset(s);
    }
  }

  lemma AscendingHead<T>(s: seq<T>, key: T -> int)
    requires Ascending(s, key) && s != []
    ensures Ascending(s[1..], key) && forall x | x in multiset(s) :: key(s[0]) <= key(x)
  {
    forall x | x in multiset(s)
      ensures key(s[0]) <= key(x)
    {
      var j :| 0 <= j < |s| && s[j] == x;
    }
  }

  lemma {:induction false} InsertSorts<T>(e: T, s: seq<T>, key: T -> int)
    requires Ascending(s, key)
    ensures Ascending(Insert(e, s, key), key)
  {
    hide Ascending;
    if s == [] {
      AscendingCons(e, s, key);
    } else if key(e) < key(s[0]) {
      AscendingHead(s, key);
      AscendingCons(e, s, key);
    } else {
      AscendingHead(s, key);
      InsertSorts(e, s[1..], key);
      InsertKeeps(e, s[1..], key);
      assert s == [s[0]] + s[1..];
      AscendingCons(s[0], Insert(e, s[1..], key), key);
    }
  }

  lemma {:induction false} SortSorts<T>(s: seq<T>, key: T -> int)
    ensures Ascending(SortBy(s, key), key) && multiset(SortBy(s, key)) == multiset(s)
  {
    if s != [] {
      SortSorts(s[..|s| - 1], key);
      InsertSorts(s[|s| - 1], SortBy(s[..|s| - 1], key), key);
      InsertKeeps(s[|s| - 1], SortBy(s[..|s| - 1], key), key);
      assert s == s[..|s| - 1] + [s[|s| - 1]];
    }
  }

  /** The elements with one key, in order. */
  function WithKey<T>(s: seq<T>, key: T -> int, k: int): seq<T> {
    if s == [] then [] else (if key(s[0]) == k then [s[0]] else []) + WithKey(s[1..], key, k)
  }

  lemma {:induction false} WithKeySnoc<T>(s: seq<T>, e: T, key: T -> int, k: int)
    ensures WithKey(s + [e], key, k) == WithKey(s, key, k) + if key(e) == k then [e] else []
  {
    if s == [] {
      assert s + [e] == [e];
    } else {
      WithKeySnoc(s[1..], e, key, k);
      assert (s + [e])[1..] == s[1..] + [e] && (s + [e])[0] == s[0];
      var first := if key(s[0]) == k then [s[0]] else [];
      assert first + (WithKey(s[1..], key, k) + [e]) == first + WithKey(s[1..], key, k) + [e];
    }
  }

  lemma {:induction false} NoneWithKey<T>(s: seq<T>, key: T -> int, k: int)
    requires forall i | 0 <= i < |s| :: key(s[i]) != k
    ensures WithKey(s, key, k) == []
  {
    if s != [] { NoneWithKey(s[1..], key, k); }
  }

  lemma {:induction false} InsertIsLast<T>(e: T, s: seq<T>, key: T -> int, k: int)
    requires Ascending(s, key)
    ensures WithKey(Insert(e, s, key), key, k) == WithKey(s, key, k) + if key(e) == k then [e] else []
  {
    if s == [] || key(e) < key(s[0]) {
      assert ([e] + s)[1..] == s;
      if key(e) == k { NoneWithKey(s, key, k); }
    } else {
      InsertIsLast(e, s[1..], key, k);
      assert ([s[0]] + Insert(e, s[1..], key))[1..] == Insert(e, s[1..], key);
    }
  }

  /** Elements with the same key keep their order. */
  lemma {:induction false} SortIsStable<T>(s: seq<T>, key: T -> int, k: int)
    ensures WithKey(SortBy(s, key), key, k) == WithKey(s, key, k)
  {
    if s != [] {
      var init, last := s[..|s| - 1], s[|s| - 1];
      var sorted := SortBy(init, key);
      assert SortBy(s, key) == Insert(last, sorted, key);
      assert s == init + [last];
      hide SortBy, WithKey, Insert, Ascending;
      SortIsStable(init, key, k);
      SortSorts(init, key);
      InsertIsLast(last, sorted, key, k);
      WithKeySnoc(init, last, key, k);
    }
  }
}
