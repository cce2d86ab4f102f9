/** The two kinds of default listing order a model's `Meta.ordering` asks
    for here: ascending by a text field (`('name',)`) and descending by an
    integer field (`('-date_paid',)`). Each sort is an insertion sort over the
    rows in whatever order they arrive, so rows with equal keys keep that
    order. */
module Sorting {
  import opened Strings

  /** Every earlier row's key is at most every later row's key. */
  predicate AscendingByText<T>(s: seq<T>, key: T -> string)
  {
    forall i, j :: 0 <= i < j < |s| ==> TextLe(key(s[i]), key(s[j]))
  }

  /** Every earlier row's key is at least every later row's key. */
  predicate DescendingByInt<T>(s: seq<T>, key: T -> int)
  {
    forall i, j :: 0 <= i < j < |s| ==> key(s[i]) >= key(s[j])
  }

  /** Puts `x` in front of the first row whose key is not smaller. */
  function InsertByText<T(==)>(x: T, s: seq<T>, key: T -> string): (r: seq<T>)
    requires AscendingByText(s, key)
    ensures AscendingByText(r, key)
    ensures multiset(r) == multiset(s) + multiset{x}
    decreases |s|
  {
    if |s| == 0 then [x]
    else if TextLe(key(x), key(s[0])) then
      InsertFirstByText(x, s, key);
      [x] + s
    else
      var rest := InsertByText(x, s[1..], key);
      InsertBelowHead(x, s, rest, key);
      assert s == [s[0]] + s[1..];
      [s[0]] + rest
  }

  lemma InsertFirstByText<T>(x: T, s: seq<T>, key: T -> string)
    requires AscendingByText(s, key) && |s| > 0 && TextLe(key(x), key(s[0]))
    ensures AscendingByText([x] + s, key)
  {
    var r := [x] + s;
    forall i, j | 0 <= i < j < |r|
      ensures TextLe(key(r[i]), key(r[j]))
    {
      if i == 0 && j > 1 {
        TextLeTransitive(key(x), key(s[0]), key(s[j - 1]));
      }
    }
  }

  lemma InsertBelowHead<T>(x: T, s: seq<T>, rest: seq<T>, key: T -> string)
    requires AscendingByText(s, key) && |s| > 0 && !TextLe(key(x), key(s[0]))
    requires AscendingByText(rest, key)
    requires multiset(rest) == multiset(s[1..]) + multiset{x}
    ensures AscendingByText([s[0]] + rest, key)
  {
    TextLeTotal(key(x), key(s[0]));
    var r := [s[0]] + rest;
    forall i, j | 0 <= i < j < |r|
      ensures TextLe(key(r[i]), key(r[j]))
    {
      if i == 0 {
        var y := rest[j - 1];
        assert y in multiset(rest);
        if y != x {
          assert y in multiset(s[1..]);
          var k :| 0 <= k < |s[1..]| && s[1..][k] == y;
          assert s[k + 1] == y;
        }
      }
    }
  }

  /** The rows in ascending order of their text key. */
  function SortByText<T(==)>(s: seq<T>, key: T -> string): (r: seq<T>)
    ensures AscendingByText(r, key)
    ensures multiset(r) == multiset(s)
    decreases |s|
  {
    if |s| == 0 then []
    else
      assert s == [s[0]] + s[1..];
      InsertByText(s[0], SortByText(s[1..], key), key)
  }

  /** Puts `x` in front of the first row whose key is not larger. */
  function InsertByIntDesc<T(==)>(x: T, s: seq<T>, key: T -> int): (r: seq<T>)
    requires DescendingByInt(s, key)
    ensures DescendingByInt(r, key)
    ensures multiset(r) == multiset(s) + multiset{x}
    decreases |s|
  {
    if |s| == 0 then [x]
    else if key(x) >= key(s[0]) then [x] + s
    else
      var rest := InsertByIntDesc(x, s[1..], key);
      InsertBelowHeadDesc(x, s, rest, key);
      assert s == [s[0]] + s[1..];
      [s[0]] + rest
  }

  lemma InsertBelowHeadDesc<T>(x: T, s: seq<T>, rest: seq<T>, key: T -> int)
    requires DescendingByInt(s, key) && |s| > 0 && key(x) < key(s[0])
    requires DescendingByInt(rest, key)
    requires multiset(rest) == multiset(s[1..]) + multiset{x}
    ensures DescendingByInt([s[0]] + rest, key)
  {
    var r := [s[0]] + rest;
    forall i, j | 0 <= i < j < |r|
      ensures key(r[i]) >= key(r[j])
    {
      if i == 0 {
        var y := rest[j - 1];
        assert y in multiset(rest);
        if y != x {
          assert y in multiset(s[1..]);
          var k :| 0 <= k < |s[1..]| && s[1..][k] == y;
          assert s[k + 1] == y;
        }
      }
    }
  }

  /** The rows in descending order of their integer key. */
  function SortByIntDesc<T(==)>(s: seq<T>, key: T -> int): (r: seq<T>)
    ensures DescendingByInt(r, key)
    ensures multiset(r) == multiset(s)
    decreases |s|
  {
    if |s| == 0 then []
    else
      assert s == [s[0]] + s[1..];
      InsertByIntDesc(s[0], SortByIntDesc(s[1..], key), key)
  }
}
