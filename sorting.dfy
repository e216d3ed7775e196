/** Sorting by integer keys, the result that '$' relies on from Array.prototype.sort:
    the output is ordered by key and is a permutation of the input. Elements travel
    with their keys as pairs, so the same sort serves characters, numbers and values
    whose keys a block computed. */
module Sorting {

  predicate SortedByKey<T>(s: seq<(int, T)>) {
    forall a, b :: 0 <= a < b < |s| ==> s[a].0 <= s[b].0
  }

  /** The elements without their keys. */
  function Seconds<T>(s: seq<(int, T)>): (r: seq<T>)
    ensures |r| == |s|
    ensures forall k :: 0 <= k < |s| ==> r[k] == s[k].1
  {
    if s == [] then [] else [s[0].1] + Seconds(s[1..])
  }

  /** Places x before the first element whose key is not smaller. */
  function Insert<T>(x: (int, T), s: seq<(int, T)>): seq<(int, T)> {
    if s == [] || x.0 <= s[0].0 then [x] + s else [s[0]] + Insert(x, s[1..])
  }

  lemma SecondsCons<T>(h: (int, T), t: seq<(int, T)>)
    ensures Seconds([h] + t) == [h.1] + Seconds(t)
  {
    assert ([h] + t)[1..] == t;
  }

  lemma {:induction false} InsertPermutes<T>(x: (int, T), s: seq<(int, T)>)
    ensures multiset(Insert(x, s)) == multiset(s) + multiset{x}
  {
    if s != [] && x.0 > s[0].0 {
      InsertPermutes(x, s[1..]);
      assert s == [s[0]] + s[1..];
    }
  }

  /** The same, seen through the elements alone. */
  lemma {:induction false} InsertPermutesSeconds<T>(x: (int, T), s: seq<(int, T)>)
    ensures multiset(Seconds(Insert(x, s))) == multiset(Seconds(s)) + multiset{x.1}
  {
    if s == [] || x.0 <= s[0].0 {
      SecondsCons(x, s);
    } else {
      var h, t := s[0], s[1..];
      var rest := Insert(x, t);
      assert Insert(x, s) == [h] + rest;
      InsertPermutesSeconds(x, t);
      assert s == [h] + t;
      SecondsCons(h, t);
      SecondsCons(h, rest);
      calc {
        multiset(Seconds(Insert(x, s)));
        multiset([h.1] + Seconds(rest));
        multiset{h.1} + multiset(Seconds(rest));
        multiset{h.1} + multiset(Seconds(t)) + multiset{x.1};
        multiset([h.1] + Seconds(t)) + multiset{x.1};
      }
    }
  }

  predicate KeysAtLeast<T>(s: seq<(int, T)>, lo: int) {
    forall k :: 0 <= k < |s| ==> lo <= s[k].0
  }

  lemma {:induction false} InsertKeepsBound<T>(x: (int, T), s: seq<(int, T)>, lo: int)
    requires KeysAtLeast(s, lo) && lo <= x.0
    ensures KeysAtLeast(Insert(x, s), lo)
  {
    if s != [] && x.0 > s[0].0 {
      InsertKeepsBound(x, s[1..], lo);
    }
  }

  lemma ConsSorted<T>(h: (int, T), t: seq<(int, T)>)
    requires SortedByKey(t) && KeysAtLeast(t, h.0)
    ensures SortedByKey([h] + t)
  {
    var r := [h] + t;
    forall a, b | 0 <= a < b < |r|
      ensures r[a].0 <= r[b].0
    {
      assert r[b] == t[b - 1];
      if a > 0 {
        assert r[a] == t[a - 1];
      }
    }
  }

  lemma {:induction false} InsertSorted<T>(x: (int, T), s: seq<(int, T)>)
    requires SortedByKey(s)
    ensures SortedByKey(Insert(x, s))
  {
    if s == [] || x.0 <= s[0].0 {
      ConsSorted(x, s);
    } else {
      InsertSorted(x, s[1..]);
      InsertKeepsBound(x, s[1..], s[0].0);
      ConsSorted(s[0], Insert(x, s[1..]));
    }
  }

  lemma SplitHead<T>(s: seq<(int, T)>)
    requires s != []
    ensures multiset(s) == multiset(s[1..]) + multiset{s[0]}
    ensures multiset(Seconds(s)) == multiset(Seconds(s[1..])) + multiset{s[0].1}
  {
    assert s == [s[0]] + s[1..];
  }

  /** Insertion sort by key. */
  function SortByKey<T>(s: seq<(int, T)>): (r: seq<(int, T)>)
    ensures SortedByKey(r)
    ensures multiset(r) == multiset(s)
    ensures multiset(Seconds(r)) == multiset(Seconds(s))
  {
    if s == [] then []
    else
      var rest := SortByKey(s[1..]);
      InsertSorted(s[0], rest);
      InsertPermutes(s[0], rest);
      InsertPermutesSeconds(s[0], rest);
      SplitHead(s);
      Insert(s[0], rest)
  }

  /** Each character paired with its code. */
  function Keyed(s: string): (r: seq<(int, char)>)
    ensures Seconds(r) == s
    ensures forall p :: p in r ==> p.0 == p.1 as int
  {
    if s == [] then []
    else
      var r := [(s[0] as int, s[0])] + Keyed(s[1..]);
      assert r[1..] == Keyed(s[1..]);
      r
  }

  lemma KeysAreCodes(s: seq<(int, char)>, t: seq<(int, char)>)
    requires forall p :: p in s ==> p.0 == p.1 as int
    requires multiset(t) == multiset(s)
    ensures forall k :: 0 <= k < |t| ==> t[k].0 == t[k].1 as int
  {
    forall k | 0 <= k < |t|
      ensures t[k].0 == t[k].1 as int
    {
      assert t[k] in multiset(t);
    }
  }

  /** `split("").sort().join("")`: the characters of s in ascending order. */
  function SortChars(s: string): (r: string)
    ensures multiset(r) == multiset(s)
    ensures forall a, b :: 0 <= a < b < |r| ==> r[a] <= r[b]
  {
    var sorted := SortByKey(Keyed(s));
    KeysAreCodes(Keyed(s), sorted);
    Seconds(sorted)
  }
}
