/** Array.prototype.sort as the game calls it: with a comparator that ranks
    by one or more numeric keys, highest first, the earlier key deciding.
    An item is paired with its key vector; the sort is an insertion sort
    that keeps equal-ranked items in their input order. */
module Sorting {

  datatype Keyed<T> = Keyed(key: seq<real>, item: T)

  /** Key `a` ranks at or above key `b`: the first differing component
      decides, the larger one first. */
  predicate RanksAbove(a: seq<real>, b: seq<real>)
    decreases |a|
  {
    if a == [] || b == [] then true
    else if a[0] != b[0] then a[0] > b[0]
    else RanksAbove(a[1..], b[1..])
  }

  lemma {:induction false} RanksAboveTotal(a: seq<real>, b: seq<real>)
    ensures RanksAbove(a, b) || RanksAbove(b, a)
    decreases |a|
  {
    if a != [] && b != [] && a[0] == b[0] {
      RanksAboveTotal(a[1..], b[1..]);
    }
  }

  lemma {:induction false} RanksAboveTransitive(a: seq<real>, b: seq<real>, c: seq<real>)
    requires |a| == |b| == |c|
    requires RanksAbove(a, b) && RanksAbove(b, c)
    ensures RanksAbove(a, c)
    decreases |a|
  {
    if a != [] && a[0] == b[0] && b[0] == c[0] {
      RanksAboveTransitive(a[1..], b[1..], c[1..]);
    }
  }

  /** With a single key, ranking at or above is `>=`. */
  lemma RanksAboveSingle(a: real, b: real)
    ensures RanksAbove([a], [b]) <==> a >= b
  {
    assert [a][1..] == [] && [b][1..] == [];
  }

  /** Every key has `n` components. */
  predicate KeysOfLength<T>(s: seq<Keyed<T>>, n: nat)
  {
    forall i :: 0 <= i < |s| ==> |s[i].key| == n
  }

  /** Each item ranks at or above every later one. */
  predicate Sorted<T>(s: seq<Keyed<T>>)
  {
    forall i, j :: 0 <= i < j < |s| ==> RanksAbove(s[i].key, s[j].key)
  }

  /** Places `x` after every item ranking at or above it. */
  function Insert<T>(x: Keyed<T>, s: seq<Keyed<T>>): seq<Keyed<T>>
  {
    if s == [] then [x]
    else if RanksAbove(s[0].key, x.key) then [s[0]] + Insert(x, s[1..])
    else [x] + s
  }

  lemma {:induction false} InsertPermutes<T>(x: Keyed<T>, s: seq<Keyed<T>>)
    ensures multiset(Insert(x, s)) == multiset(s) + multiset{x}
    ensures |Insert(x, s)| == |s| + 1
  {
    if s != [] && RanksAbove(s[0].key, x.key) {
      InsertPermutes(x, s[1..]);
      assert s == [s[0]] + s[1..];
    }
  }

  /** Every item of a sorted sequence ranks at or above the later ones. */
  lemma HeadRanksAbove<T>(x: Keyed<T>, s: seq<Keyed<T>>)
    requires Sorted([x] + s)
    ensures forall j :: 0 <= j < |s| ==> RanksAbove(x.key, s[j].key)
  {
    forall j | 0 <= j < |s| ensures RanksAbove(x.key, s[j].key) {
      assert ([x] + s)[0] == x && ([x] + s)[j + 1] == s[j];
    }
  }

  /** Prepending an item that ranks at or above a sorted tail keeps it sorted. */
  lemma ConsSorted<T>(x: Keyed<T>, s: seq<Keyed<T>>)
    requires Sorted(s)
    requires forall j :: 0 <= j < |s| ==> RanksAbove(x.key, s[j].key)
    ensures Sorted([x] + s)
  {
    var r := [x] + s;
    forall i, j | 0 <= i < j < |r| ensures RanksAbove(r[i].key, r[j].key) {
      if i == 0 {
        assert r[j] == s[j - 1];
      } else {
        assert r[i] == s[i - 1] && r[j] == s[j - 1];
      }
    }
  }

  lemma {:induction false} InsertSorted<T>(x: Keyed<T>, s: seq<Keyed<T>>, n: nat)
    requires Sorted(s) && KeysOfLength(s, n) && |x.key| == n
    ensures Sorted(Insert(x, s)) && KeysOfLength(Insert(x, s), n)
  {
    InsertPermutes(x, s);
    if s == [] {
    } else if RanksAbove(s[0].key, x.key) {
      var tail := s[1..];
      assert s == [s[0]] + tail;
      var rest := Insert(x, tail);
      InsertSorted(x, tail, n);
      InsertPermutes(x, tail);
      HeadRanksAbove(s[0], tail);
      forall j | 0 <= j < |rest| ensures RanksAbove(s[0].key, rest[j].key) && |rest[j].key| == n {
        assert rest[j] in multiset(rest);
        assert rest[j] == x || rest[j] in tail;
      }
      ConsSorted(s[0], rest);
    } else {
      RanksAboveTotal(s[0].key, x.key);
      HeadRanksAbove(s[0], s[1..]);
      assert [s[0]] + s[1..] == s;
      forall j | 0 <= j < |s| ensures RanksAbove(x.key, s[j].key) {
        if j > 0 {
          RanksAboveTransitive(x.key, s[0].key, s[j].key);
        }
      }
      ConsSorted(x, s);
    }
  }

  /** Stable insertion sort, highest rank first. */
  function SortDescending<T(==)>(s: seq<Keyed<T>>, n: nat): (r: seq<Keyed<T>>)
    requires KeysOfLength(s, n)
    ensures |r| == |s|
    ensures Sorted(r) && KeysOfLength(r, n)
    ensures multiset(r) == multiset(s)
  {
    if s == [] then []
    else
      var init := s[..|s| - 1];
      SplitLast(s, n);
      var sortedInit := SortDescending(init, n);
      InsertSorted(s[|s| - 1], sortedInit, n);
      InsertPermutes(s[|s| - 1], sortedInit);
      Insert(s[|s| - 1], sortedInit)
  }

  /** A non-empty sequence is its front and its last item. */
  lemma SplitLast<T>(s: seq<Keyed<T>>, n: nat)
    requires s != [] && KeysOfLength(s, n)
    ensures KeysOfLength(s[..|s| - 1], n) && |s[|s| - 1].key| == n
    ensures multiset(s) == multiset(s[..|s| - 1]) + multiset{s[|s| - 1]}
  {
    assert s == s[..|s| - 1] + [s[|s| - 1]];
  }

  /** The items of a keyed sequence, in order. */
  function Items<T>(s: seq<Keyed<T>>): (r: seq<T>)
    ensures |r| == |s|
    ensures forall i :: 0 <= i < |s| ==> r[i] == s[i].item
  {
    if s == [] then [] else [s[0].item] + Items(s[1..])
  }

  lemma ItemsAppend<T>(a: seq<Keyed<T>>, b: seq<Keyed<T>>)
    ensures Items(a + b) == Items(a) + Items(b)
  {
    var l, r := Items(a + b), Items(a) + Items(b);
    assert |l| == |r|;
    forall i | 0 <= i < |l| ensures l[i] == r[i] {
      if i >= |a| {
        assert r[i] == Items(b)[i - |a|];
      }
    }
  }

  lemma {:induction false} InsertItems<T>(x: Keyed<T>, s: seq<Keyed<T>>)
    ensures multiset(Items(Insert(x, s))) == multiset(Items(s)) + multiset{x.item}
  {
    if s != [] && RanksAbove(s[0].key, x.key) {
      InsertItems(x, s[1..]);
      assert Items(s) == [s[0].item] + Items(s[1..]);
    }
  }

  /** Sorting rearranges the items and neither adds nor drops any. */
  lemma {:induction false} SortItemsPermutation<T>(s: seq<Keyed<T>>, n: nat)
    requires KeysOfLength(s, n)
    ensures multiset(Items(SortDescending(s, n))) == multiset(Items(s))
    decreases |s|
  {
    if s != [] {
      var init, last := s[..|s| - 1], s[|s| - 1];
      assert s == init + [last];
      assert KeysOfLength(init, n);
      var sortedInit := SortDescending(init, n);
      assert SortDescending(s, n) == Insert(last, sortedInit);
      SortItemsPermutation(init, n);
      InsertItems(last, sortedInit);
      ItemsAppend(init, [last]);
      assert Items([last]) == [last.item];
      assert multiset(Items(s)) == multiset(Items(init)) + multiset{last.item};
    }
  }
}
