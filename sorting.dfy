/**
 * Python's list.sort(key=lambda x: x[0]) on the (angle, face index) items of
 * Roberts/icosahedron.py:136. The library sort is stable; it is modelled here
 * as an insertion sort that places each new item after every item whose key
 * is not larger.
 */
module Sorting {

  /** An (angle key, face index) pair. */
  type Item = (real, int)

  /** Keys never decrease from left to right. */
  predicate SortedByKey(s: seq<Item>)
  {
    forall i, j :: 0 <= i < j < |s| ==> s[i].0 <= s[j].0
  }

  /** Items with equal keys keep increasing face indices (what stability gives when the input's indices increase). */
  predicate EqualKeysInIndexOrder(s: seq<Item>)
  {
    forall i, j :: 0 <= i < j < |s| && s[i].0 == s[j].0 ==> s[i].1 < s[j].1
  }

  /** Face indices strictly increase from left to right. */
  predicate IncreasingIndices(s: seq<Item>)
  {
    forall i, j :: 0 <= i < j < |s| ==> s[i].1 < s[j].1
  }

  /** Insert x behind every item whose key is at most x's key. */
  function Insert(x: Item, s: seq<Item>): (r: seq<Item>)
    ensures multiset(r) == multiset(s) + multiset{x}
    ensures |r| == |s| + 1
    decreases |s|
  {
    if s == [] || s[|s| - 1].0 <= x.0 then
      s + [x]
    else
      assert s == s[..|s| - 1] + [s[|s| - 1]];
      Insert(x, s[..|s| - 1]) + [s[|s| - 1]]
  }

  /** Everything Insert returns is x or came from s. */
  lemma InsertMembers(x: Item, s: seq<Item>)
    ensures forall e :: e in Insert(x, s) ==> e == x || e in s
  {
    forall e | e in Insert(x, s) ensures e == x || e in s {
      assert e in multiset(Insert(x, s));
    }
  }

  /** Inserting into a sorted sequence keeps it sorted. */
  lemma {:induction false} InsertSorted(x: Item, s: seq<Item>)
    requires SortedByKey(s)
    ensures SortedByKey(Insert(x, s))
    decreases |s|
  {
    if s == [] || s[|s| - 1].0 <= x.0 {
    } else {
      var front, last := s[..|s| - 1], s[|s| - 1];
      InsertSorted(x, front);
      InsertMembers(x, front);
      var r' := Insert(x, front);
      assert forall i :: 0 <= i < |r'| ==> r'[i].0 <= last.0 by {
        forall i | 0 <= i < |r'| ensures r'[i].0 <= last.0 {
          assert r'[i] in r';
        }
      }
    }
  }

  /** Inserting an item whose index exceeds all others keeps equal keys in index order. */
  lemma {:induction false} InsertStable(x: Item, s: seq<Item>)
    requires EqualKeysInIndexOrder(s)
    requires forall i :: 0 <= i < |s| ==> s[i].1 < x.1
    ensures EqualKeysInIndexOrder(Insert(x, s))
    decreases |s|
  {
    if s == [] || s[|s| - 1].0 <= x.0 {
    } else {
      var front, last := s[..|s| - 1], s[|s| - 1];
      InsertStable(x, front);
      InsertMembers(x, front);
      var r' := Insert(x, front);
      assert forall i :: 0 <= i < |r'| && r'[i].0 == last.0 ==> r'[i].1 < last.1 by {
        forall i | 0 <= i < |r'| && r'[i].0 == last.0 ensures r'[i].1 < last.1 {
          assert r'[i] in r';
          var m :| 0 <= m < |front| && front[m] == r'[i];
          assert s[m] == front[m];
        }
      }
    }
  }

  /** The stable sort by key: a sorted permutation that keeps equal keys in input order. */
  function SortByKey(s: seq<Item>): (r: seq<Item>)
    ensures multiset(r) == multiset(s)
    ensures |r| == |s|
    decreases |s|
  {
    if s == [] then
      []
    else
      assert s == s[..|s| - 1] + [s[|s| - 1]];
      Insert(s[|s| - 1], SortByKey(s[..|s| - 1]))
  }

  /** SortByKey returns its input's items with keys in non-decreasing order. */
  lemma {:induction false} SortByKeySorted(s: seq<Item>)
    ensures SortedByKey(SortByKey(s))
    decreases |s|
  {
    if s != [] {
      SortByKeySorted(s[..|s| - 1]);
      InsertSorted(s[|s| - 1], SortByKey(s[..|s| - 1]));
    }
  }

  /** SortByKey is stable: on inputs with increasing indices, equal keys stay in index order. */
  lemma {:induction false} SortByKeyStable(s: seq<Item>)
    requires IncreasingIndices(s)
    ensures EqualKeysInIndexOrder(SortByKey(s))
    decreases |s|
  {
    if s != [] {
      var front, last := s[..|s| - 1], s[|s| - 1];
      SortByKeyStable(front);
      var r' := SortByKey(front);
      forall i | 0 <= i < |r'| ensures r'[i].1 < last.1 {
        assert r'[i] in multiset(front);
        var m :| 0 <= m < |front| && front[m] == r'[i];
        assert s[m] == front[m];
      }
      InsertStable(last, r');
    }
  }

  /** The face indices of a list of items, in order: [fi for (_, fi) in items]. */
  function Indices(s: seq<Item>): (r: seq<int>)
    ensures |r| == |s|
    ensures forall k :: 0 <= k < |s| ==> r[k] == s[k].1
  {
    seq(|s|, k requires 0 <= k < |s| => s[k].1)
  }

  /** Inserting adds exactly x's index to the indices. */
  lemma {:induction false} InsertIndices(x: Item, s: seq<Item>)
    ensures multiset(Indices(Insert(x, s))) == multiset(Indices(s)) + multiset{x.1}
    decreases |s|
  {
    if s == [] || s[|s| - 1].0 <= x.0 {
      IndicesSnoc(s, x);
    } else {
      var front, last := s[..|s| - 1], s[|s| - 1];
      calc {
        multiset(Indices(Insert(x, s)));
        multiset(Indices(Insert(x, front) + [last]));
        { IndicesSnoc(Insert(x, front), last); }
        multiset(Indices(Insert(x, front))) + multiset{last.1};
        { InsertIndices(x, front); }
        multiset(Indices(front)) + multiset{x.1} + multiset{last.1};
        { IndicesSnoc(front, last); assert front + [last] == s; }
        multiset(Indices(s)) + multiset{x.1};
      }
    }
  }

  /** Sorting a non-empty list inserts its last item into the sorted front. */
  lemma SortByKeySnoc(s: seq<Item>)
    requires s != []
    ensures SortByKey(s) == Insert(s[|s| - 1], SortByKey(s[..|s| - 1]))
  {
  }

  /** Appending an item adds its index to the multiset of indices. */
  lemma IndicesSnoc(s: seq<Item>, x: Item)
    ensures multiset(Indices(s + [x])) == multiset(Indices(s)) + multiset{x.1}
  {
    assert Indices(s + [x]) == Indices(s) + [x.1];
  }

  /** Sorting permutes the face indices. */
  lemma {:induction false} SortByKeyIndices(s: seq<Item>)
    ensures multiset(Indices(SortByKey(s))) == multiset(Indices(s))
    decreases |s|
  {
    if s != [] {
      var front, last := s[..|s| - 1], s[|s| - 1];
      var r' := SortByKey(front);
      calc {
        multiset(Indices(SortByKey(s)));
        { SortByKeySnoc(s); }
        multiset(Indices(Insert(last, r')));
        { InsertIndices(last, r'); }
        multiset(Indices(r')) + multiset{last.1};
        { SortByKeyIndices(front); }
        multiset(Indices(front)) + multiset{last.1};
        { IndicesSnoc(front, last); assert front + [last] == s; }
        multiset(Indices(s));
      }
    }
  }
}
