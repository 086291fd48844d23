/** SQL `ORDER BY` over a table held as a map from row id to row: the ids of
    the selected rows, each once, ordered by a per-row key. Rows with equal
    keys come out in an order the model leaves open, as SQL does. */
module Ordering {

  /** `a` may come before `b` in the chosen direction. */
  predicate Before(a: int, b: int, descending: bool) {
    if descending then a >= b else a <= b
  }

  predicate Distinct(ids: seq<int>) {
    forall i, j :: 0 <= i < j < |ids| ==> ids[i] != ids[j]
  }

  /** `ids` lists every key of `keys` exactly once, ordered by the keys' values. */
  predicate SortedIds(ids: seq<int>, keys: map<int, int>, descending: bool) {
    && (forall i :: 0 <= i < |ids| ==> ids[i] in keys)
    && (forall id :: id in keys ==> id in ids)
    && Distinct(ids)
    && (forall i, j :: 0 <= i < j < |ids| ==> Before(keys[ids[i]], keys[ids[j]], descending))
  }

  /** Among the ids in `s`, `m` has a key that may come first. */
  predicate First(m: int, s: set<int>, keys: map<int, int>, descending: bool)
    requires s <= keys.Keys
  {
    m in s && forall k :: k in s ==> Before(keys[m], keys[k], descending)
  }

  /** A non-empty set has a member. */
  lemma NonEmptyHasMember(s: set<int>)
    requires s != {}
    ensures exists x :: x in s
  {
    if forall x :: x !in s { assert false; }
  }

  /** A non-empty finite set of ids has one whose key may come first. */
  lemma {:induction false} FirstExists(s: set<int>, keys: map<int, int>, descending: bool)
    requires s != {} && s <= keys.Keys
    ensures exists m :: First(m, s, keys, descending)
    decreases |s|
  {
    NonEmptyHasMember(s);
    var x :| x in s;
    if s == {x} {
      assert First(x, s, keys, descending);
    } else {
      var rest := s - {x};
      FirstExists(rest, keys, descending);
      var m :| First(m, rest, keys, descending);
      if Before(keys[m], keys[x], descending) {
        assert First(m, s, keys, descending);
      } else {
        forall k | k in s ensures Before(keys[x], keys[k], descending) {
          if k != x { assert k in rest; }
        }
        assert First(x, s, keys, descending);
      }
    }
  }

  /** Orders the ids of `keys` by their keys, ascending or descending: the
      rows an `ORDER BY` query returns. */
  method SortIds(keys: map<int, int>, descending: bool) returns (ids: seq<int>)
    ensures SortedIds(ids, keys, descending)
    ensures |ids| == |keys|
  {
    var rest := keys.Keys;
    ids := [];
    while rest != {}
      invariant rest <= keys.Keys
      invariant |ids| + |rest| == |keys|
      invariant forall i :: 0 <= i < |ids| ==> ids[i] in keys && ids[i] !in rest
      invariant forall id :: id in keys ==> id in rest || id in ids
      invariant Distinct(ids)
      invariant forall i, j :: 0 <= i < j < |ids| ==> Before(keys[ids[i]], keys[ids[j]], descending)
      invariant forall i, k :: 0 <= i < |ids| && k in rest ==> Before(keys[ids[i]], keys[k], descending)
      decreases |rest|
    {
      FirstExists(rest, keys, descending);
      var m :| First(m, rest, keys, descending);
      ids := ids + [m];
      rest := rest - {m};
    }
  }

  /** `s` holds each row of `table` that `sel` selects, once, ordered by
      `key` (rows with equal keys in any order): the answer of a
      `SELECT ... WHERE ... ORDER BY` over the table. `id` reads a row's
      primary key. */
  predicate Enumerates<R(==)>(s: seq<R>, table: map<int, R>, sel: R -> bool, id: R -> int, key: R -> int,
                          descending: bool)
  {
    && (forall k :: 0 <= k < |s| ==> id(s[k]) in table && table[id(s[k])] == s[k] && sel(s[k]))
    && (forall i :: i in table && sel(table[i]) ==> table[i] in s)
    && (forall i, j :: 0 <= i < j < |s| ==> id(s[i]) != id(s[j]) && Before(key(s[i]), key(s[j]), descending))
  }

  /** Runs such a query over a table whose rows sit under their own ids. */
  method Select<R(==)>(table: map<int, R>, sel: R -> bool, id: R -> int, key: R -> int, descending: bool)
    returns (s: seq<R>)
    requires forall i :: i in table ==> id(table[i]) == i
    ensures Enumerates(s, table, sel, id, key, descending)
  {
    var keys := map i | i in table && sel(table[i]) :: key(table[i]);
    var ids := SortIds(keys, descending);
    s := seq(|ids|, k requires 0 <= k < |ids| => table[ids[k]]);
    forall k | 0 <= k < |s| ensures id(s[k]) in table && table[id(s[k])] == s[k] && sel(s[k]) {
      assert ids[k] in keys && s[k] == table[ids[k]] && id(table[ids[k]]) == ids[k];
    }
    forall i | i in table && sel(table[i]) ensures table[i] in s {
      assert i in keys;
      var k :| 0 <= k < |ids| && ids[k] == i;
      assert s[k] == table[i];
    }
    forall i, j | 0 <= i < j < |s| ensures id(s[i]) != id(s[j]) && Before(key(s[i]), key(s[j]), descending) {
      assert ids[i] in keys && ids[j] in keys;
    }
  }

  /** `s.filter(p)`: the elements that satisfy `p`, in their order. */
  function Where<T(!new,==)>(s: seq<T>, p: T -> bool): (r: seq<T>)
    ensures |r| <= |s|
    ensures forall x :: x in r <==> x in s && p(x)
  {
    if |s| == 0 then []
    else if p(s[0]) then [s[0]] + Where(s[1..], p)
    else Where(s[1..], p)
  }

  /** Filtering keeps any relation that holds between every earlier and
      later element, in particular an order and distinct ids. */
  lemma {:induction false} WhereKeepsOrder<T(!new)>(s: seq<T>, p: T -> bool, rel: (T, T) -> bool)
    requires forall i, j :: 0 <= i < j < |s| ==> rel(s[i], s[j])
    ensures var r := Where(s, p);
            forall i, j :: 0 <= i < j < |r| ==> rel(r[i], r[j])
    decreases |s|
  {
    if |s| > 0 {
      var tail := s[1..];
      assert forall i, j :: 0 <= i < j < |tail| ==> rel(tail[i], tail[j]) by {
        forall i, j | 0 <= i < j < |tail| ensures rel(tail[i], tail[j]) {
          assert tail[i] == s[i + 1] && tail[j] == s[j + 1];
        }
      }
      WhereKeepsOrder(tail, p, rel);
      if p(s[0]) {
        var r := Where(s, p);
        forall i, j | 0 <= i < j < |r| ensures rel(r[i], r[j]) {
          if i == 0 {
            assert r[j] in Where(tail, p);
            var k :| 0 <= k < |tail| && tail[k] == r[j];
            assert rel(s[0], s[k + 1]);
          } else {
            assert r[i] == Where(tail, p)[i - 1] && r[j] == Where(tail, p)[j - 1];
          }
        }
      } else {
        var r := Where(s, p);
        assert r == Where(tail, p);
        forall i, j | 0 <= i < j < |r| ensures rel(r[i], r[j]) {
          assert r[i] == Where(tail, p)[i] && r[j] == Where(tail, p)[j];
        }
      }
    }
  }

  /** The keys of the elements of `s`. */
  function KeySet<R>(s: seq<R>, id: R -> int): (r: set<int>)
    ensures forall k :: 0 <= k < |s| ==> id(s[k]) in r
    ensures forall x :: x in r ==> exists k :: 0 <= k < |s| && id(s[k]) == x
  {
    set k | 0 <= k < |s| :: id(s[k])
  }

  /** Elements with pairwise distinct keys have as many keys as elements. */
  lemma {:induction false} DistinctKeysCount<R>(s: seq<R>, id: R -> int)
    requires forall i, j :: 0 <= i < j < |s| ==> id(s[i]) != id(s[j])
    ensures |KeySet(s, id)| == |s|
    decreases |s|
  {
    if |s| > 0 {
      var last := |s| - 1;
      DistinctKeysCount(s[..last], id);
      var front := KeySet(s[..last], id);
      assert KeySet(s, id) == front + {id(s[last])} by {
        forall x | x in KeySet(s, id) ensures x in front + {id(s[last])} {
          var k :| 0 <= k < |s| && id(s[k]) == x;
          if k < last { assert id(s[..last][k]) == x; }
        }
        forall x | x in front ensures x in KeySet(s, id) {
          var k :| 0 <= k < last && id(s[..last][k]) == x;
          assert id(s[k]) == x;
        }
      }
      assert id(s[last]) !in front;
    }
  }
}
