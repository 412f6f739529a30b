/**
 * The part of the ORM's `findAll({where, order})` the controllers rely on:
 * the rows of a table that satisfy the `where` filter, each exactly once,
 * in the order of one sort key. Rows that tie on the key may come in any order.
 */
module Query {

  /** The rows of `rows` that `keep` selects. */
  function Where<T>(rows: set<T>, keep: T -> bool): set<T> {
    set x | x in rows && keep(x)
  }

  /** `a` may stand before `b` when sorting by a key ascending (`asc`) or descending. */
  predicate InOrder(a: int, b: int, asc: bool) {
    if asc then a <= b else a >= b
  }

  /** `s` is sorted by `key`. */
  predicate Ordered<T>(s: seq<T>, key: T -> int, asc: bool) {
    forall i, j :: 0 <= i < j < |s| ==> InOrder(key(s[i]), key(s[j]), asc)
  }

  /** Inserts `x` into `s` in front of the first row it may precede. */
  function InsertSorted<T>(s: seq<T>, x: T, key: T -> int, asc: bool): seq<T>
    decreases |s|
  {
    if s == [] || InOrder(key(x), key(s[0]), asc) then [x] + s
    else [s[0]] + InsertSorted(s[1..], x, key, asc)
  }

  /** Inserting adds exactly `x`. */
  lemma {:induction false} InsertSortedAddsOne<T>(s: seq<T>, x: T, key: T -> int, asc: bool)
    ensures multiset(InsertSorted(s, x, key, asc)) == multiset(s) + multiset{x}
    ensures forall y :: y in InsertSorted(s, x, key, asc) <==> y in s || y == x
    decreases |s|
  {
    if !(s == [] || InOrder(key(x), key(s[0]), asc)) {
      InsertSortedAddsOne(s[1..], x, key, asc);
      assert s == [s[0]] + s[1..];
    }
  }

  /** A row that may precede every row of a sorted sequence may go in front of it. */
  lemma OrderedCons<T>(a: T, rest: seq<T>, key: T -> int, asc: bool)
    requires Ordered(rest, key, asc)
    requires forall k :: 0 <= k < |rest| ==> InOrder(key(a), key(rest[k]), asc)
    ensures Ordered([a] + rest, key, asc)
  {
    forall i, j | 0 <= i < j < |[a] + rest| ensures InOrder(key(([a] + rest)[i]), key(([a] + rest)[j]), asc) {
      if i > 0 {
        assert ([a] + rest)[i] == rest[i - 1];
      }
      assert ([a] + rest)[j] == rest[j - 1];
    }
  }

  /** Inserting into a sorted sequence keeps it sorted. */
  lemma {:induction false} InsertSortedKeepsOrder<T>(s: seq<T>, x: T, key: T -> int, asc: bool)
    requires Ordered(s, key, asc)
    ensures Ordered(InsertSorted(s, x, key, asc), key, asc)
    decreases |s|
  {
    if s == [] || InOrder(key(x), key(s[0]), asc) {
      OrderedCons(x, s, key, asc);
    } else {
      var rest := InsertSorted(s[1..], x, key, asc);
      assert Ordered(s[1..], key, asc);
      InsertSortedKeepsOrder(s[1..], x, key, asc);
      InsertSortedAddsOne(s[1..], x, key, asc);
      forall k | 0 <= k < |rest| ensures InOrder(key(s[0]), key(rest[k]), asc) {
        var y := rest[k];
        assert y in multiset(rest);
        if y != x {
          assert y in multiset(s[1..]);
          assert y in s[1..];
          var j :| 0 <= j < |s[1..]| && s[1..][j] == y;
          assert s[1..][j] == s[j + 1];
        }
      }
      OrderedCons(s[0], rest, key, asc);
    }
  }

  /** `findAll` with a filter and an ORDER BY on one key. */
  method SelectSorted<T(==)>(rows: set<T>, keep: T -> bool, key: T -> int, asc: bool) returns (r: seq<T>)
    ensures multiset(r) == multiset(Where(rows, keep))
    ensures Ordered(r, key, asc)
  {
    r := [];
    var todo := rows;
    while todo != {}
      invariant todo <= rows
      invariant multiset(r) == multiset(Where(rows - todo, keep))
      invariant Ordered(r, key, asc)
      decreases |todo|
    {
      var x :| x in todo;
      ghost var done := Where(rows - todo, keep);
      if keep(x) {
        InsertSortedKeepsOrder(r, x, key, asc);
        InsertSortedAddsOne(r, x, key, asc);
        r := InsertSorted(r, x, key, asc);
        assert Where(rows - (todo - {x}), keep) == done + {x};
      } else {
        assert Where(rows - (todo - {x}), keep) == done;
      }
      todo := todo - {x};
    }
    assert rows - todo == rows;
  }

  /** `findAll` with a filter and no ORDER BY: every selected row once, in no promised order. */
  method Select<T(==)>(rows: set<T>, keep: T -> bool) returns (r: seq<T>)
    ensures multiset(r) == multiset(Where(rows, keep))
  {
    r := [];
    var todo := rows;
    while todo != {}
      invariant todo <= rows
      invariant multiset(r) == multiset(Where(rows - todo, keep))
      decreases |todo|
    {
      var x :| x in todo;
      ghost var done := Where(rows - todo, keep);
      if keep(x) {
        r := r + [x];
        assert Where(rows - (todo - {x}), keep) == done + {x};
      } else {
        assert Where(rows - (todo - {x}), keep) == done;
      }
      todo := todo - {x};
    }
    assert rows - todo == rows;
  }

  /** A listing returned by `SelectSorted` holds every selected row exactly once. */
  lemma ListingExact<T>(r: seq<T>, rows: set<T>, keep: T -> bool)
    requires multiset(r) == multiset(Where(rows, keep))
    ensures forall x :: x in r <==> x in rows && keep(x)
    ensures forall i, j :: 0 <= i < j < |r| ==> r[i] != r[j]
    ensures |r| == |Where(rows, keep)|
  {
    forall x ensures x in r <==> x in rows && keep(x) {
      assert x in r <==> x in multiset(r);
    }
    forall i, j | 0 <= i < j < |r| ensures r[i] != r[j] {
      assert r == r[..i] + [r[i]] + r[i+1..];
      assert r[j] in multiset(r[i+1..]) by { assert r[j] == r[i+1..][j - i - 1]; }
      assert multiset(r)[r[i]] <= 1;
    }
    assert |multiset(r)| == |r|;
    assert |multiset(Where(rows, keep))| == |Where(rows, keep)|;
  }
}
