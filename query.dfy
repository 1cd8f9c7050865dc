/**
 * The three query steps the routes use, over a table held as a sequence of
 * rows: filter (`WHERE`), sort by one key (`ORDER BY key DESC`) and take a
 * prefix (`LIMIT n`, `OFFSET k`). The database leaves the order of rows with
 * equal keys unspecified, so no contract here says anything about it.
 */
module Query {

  function Filter<T(!new)>(s: seq<T>, p: T -> bool): (r: seq<T>)
    ensures |r| <= |s|
    ensures forall x :: x in r <==> x in s && p(x)
    ensures forall i | 0 <= i < |r| :: p(r[i])
    ensures multiset(r) <= multiset(s)
  {
    if s == [] then []
    else
      var rest := Filter(s[1..], p);
      assert s == [s[0]] + s[1..];
      if p(s[0]) then [s[0]] + rest else rest
  }

  /** The number of rows that satisfy p. */
  function Count<T(!new)>(s: seq<T>, p: T -> bool): (n: nat)
    ensures n <= |s|
  {
    if s == [] then 0 else (if p(s[0]) then 1 else 0) + Count(s[1..], p)
  }

  lemma {:induction false} CountIsFilterLength<T(!new)>(s: seq<T>, p: T -> bool)
    ensures Count(s, p) == |Filter(s, p)|
  {
    if s != [] {
      CountIsFilterLength(s[1..], p);
    }
  }

  lemma {:induction false} CountAppend<T(!new)>(s: seq<T>, t: seq<T>, p: T -> bool)
    ensures Count(s + t, p) == Count(s, p) + Count(t, p)
  {
    if s == [] {
      assert s + t == t;
    } else {
      assert (s + t)[1..] == s[1..] + t;
      CountAppend(s[1..], t, p);
    }
  }

  /** Every row satisfies exactly one of p and its negation. */
  lemma {:induction false} CountSplit<T(!new)>(s: seq<T>, p: T -> bool, q: T -> bool)
    requires forall x :: q(x) == !p(x)
    ensures Count(s, p) + Count(s, q) == |s|
  {
    if s != [] {
      CountSplit(s[1..], p, q);
    }
  }

  predicate SortedDesc<T>(s: seq<T>, key: T -> real) {
    forall i, j | 0 <= i < j < |s| :: key(s[j]) <= key(s[i])
  }

  /** Inserts x before the first element whose key is not above x's. */
  function Insert<T(!new)>(x: T, s: seq<T>, key: T -> real): (r: seq<T>)
    requires SortedDesc(s, key)
    ensures SortedDesc(r, key)
    ensures multiset(r) == multiset(s) + multiset{x}
    ensures |r| == |s| + 1
    ensures forall y | y in r :: y in s || y == x
  {
    if s == [] then [x]
    else if key(s[0]) <= key(x) then
      ConsSorted(x, s, key);
      [x] + s
    else
      var rest := Insert(x, s[1..], key);
      assert s == [s[0]] + s[1..];
      ConsSorted(s[0], rest, key);
      [s[0]] + rest
  }

  lemma ConsSorted<T(!new)>(h: T, t: seq<T>, key: T -> real)
    requires SortedDesc(t, key)
    requires forall y | y in t :: key(y) <= key(h)
    ensures SortedDesc([h] + t, key)
  {
    var r := [h] + t;
    forall i, j | 0 <= i < j < |r| ensures key(r[j]) <= key(r[i]) {
      assert r[j] == t[j - 1];
      if i > 0 {
        assert r[i] == t[i - 1];
      }
    }
  }

  /**
   * The id the next inserted row receives: SQLite gives an integer primary
   * key one above the largest id stored, and 1 in an empty table.
   */
  function NextId<T>(rows: seq<T>, id: T -> int): (n: int)
    ensures n >= 1
    ensures forall r | r in rows :: id(r) < n
    ensures rows == [] ==> n == 1
  {
    if rows == [] then 1
    else
      var rest := NextId(rows[1..], id);
      if id(rows[0]) + 1 > rest then id(rows[0]) + 1 else rest
  }

  /** ORDER BY key DESC, as an insertion sort. */
  function SortDesc<T(!new)>(s: seq<T>, key: T -> real): (r: seq<T>)
    ensures SortedDesc(r, key)
    ensures multiset(r) == multiset(s)
    ensures |r| == |s|
  {
    if s == [] then []
    else
      assert s == [s[0]] + s[1..];
      Insert(s[0], SortDesc(s[1..], key), key)
  }

  /** LIMIT n. */
  function Take<T(!new)>(s: seq<T>, n: nat): (r: seq<T>)
    ensures |r| == if n <= |s| then n else |s|
    ensures r == s[..|r|]
  {
    if n <= |s| then s[..n] else s
  }

  /**
   * The row bound of `LIMIT limit` over a table of `rows` rows: SQLite reads
   * a negative LIMIT as no limit at all.
   */
  function SqlLimit(limit: int, rows: nat): nat {
    if limit < 0 then rows else limit
  }

  /** LIMIT n OFFSET k. */
  function Page<T(!new)>(s: seq<T>, n: nat, k: nat): (r: seq<T>)
    ensures |r| <= n
    ensures k <= |s| ==> |r| == (if k + n <= |s| then n else |s| - k) && r == s[k..][..|r|]
    ensures k > |s| ==> r == []
  {
    if k <= |s| then Take(s[k..], n) else []
  }

  /**
   * ORDER BY key DESC LIMIT n: at most n rows taken from s, in order, and no
   * row left out ranks above a row kept.
   */
  function TopBy<T(!new)>(s: seq<T>, key: T -> real, n: nat): (r: seq<T>)
    ensures |r| == if n <= |s| then n else |s|
    ensures SortedDesc(r, key)
    ensures multiset(r) <= multiset(s)
    ensures forall y, i | y in multiset(s) - multiset(r) && 0 <= i < |r| :: key(y) <= key(r[i])
  {
    var sorted := SortDesc(s, key);
    TakeLeavesSmaller(s, sorted, n, key);
    PrefixSorted(sorted, n, key);
    Take(sorted, n)
  }

  /** A prefix of a sorted table is sorted. */
  lemma PrefixSorted<T(!new)>(sorted: seq<T>, n: nat, key: T -> real)
    requires SortedDesc(sorted, key)
    ensures SortedDesc(Take(sorted, n), key)
  {
    var r := Take(sorted, n);
    forall i, j | 0 <= i < j < |r| ensures key(r[j]) <= key(r[i]) {
      assert r[i] == sorted[i] && r[j] == sorted[j];
    }
  }

  /** In a sorted arrangement of s, nothing past the first n rows ranks above them. */
  lemma TakeLeavesSmaller<T(!new)>(s: seq<T>, sorted: seq<T>, n: nat, key: T -> real)
    requires SortedDesc(sorted, key) && multiset(sorted) == multiset(s)
    ensures multiset(Take(sorted, n)) <= multiset(s)
    ensures forall y, i | y in multiset(s) - multiset(Take(sorted, n)) && 0 <= i < |Take(sorted, n)| ::
      key(y) <= key(Take(sorted, n)[i])
  {
    var r := Take(sorted, n);
    var rest := sorted[|r|..];
    assert sorted == r + rest;
    assert multiset(s) == multiset(r) + multiset(rest);
    forall y, i | y in multiset(s) - multiset(r) && 0 <= i < |r|
      ensures key(y) <= key(r[i])
    {
      assert y in multiset(rest);
      var j :| 0 <= j < |rest| && rest[j] == y;
      assert sorted[|r| + j] == y;
    }
  }

  /** The row with the largest key, as `ORDER BY key DESC` followed by `first()`. */
  function First<T(!new)>(s: seq<T>, key: T -> real): (r: seq<T>)
    ensures |r| == if s == [] then 0 else 1
    ensures r != [] ==> r[0] in s && forall y | y in s :: key(y) <= key(r[0])
  {
    var r := TopBy(s, key, 1);
    FirstIsMaximal(s, key, r);
    r
  }

  lemma FirstIsMaximal<T(!new)>(s: seq<T>, key: T -> real, r: seq<T>)
    requires |r| <= 1 && multiset(r) <= multiset(s)
    requires forall y, i | y in multiset(s) - multiset(r) && 0 <= i < |r| :: key(y) <= key(r[i])
    ensures r != [] ==> r[0] in s && forall y | y in s :: key(y) <= key(r[0])
  {
    if r != [] {
      assert r[0] in multiset(s);
      forall y | y in s ensures key(y) <= key(r[0]) {
        if y !in multiset(s) - multiset(r) {
          assert y in multiset(r);
        }
      }
    }
  }

  /** Rows drawn from a pool, each at most as often, are rows of the pool. */
  lemma DrawnFrom<T>(r: seq<T>, s: seq<T>)
    requires multiset(r) <= multiset(s)
    ensures forall y | y in r :: y in s
  {
    forall y | y in r ensures y in s {
      assert y in multiset(r);
    }
  }

  /** Under the TopBy guarantee, a pool row that was not kept ranks no higher than any kept row. */
  lemma LeftOutRanksLower<T>(r: seq<T>, s: seq<T>, key: T -> real)
    requires forall y, i | y in multiset(s) - multiset(r) && 0 <= i < |r| :: key(y) <= key(r[i])
    ensures forall y, i | y in s && y !in r && 0 <= i < |r| :: key(y) <= key(r[i])
  {
    forall y, i | y in s && y !in r && 0 <= i < |r| ensures key(y) <= key(r[i]) {
      assert y in multiset(s) - multiset(r);
    }
  }

  /**
   * TopBy in terms of plain membership: rows kept come from s, each at most
   * as often as s holds it, and no row left out ranks above one kept.
   */
  lemma TopByFacts<T(!new)>(s: seq<T>, key: T -> real, n: nat)
    ensures forall y | y in TopBy(s, key, n) :: y in s
    ensures multiset(TopBy(s, key, n)) <= multiset(s)
    ensures forall y, i | y in s && y !in TopBy(s, key, n) && 0 <= i < |TopBy(s, key, n)| ::
      key(y) <= key(TopBy(s, key, n)[i])
  {
    var r := TopBy(s, key, n);
    DrawnFrom(r, s);
    LeftOutRanksLower(r, s, key);
  }

  /** `WHERE p ORDER BY key DESC LIMIT n`, stated over the unfiltered table. */
  lemma TopOfFilter<T(!new)>(s: seq<T>, p: T -> bool, key: T -> real, n: nat)
    ensures |TopBy(Filter(s, p), key, n)| == if n <= Count(s, p) then n else Count(s, p)
    ensures forall y | y in TopBy(Filter(s, p), key, n) :: y in s && p(y)
    ensures multiset(TopBy(Filter(s, p), key, n)) <= multiset(Filter(s, p)) <= multiset(s)
    ensures forall y, i | y in s && p(y) && y !in TopBy(Filter(s, p), key, n) && 0 <= i < |TopBy(Filter(s, p), key, n)| ::
      key(y) <= key(TopBy(Filter(s, p), key, n)[i])
  {
    CountIsFilterLength(s, p);
    TopByFacts(Filter(s, p), key, n);
  }
}
