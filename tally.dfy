/**
 * Counting rows into a dictionary keyed by one of their attributes, the way
 * `counts[key] = counts.get(key, 0) + 1` does inside a loop, and the sum of
 * such a dictionary's values.
 */
module Tally {
  import opened Query

  /** The sum of a dictionary's values. */
  ghost function SumValues(m: map<string, int>): int
    decreases |m|
  {
    if m == map[] then 0
    else
      var k :| k in m;
      m[k] + SumValues(m - {k})
  }

  /** Any key can be taken out first. */
  lemma {:induction false} SumRemove(m: map<string, int>, k: string)
    requires k in m
    ensures SumValues(m) == m[k] + SumValues(m - {k})
    decreases |m|
  {
    var j :| j in m && SumValues(m) == m[j] + SumValues(m - {j});
    if j != k {
      var mj := m - {j};
      var mk := m - {k};
      assert |mj| < |m|;
      SumRemove(mj, k);
      assert mj - {k} == mk - {j};
      assert |mk| < |m|;
      SumRemove(mk, j);
    }
  }

  /** Setting one key's value changes the sum by the difference. */
  lemma SumUpdate(m: map<string, int>, k: string, v: int)
    ensures SumValues(m[k := v]) == SumValues(m) - (if k in m then m[k] else 0) + v
  {
    var n := m[k := v];
    SumRemove(n, k);
    assert n - {k} == m - {k};
    if k in m {
      SumRemove(m, k);
    } else {
      assert m - {k} == m;
    }
  }

  /** `counts.get(key, 0) + 1`. */
  function Bump(m: map<string, int>, key: string): (r: map<string, int>)
    ensures r.Keys == m.Keys + {key}
    ensures r[key] == (if key in m then m[key] else 0) + 1
    ensures forall k | k in m && k != key :: r[k] == m[k]
  {
    m[key := if key in m then m[key] + 1 else 1]
  }

  /** The dictionary after counting, in order, every row of `s` that satisfies `p`, under `key`. */
  ghost function TallyOf<T>(s: seq<T>, p: T -> bool, key: T -> string): map<string, int>
  {
    if s == [] then map[]
    else
      var m := TallyOf(s[..|s| - 1], p, key);
      var x := s[|s| - 1];
      if p(x) then Bump(m, key(x)) else m
  }

  /** Counting one more row extends the tally by that row alone. */
  lemma TallyStep<T>(s: seq<T>, i: nat, p: T -> bool, key: T -> string)
    requires i < |s|
    ensures TallyOf(s[..i + 1], p, key) == if p(s[i]) then Bump(TallyOf(s[..i], p, key), key(s[i])) else TallyOf(s[..i], p, key)
  {
    assert s[..i + 1][..i] == s[..i];
  }

  /** The rows counted under key `k`. */
  function CountedAs<T>(p: T -> bool, key: T -> string, k: string): T -> bool {
    x => p(x) && key(x) == k
  }

  /** The values of a tally add up to the number of rows counted. */
  lemma {:induction false} TallySum<T(!new)>(s: seq<T>, p: T -> bool, key: T -> string)
    ensures SumValues(TallyOf(s, p, key)) == Count(s, p)
  {
    if s != [] {
      var front, x := s[..|s| - 1], s[|s| - 1];
      TallySum(front, p, key);
      assert s == front + [x];
      CountAppend(front, [x], p);
      var m := TallyOf(front, p, key);
      if p(x) {
        SumUpdate(m, key(x), if key(x) in m then m[key(x)] + 1 else 1);
      }
    }
  }

  /** A tally holds exactly the keys of counted rows, each with its number of rows. */
  lemma {:induction false} TallyCounts<T(!new)>(s: seq<T>, p: T -> bool, key: T -> string, k: string)
    ensures k in TallyOf(s, p, key) <==> Count(s, CountedAs(p, key, k)) > 0
    ensures k in TallyOf(s, p, key) ==> TallyOf(s, p, key)[k] == Count(s, CountedAs(p, key, k))
  {
    if s != [] {
      var front, x := s[..|s| - 1], s[|s| - 1];
      TallyCounts(front, p, key, k);
      assert s == front + [x];
      CountAppend(front, [x], CountedAs(p, key, k));
    }
  }
}
