/**
 * The two database operations the handlers rely on, over a collection held as a
 * sequence in natural (insertion) order: `find(filter)` keeps the documents a
 * filter accepts, in order, and `.sort({ key: -1 })` orders them by a key,
 * largest first.
 */
module Query {

  /** `find(filter)`: the documents accepted by `p`, in collection order. */
  function Filter<T>(s: seq<T>, p: T -> bool): (r: seq<T>)
    ensures |r| <= |s|
    ensures forall i :: 0 <= i < |r| ==> r[i] in s && p(r[i])
    ensures forall i :: 0 <= i < |s| && p(s[i]) ==> s[i] in r
    decreases |s|
  {
    if s == [] then []
    else Filter(s[..|s| - 1], p) + (if p(s[|s| - 1]) then [s[|s| - 1]] else [])
  }

  /**
   * `find` distributes over concatenation: filtering two runs of documents
   * is filtering each, in order. With `Filter([x], p)` being `[x]` or `[]`,
   * this says the result is the accepted documents in collection order, each
   * as often as it occurs.
   */
  lemma {:induction false} FilterAppend<T>(s: seq<T>, t: seq<T>, p: T -> bool)
    ensures Filter(s + t, p) == Filter(s, p) + Filter(t, p)
    decreases |t|
  {
    if t == [] {
      assert s + t == s;
    } else {
      var n := |t| - 1;
      var last: seq<T> := if p(t[n]) then [t[n]] else [];
      assert (s + t)[..|s + t| - 1] == s + t[..n];
      assert (s + t)[|s + t| - 1] == t[n];
      FilterAppend(s, t[..n], p);
      AppendAssoc(Filter(s, p), Filter(t[..n], p), last);
    }
  }

  ghost predicate SortedDesc<T>(s: seq<T>, key: T -> int) {
    forall i, j :: 0 <= i < j < |s| ==> key(s[i]) >= key(s[j])
  }

  /** No two entries share a value of `proj`. */
  ghost predicate DistinctBy<T, U>(s: seq<T>, proj: T -> U) {
    forall i, j :: 0 <= i < j < |s| ==> proj(s[i]) != proj(s[j])
  }

  lemma SortedTail<T>(s: seq<T>, key: T -> int)
    requires s != [] && SortedDesc(s, key)
    ensures SortedDesc(s[1..], key)
  {
    forall i, j | 0 <= i < j < |s[1..]| ensures key(s[1..][i]) >= key(s[1..][j]) {
      assert s[1..][i] == s[i + 1] && s[1..][j] == s[j + 1];
    }
  }

  /** A head no smaller than anything drawn from the tail or `x` keeps the sequence sorted. */
  lemma SortedCons<T>(h: T, tail: seq<T>, x: T, rest: seq<T>, key: T -> int)
    requires key(x) <= key(h)
    requires forall i :: 0 <= i < |tail| ==> key(tail[i]) <= key(h)
    requires SortedDesc(rest, key)
    requires forall j :: 0 <= j < |rest| ==> rest[j] == x || rest[j] in tail
    ensures SortedDesc([h] + rest, key)
  {
    var r := [h] + rest;
    forall i, j | 0 <= i < j < |r| ensures key(r[i]) >= key(r[j]) {
      assert r[j] == rest[j - 1];
      if i == 0 {
        if rest[j - 1] != x {
          var k :| 0 <= k < |tail| && tail[k] == rest[j - 1];
        }
      } else {
        assert r[i] == rest[i - 1];
      }
    }
  }

  /** The step of `InsertDesc` that keeps the head in front. */
  lemma InsertStep<T>(x: T, s: seq<T>, rest: seq<T>, key: T -> int)
    requires s != [] && SortedDesc(s, key) && key(x) < key(s[0])
    requires SortedDesc(rest, key)
    requires forall j :: 0 <= j < |rest| ==> rest[j] == x || rest[j] in s[1..]
    requires multiset(rest) == multiset(s[1..]) + multiset{x}
    ensures SortedDesc([s[0]] + rest, key)
    ensures forall i :: 0 <= i < |[s[0]] + rest| ==> ([s[0]] + rest)[i] == x || ([s[0]] + rest)[i] in s
    ensures multiset([s[0]] + rest) == multiset(s) + multiset{x}
  {
    forall i | 0 <= i < |s[1..]| ensures key(s[1..][i]) <= key(s[0]) {
      assert s[1..][i] == s[i + 1];
    }
    SortedCons(s[0], s[1..], x, rest, key);
    var r := [s[0]] + rest;
    forall i | 0 <= i < |r| ensures r[i] == x || r[i] in s {
      if i > 0 && r[i] != x {
        assert r[i] == rest[i - 1];
        var k :| 0 <= k < |s[1..]| && s[1..][k] == r[i];
        assert s[k + 1] == r[i];
      }
    }
    assert s == [s[0]] + s[1..];
  }

  /** Inserts `x` into a sequence sorted largest-key-first, before the entries with an equal key. */
  function InsertDesc<T>(x: T, s: seq<T>, key: T -> int): (r: seq<T>)
    requires SortedDesc(s, key)
    ensures SortedDesc(r, key)
    ensures |r| == |s| + 1
    ensures forall i :: 0 <= i < |r| ==> r[i] == x || r[i] in s
    ensures multiset(r) == multiset(s) + multiset{x}
    decreases |s|
  {
    if s == [] then [x]
    else if key(x) >= key(s[0]) then [x] + s
    else
      SortedTail(s, key);
      var rest := InsertDesc(x, s[1..], key);
      InsertStep(x, s, rest, key);
      [s[0]] + rest
  }

  /** `.sort({ key: -1 })`: the same documents, largest key first. */
  function SortDesc<T>(s: seq<T>, key: T -> int): (r: seq<T>)
    ensures SortedDesc(r, key)
    ensures |r| == |s|
    ensures forall i :: 0 <= i < |r| ==> r[i] in s
    ensures multiset(r) == multiset(s)
    decreases |s|
  {
    if s == [] then []
    else
      var rest := SortDesc(s[1..], key);
      InTail(s, rest);
      assert s == [s[0]] + s[1..];
      InsertDesc(s[0], rest, key)
  }

  lemma InTail<T>(s: seq<T>, rest: seq<T>)
    requires s != []
    requires forall i :: 0 <= i < |rest| ==> rest[i] in s[1..]
    ensures forall i :: 0 <= i < |rest| ==> rest[i] in s
  {
    forall i | 0 <= i < |rest| ensures rest[i] in s {
      var k :| 0 <= k < |s[1..]| && s[1..][k] == rest[i];
      assert s[k + 1] == rest[i];
    }
  }

  lemma DistinctCons<T, U>(h: T, rest: seq<T>, proj: T -> U)
    requires DistinctBy(rest, proj)
    requires forall j :: 0 <= j < |rest| ==> proj(rest[j]) != proj(h)
    ensures DistinctBy([h] + rest, proj)
  {
    var r := [h] + rest;
    forall i, j | 0 <= i < j < |r| ensures proj(r[i]) != proj(r[j]) {
      assert r[j] == rest[j - 1];
      if i > 0 {
        assert r[i] == rest[i - 1];
      }
    }
  }

  lemma DistinctByTail<T, U>(s: seq<T>, proj: T -> U)
    requires s != [] && DistinctBy(s, proj)
    ensures DistinctBy(s[1..], proj)
    ensures forall i :: 0 <= i < |s[1..]| ==> proj(s[1..][i]) != proj(s[0])
  {
    forall i, j | 0 <= i < j < |s[1..]| ensures proj(s[1..][i]) != proj(s[1..][j]) {
      assert s[1..][i] == s[i + 1] && s[1..][j] == s[j + 1];
    }
    forall i | 0 <= i < |s[1..]| ensures proj(s[1..][i]) != proj(s[0]) {
      assert s[1..][i] == s[i + 1];
    }
  }

  lemma {:induction false} InsertKeepsDistinct<T, U>(x: T, s: seq<T>, key: T -> int, proj: T -> U)
    requires SortedDesc(s, key)
    requires DistinctBy(s, proj)
    requires forall i :: 0 <= i < |s| ==> proj(s[i]) != proj(x)
    ensures DistinctBy(InsertDesc(x, s, key), proj)
    decreases |s|
  {
    if s == [] {
    } else if key(x) >= key(s[0]) {
      DistinctCons(x, s, proj);
    } else {
      var rest := InsertDesc(x, s[1..], key);
      DistinctByTail(s, proj);
      InsertKeepsDistinct(x, s[1..], key, proj);
      forall j | 0 <= j < |rest| ensures proj(rest[j]) != proj(s[0]) {
        if rest[j] != x {
          var k :| 0 <= k < |s[1..]| && s[1..][k] == rest[j];
        }
      }
      DistinctCons(s[0], rest, proj);
    }
  }

  /** Sorting keeps entries distinct by `proj`. */
  lemma {:induction false} SortKeepsDistinct<T, U>(s: seq<T>, key: T -> int, proj: T -> U)
    requires DistinctBy(s, proj)
    ensures DistinctBy(SortDesc(s, key), proj)
    decreases |s|
  {
    if s != [] {
      var rest := SortDesc(s[1..], key);
      DistinctByTail(s, proj);
      SortKeepsDistinct(s[1..], key, proj);
      forall i | 0 <= i < |rest| ensures proj(rest[i]) != proj(s[0]) {
        var k :| 0 <= k < |s[1..]| && s[1..][k] == rest[i];
      }
      InsertKeepsDistinct(s[0], rest, key, proj);
    }
  }

  /** `find` keeps a single document exactly when the filter accepts it. */
  lemma FilterSingle<T>(x: T, p: T -> bool)
    ensures Filter([x], p) == if p(x) then [x] else []
  {
    var e: seq<T> := [];
    assert [x][..0] == e;
    assert Filter(e, p) == [];
    assert Filter([x], p) == Filter(e, p) + (if p(x) then [x] else []);
  }

  lemma AppendAssoc<T>(a: seq<T>, b: seq<T>, c: seq<T>)
    ensures (a + b) + c == a + (b + c)
  {
  }

  /** Entries with equal keys appear in increasing `rank`. */
  ghost predicate TiesByRank<T>(s: seq<T>, key: T -> int, rank: T -> int) {
    forall i, j :: 0 <= i < j < |s| && key(s[i]) == key(s[j]) ==> rank(s[i]) < rank(s[j])
  }

  /** `rank` strictly increases along `s`. */
  ghost predicate RankIncreasing<T>(s: seq<T>, rank: T -> int) {
    forall i, j :: 0 <= i < j < |s| ==> rank(s[i]) < rank(s[j])
  }

  lemma TiesTail<T>(s: seq<T>, key: T -> int, rank: T -> int)
    requires s != [] && TiesByRank(s, key, rank)
    ensures TiesByRank(s[1..], key, rank)
  {
    forall i, j | 0 <= i < j < |s[1..]| && key(s[1..][i]) == key(s[1..][j]) ensures rank(s[1..][i]) < rank(s[1..][j]) {
      assert s[1..][i] == s[i + 1] && s[1..][j] == s[j + 1];
    }
  }

  /** Inserting `x`, ranked below everything in `s`, keeps equal keys in rank order. */
  lemma {:induction false} InsertDescTies<T>(x: T, s: seq<T>, key: T -> int, rank: T -> int)
    requires SortedDesc(s, key) && TiesByRank(s, key, rank)
    requires forall i :: 0 <= i < |s| ==> rank(x) < rank(s[i])
    ensures TiesByRank(InsertDesc(x, s, key), key, rank)
    decreases |s|
  {
    if s == [] {
    } else if key(x) >= key(s[0]) {
      TiesFront(x, s, key, rank);
    } else {
      var t := s[1..];
      SortedTail(s, key);
      TiesTail(s, key, rank);
      forall i | 0 <= i < |t| ensures rank(x) < rank(t[i]) {
        assert t[i] == s[i + 1];
      }
      InsertDescTies(x, t, key, rank);
      assert s == [s[0]] + t;
      TiesBehindHead(s[0], t, x, InsertDesc(x, t, key), key, rank);
    }
  }

  /** A front entry ranked below the rest keeps equal keys in rank order. */
  lemma TiesFront<T>(x: T, s: seq<T>, key: T -> int, rank: T -> int)
    requires TiesByRank(s, key, rank)
    requires forall i :: 0 <= i < |s| ==> rank(x) < rank(s[i])
    ensures TiesByRank([x] + s, key, rank)
  {
    var r := [x] + s;
    forall i, j | 0 <= i < j < |r| && key(r[i]) == key(r[j]) ensures rank(r[i]) < rank(r[j]) {
      assert r[j] == s[j - 1];
      if i > 0 {
        assert r[i] == s[i - 1];
      }
    }
  }

  /** The head kept in front of `rest`, drawn from `t` and an `x` of smaller key. */
  lemma TiesBehindHead<T>(h: T, t: seq<T>, x: T, rest: seq<T>, key: T -> int, rank: T -> int)
    requires TiesByRank([h] + t, key, rank) && TiesByRank(rest, key, rank)
    requires key(x) < key(h)
    requires forall j :: 0 <= j < |rest| ==> rest[j] == x || rest[j] in t
    ensures TiesByRank([h] + rest, key, rank)
  {
    var r := [h] + rest;
    forall i, j | 0 <= i < j < |r| && key(r[i]) == key(r[j]) ensures rank(r[i]) < rank(r[j]) {
      assert r[j] == rest[j - 1];
      if i > 0 {
        assert r[i] == rest[i - 1];
      } else if rest[j - 1] != x {
        var k :| 0 <= k < |t| && t[k] == rest[j - 1];
        assert ([h] + t)[0] == h && ([h] + t)[k + 1] == t[k];
      }
    }
  }

  /**
   * `SortDesc` is stable: entries with equal keys keep their input order,
   * expressed through a `rank` that increases along the input.
   */
  lemma {:induction false} SortDescTies<T>(s: seq<T>, key: T -> int, rank: T -> int)
    requires RankIncreasing(s, rank)
    ensures TiesByRank(SortDesc(s, key), key, rank)
    decreases |s|
  {
    if s != [] {
      var t := s[1..];
      forall i, j | 0 <= i < j < |t| ensures rank(t[i]) < rank(t[j]) {
        assert t[i] == s[i + 1] && t[j] == s[j + 1];
      }
      SortDescTies(t, key, rank);
      var rest := SortDesc(t, key);
      forall i | 0 <= i < |rest| ensures rank(s[0]) < rank(rest[i]) {
        var k :| 0 <= k < |t| && t[k] == rest[i];
        assert t[k] == s[k + 1];
      }
      InsertDescTies(s[0], rest, key, rank);
    }
  }
}
