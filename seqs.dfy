/**
 * Sequence operations the database queries are built from: filtering (SQL
 * `WHERE`), ordering by a key, newest first (`ORDER BY ... DESC`), and
 * `OFFSET`/`LIMIT` windows.
 */
module Seqs {

  /** The elements of `s` that satisfy `keep`, in their original order. */
  function Filter<T(!new)>(s: seq<T>, keep: T -> bool): (r: seq<T>)
    ensures |r| <= |s|
    ensures forall i :: 0 <= i < |r| ==> keep(r[i])
    ensures forall x :: x in r <==> x in s && keep(x)
    ensures forall x :: multiset(r)[x] == if keep(x) then multiset(s)[x] else 0
  {
    if s == [] then []
    else
      assert s == [s[0]] + s[1..];
      if keep(s[0]) then [s[0]] + Filter(s[1..], keep) else Filter(s[1..], keep)
  }

  /** Two predicates that never hold together select at most |s| elements between them. */
  lemma {:induction false} FilterDisjointCounts<T(!new)>(s: seq<T>, p: T -> bool, q: T -> bool)
    requires forall x :: !(p(x) && q(x))
    ensures |Filter(s, p)| + |Filter(s, q)| <= |s|
  {
    if s != [] {
      FilterDisjointCounts(s[1..], p, q);
    }
  }

  /** Filtering a filtered sequence by a weaker predicate changes nothing. */
  lemma {:induction false} FilterIdempotent<T(!new)>(s: seq<T>, keep: T -> bool)
    requires forall i :: 0 <= i < |s| ==> keep(s[i])
    ensures Filter(s, keep) == s
  {
    if s != [] {
      FilterIdempotent(s[1..], keep);
    }
  }

  /** `s` is ordered by `key`, largest first. */
  predicate SortedDesc<T>(s: seq<T>, key: T -> int)
  {
    forall i, j :: 0 <= i < j < |s| ==> key(s[i]) >= key(s[j])
  }

  /**
   * Inserts `x` into a sequence sorted largest first, in front of every
   * element whose key is not larger than its own.
   */
  function InsertDesc<T>(x: T, s: seq<T>, key: T -> int): (r: seq<T>)
    requires SortedDesc(s, key)
    ensures |r| == |s| + 1
    ensures r[0] == x || (s != [] && r[0] == s[0])
    ensures SortedDesc(r, key)
    ensures multiset(r) == multiset(s) + multiset{x}
  {
    if s == [] || key(x) >= key(s[0]) then
      [x] + s
    else
      var rest := InsertDesc(x, s[1..], key);
      assert s == [s[0]] + s[1..];
      assert key(s[0]) >= key(rest[0]);
      [s[0]] + rest
  }

  /**
   * `s` ordered by `key`, largest first. Elements with equal keys keep their
   * relative order, which stands for the database's (unspecified) tie order.
   */
  function SortDesc<T>(s: seq<T>, key: T -> int): (r: seq<T>)
    ensures |r| == |s|
    ensures SortedDesc(r, key)
    ensures multiset(r) == multiset(s)
  {
    if s == [] then []
    else
      assert s == [s[0]] + s[1..];
      InsertDesc(s[0], SortDesc(s[1..], key), key)
  }

  /**
   * The window of `s` that `OFFSET skip LIMIT limit` selects: the elements
   * from position `skip` on, at most `limit` of them.
   */
  function Page<T>(s: seq<T>, skip: nat, limit: nat): (r: seq<T>)
    ensures |r| <= limit
    ensures |r| == if skip >= |s| then 0 else if |s| - skip <= limit then |s| - skip else limit
    ensures forall i :: 0 <= i < |r| ==> r[i] == s[skip + i]
  {
    if skip >= |s| then []
    else if |s| - skip <= limit then s[skip..]
    else s[skip..skip + limit]
  }

  /** A window of a sorted sequence is sorted, and holds only elements of the sequence. */
  lemma PageOfSorted<T>(s: seq<T>, skip: nat, limit: nat, key: T -> int)
    requires SortedDesc(s, key)
    ensures SortedDesc(Page(s, skip, limit), key)
    ensures multiset(Page(s, skip, limit)) <= multiset(s)
  {
    var r := Page(s, skip, limit);
    if skip < |s| {
      var hi := skip + |r|;
      assert r == s[skip..hi];
      assert s == s[..skip] + s[skip..hi] + s[hi..];
    }
  }

  /** The window starting at 0 that is at least as long as `s` is `s` itself. */
  lemma PageAll<T>(s: seq<T>, limit: nat)
    requires |s| <= limit
    ensures Page(s, 0, limit) == s
  {
  }

  /** A key value larger than the key of every element of `s`. */
  function NextId<T>(s: seq<T>, key: T -> int): (r: int)
    ensures r >= 1
    ensures forall i :: 0 <= i < |s| ==> key(s[i]) < r
  {
    if s == [] then 1
    else
      var rest := NextId(s[1..], key);
      assert forall i :: 1 <= i < |s| ==> key(s[i]) < rest by {
        forall i | 1 <= i < |s| ensures key(s[i]) < rest {
          assert s[i] == s[1..][i - 1];
        }
      }
      if key(s[0]) < rest then rest else key(s[0]) + 1
  }
}
