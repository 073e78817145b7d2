/** Identifiers, Option, and the generic operations on a database table held
    as a sequence of rows in storage order. */
module Tables {

  /** A value that may be absent: a nullable column, an anonymous requester. */
  datatype Option<+T> = None | Some(value: T) {
    /** The value, or `default` when absent. */
    function GetOr(default: T): T {
      if Some? then value else default
    }
  }

  /** Primary keys. Every table hands out natural-number keys. */
  type UserId = nat
  type GroupId = nat
  type PostId = nat

  /** The rows of `s`, in their original order, whose `key` is not in `ks`:
      what a `DELETE ... WHERE key IN ks` leaves behind. */
  function Drop<T(==,!new)>(s: seq<T>, key: T -> nat, ks: set<nat>): (r: seq<T>)
    ensures |r| <= |s|
    ensures forall x :: x in r <==> x in s && key(x) !in ks
  {
    if s == [] then []
    else if key(s[0]) in ks then Drop(s[1..], key, ks)
    else [s[0]] + Drop(s[1..], key, ks)
  }

  /** The rows of `s`, in their original order, whose `key` is `k`:
      a `SELECT ... WHERE key = k`. */
  function Select<T(==,!new)>(s: seq<T>, key: T -> nat, k: nat): (r: seq<T>)
    ensures |r| <= |s|
    ensures forall x :: x in r <==> x in s && key(x) == k
  {
    if s == [] then []
    else if key(s[0]) == k then [s[0]] + Select(s[1..], key, k)
    else Select(s[1..], key, k)
  }

  /** The first row of `s` whose `key` is `k`: a lookup by primary key. */
  function Find<T(==,!new)>(s: seq<T>, key: T -> nat, k: nat): (r: Option<T>)
    ensures r.Some? ==> r.value in s && key(r.value) == k
    ensures r.None? <==> k !in Keys(s, key)
  {
    if s == [] then None
    else if key(s[0]) == k then Some(s[0])
    else Find(s[1..], key, k)
  }

  /** The set of values `key` takes on the rows of `s` (a column's contents). */
  function Keys<T(==,!new)>(s: seq<T>, key: T -> nat): set<nat> {
    set x | x in s :: key(x)
  }

  /** Every earlier row stands in relation `rel` to every later row. Unique
      columns and the ordering of a table are both stated this way. */
  predicate Pairwise<T>(s: seq<T>, rel: (T, T) -> bool) {
    forall i, j :: 0 <= i < j < |s| ==> rel(s[i], s[j])
  }

  /** Deleting rows keeps every pairwise constraint of the remaining rows:
      uniqueness and ordering survive any delete. */
  lemma {:induction false} DropPairwise<T(!new)>(s: seq<T>, key: T -> nat, ks: set<nat>, rel: (T, T) -> bool)
    requires Pairwise(s, rel)
    ensures Pairwise(Drop(s, key, ks), rel)
  {
    if s != [] {
      var t := s[1..];
      forall i, j | 0 <= i < j < |t| ensures rel(t[i], t[j]) {
        assert t[i] == s[i + 1] && t[j] == s[j + 1];
      }
      DropPairwise(t, key, ks, rel);
      var d := Drop(t, key, ks);
      if key(s[0]) !in ks {
        var r := [s[0]] + d;
        assert r == Drop(s, key, ks);
        forall i, j | 0 <= i < j < |r| ensures rel(r[i], r[j]) {
          assert r[j] == d[j - 1];
          if i == 0 {
            assert d[j - 1] in t;
            var k :| 0 <= k < |t| && t[k] == d[j - 1];
            assert s[k + 1] == t[k];
          } else {
            assert r[i] == d[i - 1];
          }
        }
      }
    }
  }

  /** Appending a row that stands in relation to every existing row keeps the
      pairwise constraint: the shape of every checked insert. */
  lemma AppendPairwise<T>(s: seq<T>, x: T, rel: (T, T) -> bool)
    requires Pairwise(s, rel)
    requires forall y :: y in s ==> rel(y, x)
    ensures Pairwise(s + [x], rel)
  {
    var r := s + [x];
    forall i, j | 0 <= i < j < |r| ensures rel(r[i], r[j]) {
      assert r[i] == s[i];
      if j == |s| { assert s[i] in s; } else { assert r[j] == s[j]; }
    }
  }
}
