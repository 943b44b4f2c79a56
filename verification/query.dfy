/**
 * The store's `findMany({ where, orderBy })`: the ids of the rows of one table that satisfy a
 * filter, each exactly once, in ascending order of a sort key (a descending order is asked for
 * with a negated key).  Rows with equal keys come in no particular order.
 */
module Query {
  predicate Distinct<T(==)>(s: seq<T>)
  {
    forall i, j :: 0 <= i < j < |s| ==> s[i] != s[j]
  }

  /** The rows named by `ks` are in ascending order of `key`. */
  ghost predicate OrderedBy<K, R>(ks: seq<K>, table: map<K, R>, key: R -> int)
  {
    forall i, j :: 0 <= i < j < |ks| && ks[i] in table && ks[j] in table ==>
      key(table[ks[i]]) <= key(table[ks[j]])
  }

  /** Inserts `k` after every row whose key is not greater than its own. */
  function InsertBy<K(==,!new), R>(k: K, ks: seq<K>, table: map<K, R>, key: R -> int): (r: seq<K>)
    requires k in table && forall x :: x in ks ==> x in table
    ensures |r| == |ks| + 1
    ensures forall x :: x in r <==> x == k || x in ks
    ensures OrderedBy(ks, table, key) ==> OrderedBy(r, table, key)
    ensures Distinct(ks) && k !in ks ==> Distinct(r)
  {
    if ks == [] then [k]
    else if key(table[k]) < key(table[ks[0]]) then [k] + ks
    else
      HeadIsLeast(ks, table, key);
      assert Distinct(ks) ==> ks[0] !in ks[1..];
      [ks[0]] + InsertBy(k, ks[1..], table, key)
  }

  /** In an ordered list the first row has the least key. */
  lemma HeadIsLeast<K(!new), R>(ks: seq<K>, table: map<K, R>, key: R -> int)
    requires ks != [] && forall x :: x in ks ==> x in table
    ensures OrderedBy(ks, table, key) ==> forall x :: x in ks ==> key(table[ks[0]]) <= key(table[x])
  {
    if OrderedBy(ks, table, key) {
      forall x | x in ks ensures key(table[ks[0]]) <= key(table[x]) {
        var j :| 0 <= j < |ks| && ks[j] == x;
        if j > 0 { assert key(table[ks[0]]) <= key(table[ks[j]]); }
      }
    }
  }

  /** `findMany` with a `where` filter and an `orderBy` on one key. */
  method SelectOrdered<K(==,!new), R>(table: map<K, R>, where: (K, R) -> bool, key: R -> int) returns (ks: seq<K>)
    ensures Distinct(ks)
    ensures forall k :: k in ks <==> k in table && where(k, table[k])
    ensures OrderedBy(ks, table, key)
  {
    ks := [];
    var rest := table.Keys;
    while rest != {}
      invariant rest <= table.Keys
      invariant Distinct(ks)
      invariant forall k :: k in ks <==> k in table && k !in rest && where(k, table[k])
      invariant OrderedBy(ks, table, key)
      decreases rest
    {
      var k :| k in rest;
      if where(k, table[k]) {
        ks := InsertBy(k, ks, table, key);
      }
      rest := rest - {k};
    }
  }

  /** `findMany` with a `where` filter and no `orderBy`: the order is the store's and is not modelled. */
  method Select<K(==,!new), R>(table: map<K, R>, where: (K, R) -> bool) returns (ks: seq<K>)
    ensures Distinct(ks)
    ensures forall k :: k in ks <==> k in table && where(k, table[k])
  {
    ks := SelectOrdered(table, where, _ => 0);
  }
}
