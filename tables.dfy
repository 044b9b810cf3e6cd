/**
 * A table of the store is a map from primary key to row. A query without
 * ORDER BY (`ToList`, `GetAllAsync`) lists the rows; the order a database
 * returns them in is not fixed by the code, so the model lists them by
 * ascending key.
 */
module Tables {

  /** `k` is the least element of `s`. */
  predicate IsLeast(k: int, s: set<int>)
  {
    k in s && forall j :: j in s ==> k <= j
  }

  /** Every finite non-empty set of keys has a least element. */
  lemma {:induction false} HasLeast(s: set<int>)
    requires s != {}
    ensures exists k :: IsLeast(k, s)
  {
    assert exists x :: x in s by {
      if forall x :: x !in s { assert false; }
    }
    var x :| x in s;
    if IsLeast(x, s) {
      assert IsLeast(x, s);
    } else {
      var y :| y in s && y < x;
      var rest := s - {x};
      assert y in rest;
      HasLeast(rest);
      var k :| IsLeast(k, rest);
      forall j | j in s
        ensures k <= j
      {
        if j != x { assert j in rest; }
      }
      assert IsLeast(k, s);
    }
  }

  function Least(s: set<int>): (k: int)
    requires s != {}
    ensures k in s
    ensures forall j :: j in s ==> k <= j
  {
    HasLeast(s);
    var k :| IsLeast(k, s);
    k
  }

  /** The keys of a table, each once, in strictly ascending order. */
  function SortedKeys(s: set<int>): (r: seq<int>)
    ensures |r| == |s|
    ensures forall k :: k in r <==> k in s
    ensures forall i, j :: 0 <= i < j < |r| ==> r[i] < r[j]
    decreases |s|
  {
    if s == {} then []
    else
      var k := Least(s);
      [k] + SortedKeys(s - {k})
  }

  /** The rows of a table as a list, one per key, in ascending key order. */
  function Listing<V>(m: map<int, V>): (r: seq<V>)
    ensures |r| == |m|
    ensures forall i :: 0 <= i < |r| ==> SortedKeys(m.Keys)[i] in m && r[i] == m[SortedKeys(m.Keys)[i]]
  {
    var ks := SortedKeys(m.Keys);
    assert forall i :: 0 <= i < |ks| ==> ks[i] in m;
    seq(|ks|, i requires 0 <= i < |ks| => m[ks[i]])
  }

  /** Every stored row is in the listing of its table. */
  lemma {:induction false} StoredRowIsListed<V>(m: map<int, V>, k: int)
    requires k in m
    ensures m[k] in Listing(m)
  {
    var ks := SortedKeys(m.Keys);
    var i :| 0 <= i < |ks| && ks[i] == k;
    assert Listing(m)[i] == m[k];
  }
}
