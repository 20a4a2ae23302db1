/** Python's insertion-ordered `dict` with string keys, as an association
    list whose keys are distinct. `Put` is `d[k] = v` (an existing key keeps
    its position, a new key goes to the end), `PutAll` is `d.update(items)`,
    and `PutAll([], items)` is a dict comprehension over `items`. */
module PyDict {
  import opened Wrappers

  predicate DistinctKeys<V>(d: seq<(string, V)>) {
    forall i, j :: 0 <= i < j < |d| ==> d[i].0 != d[j].0
  }

  type Dict<V> = d: seq<(string, V)> | DistinctKeys(d) witness []

  function Keys<V>(d: seq<(string, V)>): set<string> {
    set i | 0 <= i < |d| :: d[i].0
  }

  /** `d.get(k)`: the value of the first entry with key `k`. */
  function Get<V>(d: seq<(string, V)>, k: string): (r: Option<V>)
    ensures r.Some? <==> k in Keys(d)
  {
    if |d| == 0 then None
    else if d[0].0 == k then Some(d[0].1)
    else
      assert Keys(d) == {d[0].0} + Keys(d[1..]) by {
        assert forall i :: 0 < i < |d| ==> d[i].0 == d[1..][i - 1].0;
      }
      Get(d[1..], k)
  }

  /** In a dict, the entry at position `i` is what a lookup of its key finds. */
  lemma {:induction false} GetAt<V>(d: Dict<V>, i: nat)
    requires i < |d|
    ensures Get(d, d[i].0) == Some(d[i].1)
  {
    if i > 0 {
      GetAt(d[1..], i - 1);
    }
  }

  /** Position of a key that the dict holds. */
  function Position<V>(d: Dict<V>, k: string): (i: nat)
    requires k in Keys(d)
    ensures i < |d| && d[i].0 == k
  {
    var i :| 0 <= i < |d| && d[i].0 == k;
    i
  }

  /** `d[k] = v`. */
  function Put<V>(d: Dict<V>, k: string, v: V): (r: Dict<V>)
    ensures Keys(r) == Keys(d) + {k}
    ensures Get(r, k) == Some(v)
    ensures forall k' :: k' != k ==> Get(r, k') == Get(d, k')
    ensures k in Keys(d) ==> |r| == |d| && forall i :: 0 <= i < |d| ==> r[i].0 == d[i].0
    ensures k !in Keys(d) ==> r == d + [(k, v)]
  {
    if k in Keys(d) then
      var i := Position(d, k);
      var r: Dict<V> := d[i := (k, v)];
      assert Keys(r) == Keys(d) by {
        assert forall j :: 0 <= j < |d| ==> r[j].0 == d[j].0;
      }
      GetAt(r, i);
      assert forall k' :: k' != k ==> Get(r, k') == Get(d, k') by {
        forall k' | k' != k
          ensures Get(r, k') == Get(d, k')
        {
          if k' in Keys(d) {
            var j := Position(d, k');
            GetAt(d, j);
            GetAt(r, j);
          }
        }
      }
      r
    else
      var r: Dict<V> := d + [(k, v)];
      assert Keys(r) == Keys(d) + {k} by {
        assert forall j :: 0 <= j < |d| ==> r[j].0 == d[j].0;
        assert r[|d|].0 == k;
        forall x | x in Keys(r) ensures x in Keys(d) + {k} {
          var j :| 0 <= j < |r| && r[j].0 == x;
          if j < |d| { assert d[j].0 == x; }
        }
      }
      GetAt(r, |d|);
      assert forall k' :: k' != k ==> Get(r, k') == Get(d, k') by {
        forall k' | k' != k
          ensures Get(r, k') == Get(d, k')
        {
          if k' in Keys(d) {
            var j := Position(d, k');
            GetAt(d, j);
            GetAt(r, j);
          }
        }
      }
      r
  }

  /** `d.update(items)`: the items are put one after another, in order. */
  function PutAll<V>(d: Dict<V>, items: seq<(string, V)>): Dict<V>
    decreases |items|
  {
    if |items| == 0 then d
    else
      var last := items[|items| - 1];
      Put(PutAll(d, items[..|items| - 1]), last.0, last.1)
  }

  /** Reference definition of last-write-wins: the value of the last item
      with key `k`, or None if no item has that key. */
  function LastValue<V>(items: seq<(string, V)>, k: string): Option<V> {
    if |items| == 0 then None
    else if items[|items| - 1].0 == k then Some(items[|items| - 1].1)
    else LastValue(items[..|items| - 1], k)
  }

  /** `LastValue` is the value of an item that no later item shadows. */
  lemma {:induction false} LastValueIsLastItem<V>(items: seq<(string, V)>, k: string)
    ensures LastValue(items, k).None? <==> k !in Keys(items)
    ensures LastValue(items, k).Some? ==>
              exists i :: 0 <= i < |items| && items[i] == (k, LastValue(items, k).value) &&
                          forall j :: i < j < |items| ==> items[j].0 != k
  {
    if |items| > 0 {
      var n := |items| - 1;
      assert Keys(items) == Keys(items[..n]) + {items[n].0} by {
        assert forall i :: 0 <= i < n ==> items[..n][i] == items[i];
      }
      if items[n].0 != k {
        LastValueIsLastItem(items[..n], k);
        if LastValue(items, k).Some? {
          var i :| 0 <= i < n && items[..n][i] == (k, LastValue(items, k).value) &&
                   forall j :: i < j < n ==> items[..n][j].0 != k;
          assert items[i] == (k, LastValue(items, k).value);
        }
      } else {
        assert items[n] == (k, LastValue(items, k).value);
      }
    }
  }

  /** After `d.update(items)`, a key holds the value of its last item, or
      its old value if no item names it. */
  lemma {:induction false} PutAllLastWins<V>(d: Dict<V>, items: seq<(string, V)>, k: string)
    ensures Get(PutAll(d, items), k) == if LastValue(items, k).Some? then LastValue(items, k) else Get(d, k)
    decreases |items|
  {
    if |items| > 0 {
      var n := |items| - 1;
      var last := items[n];
      PutAllLastWins(d, items[..n], k);
      var prev := PutAll(d, items[..n]);
      assert PutAll(d, items) == Put(prev, last.0, last.1);
      if last.0 == k {
        assert Get(Put(prev, last.0, last.1), k) == Some(last.1);
      } else {
        assert Get(Put(prev, last.0, last.1), k) == Get(prev, k);
      }
    }
  }

  lemma KeysOfPrefix<V>(items: seq<(string, V)>)
    requires |items| > 0
    ensures Keys(items) == Keys(items[..|items| - 1]) + {items[|items| - 1].0}
  {
    var n := |items| - 1;
    forall x | x in Keys(items) ensures x in Keys(items[..n]) + {items[n].0} {
      var i :| 0 <= i < |items| && items[i].0 == x;
      if i < n { assert items[..n][i].0 == x; }
    }
    forall x | x in Keys(items[..n]) ensures x in Keys(items) {
      var i :| 0 <= i < n && items[..n][i].0 == x;
      assert items[i].0 == x;
    }
  }

  /** `d.update(items)` adds exactly the items' keys to the key set. */
  lemma {:induction false} PutAllKeys<V>(d: Dict<V>, items: seq<(string, V)>)
    ensures Keys(PutAll(d, items)) == Keys(d) + Keys(items)
    decreases |items|
  {
    if |items| > 0 {
      var n := |items| - 1;
      PutAllKeys(d, items[..n]);
      var prev := PutAll(d, items[..n]);
      assert PutAll(d, items) == Put(prev, items[n].0, items[n].1);
      KeysOfPrefix(items);
    }
  }

  /** A dict built from items that already had distinct keys holds each item. */
  lemma PutAllDistinct<V>(items: Dict<V>, i: nat)
    requires i < |items|
    ensures Get(PutAll([], items), items[i].0) == Some(items[i].1)
  {
    var k := items[i].0;
    PutAllLastWins([], items, k);
    LastValueIsLastItem(items, k);
    var j :| 0 <= j < |items| && items[j] == (k, LastValue(items, k).value) &&
             forall j' :: j < j' < |items| ==> items[j'].0 != k;
    assert j == i;
  }

  /** A dict comprehension over items whose keys are already distinct
      keeps them all, in order. */
  lemma {:induction false} PutAllFresh<V>(items: Dict<V>)
    ensures PutAll([], items) == items
  {
    if |items| > 0 {
      var n := |items| - 1;
      var prefix: Dict<V> := items[..n];
      PutAllFresh(prefix);
      assert items[n].0 !in Keys(prefix);
      assert prefix + [items[n]] == items;
    }
  }

  /** The dict as a plain map, for callers that do not depend on order. */
  function AsMap<V>(d: seq<(string, V)>): (m: map<string, V>)
    ensures m.Keys == Keys(d)
    ensures forall k :: k in m ==> Get(d, k) == Some(m[k])
  {
    map k | k in Keys(d) :: Get(d, k).value
  }
}
