/** The secondary index of the busy cache (keys by connection), and its least-recently-used order. */
module KeyIndex {
  import opened BusyIntervals

  /** A connection as the cache names it: the ref, and the calendars asked for, sorted. */
  datatype Conn = Conn(ref: string, calendars: seq<string>)

  datatype Key = Key(conn: Conn, span: Span)

  type Index = map<Conn, seq<Key>>

  ghost predicate Distinct<T(!new)>(s: seq<T>) {
    forall i, j :: 0 <= i < j < |s| ==> s[i] != s[j]
  }

  function Without(s: seq<Key>, x: Key): (r: seq<Key>)
    ensures forall y :: y in r <==> y in s && y != x
    ensures x !in s ==> r == s
    ensures |r| <= |s|
  {
    if s == [] then [] else if s[0] == x then Without(s[1..], x) else [s[0]] + Without(s[1..], x)
  }

  lemma {:induction false} WithoutKeepsDistinct(s: seq<Key>, x: Key)
    requires Distinct(s)
    ensures Distinct(Without(s, x))
    ensures x in s ==> |Without(s, x)| == |s| - 1
  {
    if s != [] {
      WithoutKeepsDistinct(s[1..], x);
      assert s[0] !in s[1..];
    }
  }

  /** The keys, filed under their connections: every key, nothing else, no empty set. */
  ghost predicate Inverse(index: Index, keys: set<Key>) {
    && (forall c :: c in index ==> index[c] != [] && Distinct(index[c]))
    && (forall c, k :: c in index && k in index[c] ==> k.conn == c && k in keys)
    && (forall k :: k in keys ==> k.conn in index && k in index[k.conn])
  }

  function KeysOf(index: Index, c: Conn): seq<Key> {
    if c in index then index[c] else []
  }

  function Added(index: Index, k: Key): Index {
    if k in KeysOf(index, k.conn) then index else index[k.conn := KeysOf(index, k.conn) + [k]]
  }

  function Removed(index: Index, k: Key): Index {
    var rest := Without(KeysOf(index, k.conn), k);
    if rest == [] then index - {k.conn} else index[k.conn := rest]
  }

  lemma AddedIsInverse(index: Index, keys: set<Key>, k: Key)
    requires Inverse(index, keys)
    ensures Inverse(Added(index, k), keys + {k})
  {
  }

  lemma RemovedIsInverse(index: Index, keys: set<Key>, k: Key)
    requires Inverse(index, keys)
    ensures Inverse(Removed(index, k), keys - {k})
  {
    if k.conn in index {
      WithoutKeepsDistinct(index[k.conn], k);
    }
  }

  /** Exactly the keys of a connection are filed under it. */
  lemma FiledUnder(index: Index, keys: set<Key>, c: Conn)
    requires Inverse(index, keys)
    ensures forall k :: k in KeysOf(index, c) <==> k in keys && k.conn == c
    ensures Distinct(KeysOf(index, c))
  {
  }

  // -------------------------------------------------- least recently used

  /** Each key was used later than those before it, and all before `tick`. */
  ghost predicate Rising(order: seq<Key>, usedAt: map<Key, nat>, tick: nat) {
    order == [] ||
    (&& order[0] in usedAt && usedAt[order[0]] < tick
     && (forall k :: k in order[1..] ==> k in usedAt && usedAt[order[0]] < usedAt[k])
     && Rising(order[1..], usedAt, tick))
  }

  /** `order` lists exactly `keys`, least recently used first. */
  ghost predicate ByUse(order: seq<Key>, keys: set<Key>, usedAt: map<Key, nat>, tick: nat) {
    (forall k :: k in order <==> k in keys) && Rising(order, usedAt, tick)
  }

  lemma {:induction false} WithoutKeepsRising(order: seq<Key>, usedAt: map<Key, nat>, tick: nat, x: Key)
    requires Rising(order, usedAt, tick)
    ensures Rising(Without(order, x), usedAt, tick)
  {
    if order != [] {
      WithoutKeepsRising(order[1..], usedAt, tick, x);
      if order[0] != x {
        assert Without(order, x)[1..] == Without(order[1..], x);
      }
    }
  }

  lemma {:induction false} UsedLast(order: seq<Key>, usedAt: map<Key, nat>, tick: nat, x: Key)
    requires Rising(order, usedAt, tick) && x !in order
    ensures Rising(order + [x], usedAt[x := tick], tick + 1)
  {
    if order == [] {
      assert order + [x] == [x] && [x][1..] == [];
      assert Rising([x][1..], usedAt[x := tick], tick + 1);
    } else {
      UsedLast(order[1..], usedAt, tick, x);
      assert (order + [x])[1..] == order[1..] + [x];
    }
  }

  /** Dropping a key leaves the others in their order. */
  lemma WithoutKeepsUse(order: seq<Key>, keys: set<Key>, usedAt: map<Key, nat>, tick: nat, x: Key)
    requires ByUse(order, keys, usedAt, tick)
    ensures ByUse(Without(order, x), keys - {x}, usedAt, tick)
  {
    WithoutKeepsRising(order, usedAt, tick, x);
  }

  /** What is used now goes to the end. */
  lemma UsedNow(order: seq<Key>, keys: set<Key>, usedAt: map<Key, nat>, tick: nat, x: Key)
    requires ByUse(order, keys, usedAt, tick)
    ensures ByUse(Without(order, x) + [x], keys + {x}, usedAt[x := tick], tick + 1)
  {
    WithoutKeepsRising(order, usedAt, tick, x);
    UsedLast(Without(order, x), usedAt, tick, x);
  }

  /** The keys held, filed by connection and by use. */
  ghost predicate Shelf(keys: set<Key>, order: seq<Key>, index: Index, usedAt: map<Key, nat>, tick: nat) {
    Inverse(index, keys) && ByUse(order, keys, usedAt, tick)
  }

  lemma ShelfDrops(keys: set<Key>, order: seq<Key>, index: Index, usedAt: map<Key, nat>, tick: nat, k: Key)
    requires Shelf(keys, order, index, usedAt, tick)
    ensures Shelf(keys - {k}, Without(order, k), Removed(index, k), usedAt, tick)
  {
    RemovedIsInverse(index, keys, k);
    WithoutKeepsUse(order, keys, usedAt, tick, k);
  }

  lemma ShelfTouches(keys: set<Key>, order: seq<Key>, index: Index, usedAt: map<Key, nat>, tick: nat, k: Key)
    requires Shelf(keys, order, index, usedAt, tick) && k in keys
    ensures Shelf(keys, Without(order, k) + [k], index, usedAt[k := tick], tick + 1)
  {
    assert keys + {k} == keys;
    UsedNow(order, keys, usedAt, tick, k);
  }

  lemma ShelfTakes(keys: set<Key>, order: seq<Key>, index: Index, usedAt: map<Key, nat>, tick: nat, k: Key)
    requires Shelf(keys, order, index, usedAt, tick) && k !in keys
    ensures k !in order && Without(order, k) == order
    ensures Shelf(keys + {k}, order + [k], Added(index, k), usedAt[k := tick], tick + 1)
  {
    AddedIsInverse(index, keys, k);
    UsedNow(order, keys, usedAt, tick, k);
  }

  lemma ShelfCounts(keys: set<Key>, order: seq<Key>, index: Index, usedAt: map<Key, nat>, tick: nat)
    requires Shelf(keys, order, index, usedAt, tick)
    ensures |order| == |keys|
  {
    OrderCounts(order, keys, usedAt, tick);
  }

  /** The first in the order was used before all others. */
  lemma ShelfOldest(keys: set<Key>, order: seq<Key>, index: Index, usedAt: map<Key, nat>, tick: nat)
    requires Shelf(keys, order, index, usedAt, tick) && order != []
    ensures order[0] in keys && order[0] in usedAt && Without(order, order[0]) == order[1..]
    ensures forall k :: k in keys && k != order[0] ==> k in order[1..] && k in usedAt && usedAt[order[0]] < usedAt[k]
  {
  }

  lemma {:induction false} OrderCounts(order: seq<Key>, keys: set<Key>, usedAt: map<Key, nat>, tick: nat)
    requires ByUse(order, keys, usedAt, tick)
    ensures |order| == |keys|
    decreases |order|
  {
    if order == [] {
      assert keys == {};
    } else {
      var k := order[0];
      assert forall x :: x in order <==> x == k || x in order[1..];
      assert k !in order[1..];
      OrderCounts(order[1..], keys - {k}, usedAt, tick);
    }
  }
}
