/**
 * Python's `dict` as the node uses it for `reply_queue`: a table of entries in
 * insertion order with pairwise distinct keys. Assigning to a key that is
 * present keeps its position; assigning to a new key appends; `pop` removes the
 * entry; iteration visits the entries in order.
 */
module OrderedDict {
  import opened Wrappers

  datatype Entry<K, V> = Entry(key: K, value: V)

  predicate DistinctKeys<K(==), V>(t: seq<Entry<K, V>>) {
    forall i, j :: 0 <= i < j < |t| ==> t[i].key != t[j].key
  }

  type Dict<K(==), V> = t: seq<Entry<K, V>> | DistinctKeys(t) witness []

  predicate HasKey<K(==), V>(t: seq<Entry<K, V>>, k: K) {
    exists i :: 0 <= i < |t| && t[i].key == k
  }

  /** `d.get(k)`. */
  function Get<K(==), V>(t: seq<Entry<K, V>>, k: K): (r: Option<V>)
    ensures r.Some? <==> HasKey(t, k)
    ensures r.Some? ==> exists i :: 0 <= i < |t| && t[i] == Entry(k, r.value)
    ensures forall i :: 0 <= i < |t| && t[i].key == k && DistinctKeys(t) ==> r == Some(t[i].value)
  {
    if t == [] then None
    else if t[0].key == k then Some(t[0].value)
    else
      var r := Get(t[1..], k);
      assert forall i :: 1 <= i < |t| ==> t[i] == t[1..][i - 1];
      r
  }

  /** The values in iteration order, as `d.values()`. */
  function Values<K(==), V>(t: seq<Entry<K, V>>): (vs: seq<V>)
    ensures |vs| == |t|
    ensures forall i :: 0 <= i < |t| ==> vs[i] == t[i].value
  {
    seq(|t|, i requires 0 <= i < |t| => t[i].value)
  }

  /** `d[k] = v`. */
  function Put<K(==,!new), V(!new)>(d: Dict<K, V>, k: K, v: V): (r: Dict<K, V>)
    ensures Get(r, k) == Some(v)
    ensures forall k' :: k' != k ==> Get(r, k') == Get(d, k')
    ensures HasKey(d, k) ==> |r| == |d|
    ensures HasKey(d, k) ==> forall i :: 0 <= i < |d| && d[i].key != k ==> r[i] == d[i]
    ensures HasKey(d, k) ==> forall i :: 0 <= i < |d| && d[i].key == k ==> r[i] == Entry(k, v)
    ensures !HasKey(d, k) ==> r == d + [Entry(k, v)]
  {
    if HasKey(d, k) then
      var r := seq(|d|, i requires 0 <= i < |d| => if d[i].key == k then Entry(k, v) else d[i]);
      assert forall i :: 0 <= i < |d| ==> r[i].key == d[i].key;
      assert DistinctKeys(r);
      var j :| 0 <= j < |d| && d[j].key == k;
      assert r[j] == Entry(k, v);
      forall k' | k' != k ensures Get(r, k') == Get(d, k') {
        if HasKey(d, k') {
          var i :| 0 <= i < |d| && d[i].key == k';
          assert r[i] == d[i];
        }
      }
      r
    else
      var r := d + [Entry(k, v)];
      assert DistinctKeys(r);
      assert r[|d|] == Entry(k, v);
      forall k' | k' != k ensures Get(r, k') == Get(d, k') {
        if HasKey(d, k') {
          var i :| 0 <= i < |d| && d[i].key == k';
          assert r[i] == d[i];
        }
      }
      r
  }

  /** The position of the entry with key `k`, or None when no entry has it. */
  function KeyIndex<K(==), V>(t: seq<Entry<K, V>>, k: K): (r: Option<nat>)
    ensures r.None? <==> !HasKey(t, k)
    ensures r.Some? ==> r.value < |t| && t[r.value].key == k
  {
    if t == [] then None
    else if t[0].key == k then Some(0)
    else
      assert forall i :: 1 <= i < |t| ==> t[i] == t[1..][i - 1];
      match KeyIndex(t[1..], k)
      case None => None
      case Some(j) => Some(j + 1)
  }

  /** `d.pop(k)` (the value it returns is not used by the node). */
  function Remove<K(==,!new), V(!new)>(d: Dict<K, V>, k: K): (r: Dict<K, V>)
    ensures Get(r, k) == None
    ensures forall k' :: k' != k ==> Get(r, k') == Get(d, k')
    ensures HasKey(d, k) ==> |r| == |d| - 1
    ensures !HasKey(d, k) ==> r == d
    ensures forall e :: e in r <==> e in d && e.key != k
    ensures HasKey(d, k) ==> exists i :: 0 <= i < |d| && d[i].key == k && r == d[..i] + d[i + 1..]
  {
    match KeyIndex(d, k)
    case None =>
      assert forall e :: e in d ==> e.key != k;
      d
    case Some(i) =>
      CutFacts(d, i);
      d[..i] + d[i + 1..]
  }

  /** Cutting out the entry at `i` keeps every other entry, in order, and loses exactly its key. */
  lemma CutFacts<K, V>(d: seq<Entry<K, V>>, i: nat)
    requires i < |d| && DistinctKeys(d)
    ensures var r := d[..i] + d[i + 1..];
      && DistinctKeys(r)
      && Get(r, d[i].key) == None
      && (forall k' :: k' != d[i].key ==> Get(r, k') == Get(d, k'))
      && (forall e :: e in r <==> e in d && e.key != d[i].key)
  {
    CutShift(d, i);
    CutGet(d, i);
    CutMembers(d, i);
  }

  lemma CutShift<K, V>(d: seq<Entry<K, V>>, i: nat)
    requires i < |d| && DistinctKeys(d)
    ensures var r := d[..i] + d[i + 1..];
      && (forall j :: 0 <= j < |r| ==> r[j] == (if j < i then d[j] else d[j + 1]))
      && DistinctKeys(r)
  {
  }

  lemma CutGet<K, V>(d: seq<Entry<K, V>>, i: nat)
    requires i < |d| && DistinctKeys(d)
    ensures var r := d[..i] + d[i + 1..];
      && Get(r, d[i].key) == None
      && forall k' :: k' != d[i].key ==> Get(r, k') == Get(d, k')
  {
    var r := d[..i] + d[i + 1..];
    CutShift(d, i);
    forall k' ensures Get(r, k') == (if k' == d[i].key then None else Get(d, k')) {
      if HasKey(d, k') {
        var j :| 0 <= j < |d| && d[j].key == k';
        if j != i {
          var j' := if j < i then j else j - 1;
          assert r[j'] == d[j];
        }
      }
    }
  }

  lemma CutMembers<K, V>(d: seq<Entry<K, V>>, i: nat)
    requires i < |d| && DistinctKeys(d)
    ensures var r := d[..i] + d[i + 1..];
      forall e :: e in r <==> e in d && e.key != d[i].key
  {
    var r := d[..i] + d[i + 1..];
    CutShift(d, i);
    forall e | e in d && e.key != d[i].key ensures e in r {
      var j :| 0 <= j < |d| && d[j] == e;
      var j' := if j < i then j else j - 1;
      assert r[j'] == d[j];
    }
  }
}
