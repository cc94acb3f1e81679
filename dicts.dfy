/**
 * Python `dict` with string keys: an insertion-ordered list of entries.
 * A lookup finds the first entry with the key; assigning to a present key
 * keeps its position and a new key goes to the end, so every dict built by
 * these operations has pairwise distinct keys (`UniqueKeys`).
 */
module Dicts {
  import opened Wrappers
  import opened Text

  type Dict<V> = seq<(string, V)>

  predicate UniqueKeys<V>(d: Dict<V>) {
    forall i, j :: 0 <= i < j < |d| ==> d[i].0 != d[j].0
  }

  /** The position of the first entry with key `k`, or `|d|` when there is none. */
  function Find<V>(d: Dict<V>, k: string): (i: nat)
    ensures i <= |d|
    ensures i < |d| ==> d[i].0 == k
    ensures forall j :: 0 <= j < i ==> d[j].0 != k
  {
    if d == [] then 0
    else if d[0].0 == k then 0
    else 1 + Find(d[1..], k)
  }

  /** `k in d` */
  predicate HasKey<V>(d: Dict<V>, k: string) {
    Find(d, k) < |d|
  }

  /** `list(d)`: the keys in insertion order. */
  function Keys<V>(d: Dict<V>): (ks: seq<string>)
    ensures |ks| == |d|
    ensures forall i :: 0 <= i < |d| ==> ks[i] == d[i].0
  {
    if d == [] then [] else [d[0].0] + Keys(d[1..])
  }

  /** `d.get(k)`, with `None` for a missing key. */
  function Get<V>(d: Dict<V>, k: string): (r: Option<V>)
    ensures r.Some? <==> HasKey(d, k)
  {
    var i := Find(d, k);
    if i < |d| then Some(d[i].1) else None
  }

  /** A lookup in a dict that starts with entry `e`. */
  lemma GetCons<V>(e: (string, V), t: Dict<V>, k: string)
    ensures Get([e] + t, k) == if e.0 == k then Some(e.1) else Get(t, k)
  {
    assert ([e] + t)[1..] == t;
  }

  /** A lookup finds the first entry with the key. */
  lemma GetFirst<V>(d: Dict<V>, i: nat, k: string)
    requires i < |d| && d[i].0 == k
    requires forall j :: 0 <= j < i ==> d[j].0 != k
    ensures Get(d, k) == Some(d[i].1)
  {
    var f := Find(d, k);
    assert f == i;
  }

  /** A key no entry carries is missing. */
  lemma GetMissing<V>(d: Dict<V>, k: string)
    requires forall j :: 0 <= j < |d| ==> d[j].0 != k
    ensures Get(d, k) == None
  {
  }

  /** `d.get(k, default)` */
  function GetOr<V>(d: Dict<V>, k: string, default: V): (r: V)
    ensures HasKey(d, k) ==> Get(d, k) == Some(r)
    ensures !HasKey(d, k) ==> r == default
  {
    Get(d, k).GetOr(default)
  }

  /** `d[k] = v`: a present key keeps its position, a new one goes to the end. */
  function Put<V>(d: Dict<V>, k: string, v: V): (r: Dict<V>)
    ensures Get(r, k) == Some(v)
    ensures forall k' :: k' != k ==> Get(r, k') == Get(d, k')
  {
    var i := Find(d, k);
    var r := if i < |d| then d[i := (k, v)] else d + [(k, v)];
    GetFirst(r, i, k);
    PutOthers(d, k, r);
    r
  }

  /** Entries other than those with key `k` unchanged, keys in place, and only `k` appended: every other lookup is unchanged. */
  lemma PutOthers<V>(d: Dict<V>, k: string, r: Dict<V>)
    requires |d| <= |r|
    requires forall i :: 0 <= i < |d| ==> r[i].0 == d[i].0 && (d[i].0 != k ==> r[i] == d[i])
    requires forall i :: |d| <= i < |r| ==> r[i].0 == k
    ensures forall k' :: k' != k ==> Get(r, k') == Get(d, k')
  {
    forall k' | k' != k ensures Get(r, k') == Get(d, k') {
      var f := Find(d, k');
      if f < |d| {
        GetFirst(r, f, k');
      } else {
        GetMissing(r, k');
      }
    }
  }

  /** Assigning keeps a present key where it is and appends a new one. */
  lemma PutKeys<V>(d: Dict<V>, k: string, v: V)
    ensures Keys(Put(d, k, v)) == if HasKey(d, k) then Keys(d) else Keys(d) + [k]
  {
    var r := Put(d, k, v);
    if !HasKey(d, k) {
      assert r[|d|].0 == k;
    }
  }

  /** Assigning preserves distinct keys. */
  lemma PutUnique<V>(d: Dict<V>, k: string, v: V)
    requires UniqueKeys(d)
    ensures UniqueKeys(Put(d, k, v))
  {
    var r := Put(d, k, v);
    assert forall i :: 0 <= i < |d| ==> r[i].0 == d[i].0;
    if !HasKey(d, k) {
      assert r[|d|].0 == k;
    }
  }

  /** `d.pop(k, None)`: every entry with key `k` goes, the rest keep their order. */
  function Remove<V>(d: Dict<V>, k: string): (r: Dict<V>)
    ensures !HasKey(r, k)
    ensures forall k' :: k' != k ==> Get(r, k') == Get(d, k')
    ensures |r| <= |d|
  {
    if d == [] then []
    else
      var t := Remove(d[1..], k);
      assert d == [d[0]] + d[1..];
      if d[0].0 == k then t
      else
        forall k' ensures Get([d[0]] + t, k') == if k' == k then None else Get(d, k') {
          GetCons(d[0], t, k');
          GetCons(d[0], d[1..], k');
        }
        [d[0]] + t
  }

  /** `d.update(e)`: assign every entry of `e` in turn. */
  function Update<V>(d: Dict<V>, e: Dict<V>): (r: Dict<V>)
    ensures forall k :: !HasKey(e, k) ==> Get(r, k) == Get(d, k)
    ensures forall k :: HasKey(e, k) ==> HasKey(r, k)
    decreases |e|
  {
    if e == [] then d
    else
      var d' := Put(d, e[0].0, e[0].1);
      var r := Update(d', e[1..]);
      UpdateStep(d, e, d', r);
      r
  }

  /** One step of `Update`: assigning the first entry, then the rest. */
  lemma UpdateStep<V>(d: Dict<V>, e: Dict<V>, d': Dict<V>, r: Dict<V>)
    requires e != [] && d' == Put(d, e[0].0, e[0].1)
    requires forall k :: !HasKey(e[1..], k) ==> Get(r, k) == Get(d', k)
    requires forall k :: HasKey(e[1..], k) ==> HasKey(r, k)
    ensures forall k :: !HasKey(e, k) ==> Get(r, k) == Get(d, k)
    ensures forall k :: HasKey(e, k) ==> HasKey(r, k)
  {
    assert e == [e[0]] + e[1..];
    forall k ensures (!HasKey(e, k) ==> Get(r, k) == Get(d, k)) && (HasKey(e, k) ==> HasKey(r, k)) {
      GetCons(e[0], e[1..], k);
    }
  }

  /** With distinct keys in `e`, `e`'s entries win over `d`'s. */
  lemma {:induction false} UpdateWins<V>(d: Dict<V>, e: Dict<V>, k: string)
    requires UniqueKeys(e)
    requires HasKey(e, k)
    ensures Get(Update(d, e), k) == Get(e, k)
    decreases |e|
  {
    assert e == [e[0]] + e[1..];
    GetCons(e[0], e[1..], k);
    if e[0].0 == k {
      forall j | 0 <= j < |e| - 1 ensures e[1..][j].0 != k {
        assert e[1..][j] == e[j + 1];
      }
    } else {
      UpdateWins(Put(d, e[0].0, e[0].1), e[1..], k);
    }
  }

  /** Some key of `d` starts with `prefix` (`any(k.startswith(prefix) for k in d)`). */
  predicate AnyKeyStartsWith<V>(d: Dict<V>, prefix: string) {
    exists i :: 0 <= i < |d| && StartsWith(d[i].0, prefix)
  }

  /** Every key stored in `d` is found by a lookup. */
  lemma HasKeyAt<V>(d: Dict<V>, i: nat)
    requires i < |d|
    ensures HasKey(d, d[i].0)
  {
    var f := Find(d, d[i].0);
    assert f <= i;
  }

  /** A present key with the prefix is a witness of `AnyKeyStartsWith`. */
  lemma AnyKeyStartsWithHasKey<V>(d: Dict<V>, k: string, prefix: string)
    requires HasKey(d, k) && StartsWith(k, prefix)
    ensures AnyKeyStartsWith(d, prefix)
  {
    var i := Find(d, k);
    assert StartsWith(d[i].0, prefix);
  }

  /** ... and every witness is a present key. */
  lemma AnyKeyStartsWithKey<V>(d: Dict<V>, prefix: string) returns (k: string)
    requires AnyKeyStartsWith(d, prefix)
    ensures HasKey(d, k) && StartsWith(k, prefix)
  {
    var i :| 0 <= i < |d| && StartsWith(d[i].0, prefix);
    k := d[i].0;
    var f := Find(d, k);
    assert f <= i;
  }
}
