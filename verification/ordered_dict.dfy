/**
 * Python's dict as the core uses it: keys are kept in first-insertion order,
 * assigning to a key that is already present replaces its value in place,
 * and `update` assigns each entry of the other dict in that dict's order.
 */
module OrderedDict {
  import opened Wrappers

  datatype Dict<K(==,!new), V> = Dict(items: seq<(K, V)>)

  function Empty<K(==,!new), V>(): (d: Dict<K, V>)
    ensures Valid(d) && Keys(d) == []
  {
    Dict([])
  }

  /** The keys in iteration order. */
  function Keys<K(==,!new), V>(d: Dict<K, V>): (r: seq<K>)
    ensures |r| == |d.items|
    ensures forall i :: 0 <= i < |r| ==> r[i] == d.items[i].0
  {
    seq(|d.items|, i requires 0 <= i < |d.items| => d.items[i].0)
  }

  /** No key occurs twice; every dict the core builds has this shape. */
  ghost predicate Valid<K(!new), V>(d: Dict<K, V>) {
    forall i, j :: 0 <= i < j < |d.items| ==> d.items[i].0 != d.items[j].0
  }

  predicate HasKey<K(==,!new), V>(d: Dict<K, V>, k: K) {
    exists i :: 0 <= i < |d.items| && d.items[i].0 == k
  }

  /** Position of the first entry with key `k`. */
  function IndexOf<K(==,!new), V>(items: seq<(K, V)>, k: K): (r: Option<nat>)
    ensures r.None? <==> forall i :: 0 <= i < |items| ==> items[i].0 != k
    ensures r.Some? ==> r.value < |items| && items[r.value].0 == k
    ensures r.Some? ==> forall i :: 0 <= i < r.value ==> items[i].0 != k
  {
    if items == [] then None
    else if items[0].0 == k then Some(0)
    else match IndexOf(items[1..], k)
      case None => None
      case Some(i) => Some(i + 1)
  }

  /** `d.get(k)`: the value stored under `k`, if any. */
  function Get<K(==,!new), V>(d: Dict<K, V>, k: K): (r: Option<V>)
    ensures r.Some? <==> HasKey(d, k)
    ensures r.Some? ==> exists i :: 0 <= i < |d.items| && d.items[i] == (k, r.value)
    ensures Valid(d) ==> forall i :: 0 <= i < |d.items| && d.items[i].0 == k ==> r == Some(d.items[i].1)
  {
    match IndexOf(d.items, k)
    case None => None
    case Some(i) => Some(d.items[i].1)
  }

  /** `d[k] = v`. */
  function Put<K(==,!new), V>(d: Dict<K, V>, k: K, v: V): (r: Dict<K, V>)
    ensures Valid(d) ==> Valid(r)
    ensures HasKey(d, k) ==> Keys(r) == Keys(d)
    ensures !HasKey(d, k) ==> Keys(r) == Keys(d) + [k]
    ensures Get(r, k) == Some(v)
    ensures forall k' :: k' != k ==> Get(r, k') == Get(d, k')
    ensures forall k' :: HasKey(r, k') <==> HasKey(d, k') || k' == k
  {
    match IndexOf(d.items, k)
    case None =>
      var r := Dict(d.items + [(k, v)]);
      AppendFacts(d, k, v);
      r
    case Some(i) =>
      var r := Dict(d.items[i := (k, v)]);
      ReplaceFacts(d, i, k, v);
      r
  }

  lemma AppendFacts<K(!new), V>(d: Dict<K, V>, k: K, v: V)
    requires !HasKey(d, k)
    ensures var r := Dict(d.items + [(k, v)]);
      && (Valid(d) ==> Valid(r))
      && Keys(r) == Keys(d) + [k]
      && Get(r, k) == Some(v)
      && (forall k' :: k' != k ==> Get(r, k') == Get(d, k'))
      && (forall k' :: HasKey(r, k') <==> HasKey(d, k') || k' == k)
  {
    var r := Dict(d.items + [(k, v)]);
    assert r.items[|d.items|] == (k, v);
    assert Keys(r) == Keys(d) + [k];
    forall k' | k' != k ensures Get(r, k') == Get(d, k') && (HasKey(r, k') <==> HasKey(d, k')) {
      AppendOther(d, k, v, k');
    }
  }

  /** Appending an entry for `k` changes nothing about another key. */
  lemma AppendOther<K(!new), V>(d: Dict<K, V>, k: K, v: V, k': K)
    requires k' != k
    ensures var r := Dict(d.items + [(k, v)]);
      Get(r, k') == Get(d, k') && (HasKey(r, k') <==> HasKey(d, k'))
  {
    var r := Dict(d.items + [(k, v)]);
    var a, b := IndexOf(r.items, k'), IndexOf(d.items, k');
    if b.Some? { assert r.items[b.value] == d.items[b.value]; }
    if a.Some? { assert a.value < |d.items| && d.items[a.value] == r.items[a.value]; }
  }

  lemma ReplaceFacts<K(!new), V>(d: Dict<K, V>, i: nat, k: K, v: V)
    requires i < |d.items| && d.items[i].0 == k
    requires forall j :: 0 <= j < i ==> d.items[j].0 != k
    ensures var r := Dict(d.items[i := (k, v)]);
      && (Valid(d) ==> Valid(r))
      && Keys(r) == Keys(d)
      && Get(r, k) == Some(v)
      && (forall k' :: k' != k ==> Get(r, k') == Get(d, k'))
      && (forall k' :: HasKey(r, k') <==> HasKey(d, k') || k' == k)
  {
    var r := Dict(d.items[i := (k, v)]);
    assert Keys(r) == Keys(d);
    SameKeysSameShape(d, r);
    assert IndexOf(r.items, k) == Some(i);
    forall k' | k' != k ensures Get(r, k') == Get(d, k') {
      ReplaceOther(d, i, k, v, k');
    }
  }

  lemma SameKeysSameShape<K(!new), V>(d: Dict<K, V>, r: Dict<K, V>)
    requires Keys(r) == Keys(d)
    ensures Valid(d) ==> Valid(r)
    ensures forall k' :: HasKey(r, k') <==> HasKey(d, k')
  {
    forall k' ensures HasKey(r, k') <==> HasKey(d, k') {
      if HasKey(r, k') {
        var j :| 0 <= j < |r.items| && r.items[j].0 == k';
        assert Keys(d)[j] == k';
      }
      if HasKey(d, k') {
        var j :| 0 <= j < |d.items| && d.items[j].0 == k';
        assert Keys(r)[j] == k';
      }
    }
    if Valid(d) {
      forall a, b | 0 <= a < b < |r.items| ensures r.items[a].0 != r.items[b].0 {
        assert Keys(r)[a] == Keys(d)[a] && Keys(r)[b] == Keys(d)[b];
      }
    }
  }

  lemma ReplaceOther<K(!new), V>(d: Dict<K, V>, i: nat, k: K, v: V, k': K)
    requires i < |d.items| && d.items[i].0 == k && k' != k
    ensures Get(Dict(d.items[i := (k, v)]), k') == Get(d, k')
  {
    var r := Dict(d.items[i := (k, v)]);
    var a, b := IndexOf(r.items, k'), IndexOf(d.items, k');
    if b.Some? { assert b.value != i; assert r.items[b.value] == d.items[b.value]; }
    if a.Some? { assert a.value != i; assert d.items[a.value] == r.items[a.value]; }
  }

  /** `d.update(other)`: every entry of `other`, in order, assigned into `d`. */
  function Update<K(==,!new), V>(d: Dict<K, V>, other: Dict<K, V>): (r: Dict<K, V>)
    ensures Valid(d) ==> Valid(r)
    ensures forall k :: HasKey(r, k) <==> HasKey(d, k) || HasKey(other, k)
    decreases |other.items|
  {
    if other.items == [] then d
    else
      var last := other.items[|other.items| - 1];
      var init := Dict(other.items[..|other.items| - 1]);
      var r := Put(Update(d, init), last.0, last.1);
      InitKeys(other);
      r
  }

  /** The keys of a dict are those of its entries but the last, and the last entry's key. */
  lemma InitKeys<K(!new), V>(d: Dict<K, V>)
    requires d.items != []
    ensures forall k :: HasKey(d, k) <==> HasKey(Dict(d.items[..|d.items| - 1]), k) || k == d.items[|d.items| - 1].0
  {
    var init := Dict(d.items[..|d.items| - 1]);
    forall k | HasKey(d, k) ensures HasKey(init, k) || k == d.items[|d.items| - 1].0 {
      var i :| 0 <= i < |d.items| && d.items[i].0 == k;
      if i < |d.items| - 1 { assert init.items[i] == d.items[i]; }
    }
    forall k | HasKey(init, k) ensures HasKey(d, k) {
      var i :| 0 <= i < |init.items| && init.items[i].0 == k;
      assert d.items[i] == init.items[i];
    }
  }

  /** Assigning a key twice leaves the second value, at the key's first position. */
  lemma PutPut<K(!new), V>(d: Dict<K, V>, k: K, v1: V, v2: V)
    ensures Put(Put(d, k, v1), k, v2) == Put(d, k, v2)
  {
    match IndexOf(d.items, k)
    case None => PutPutAppended(d.items, k, v1, v2);
    case Some(i) => PutPutReplaced(d.items, i, k, v1, v2);
  }

  lemma PutPutAppended<K(!new), V>(items: seq<(K, V)>, k: K, v1: V, v2: V)
    requires IndexOf(items, k).None?
    ensures Put(Put(Dict(items), k, v1), k, v2) == Put(Dict(items), k, v2)
  {
    IndexOfAppended(items, k, v1);
    assert (items + [(k, v1)])[|items| := (k, v2)] == items + [(k, v2)];
  }

  lemma IndexOfAppended<K(!new), V>(items: seq<(K, V)>, k: K, v: V)
    requires IndexOf(items, k).None?
    ensures IndexOf(items + [(k, v)], k) == Some(|items|)
  {
    assert (items + [(k, v)])[|items|].0 == k;
  }

  lemma PutPutReplaced<K(!new), V>(items: seq<(K, V)>, i: nat, k: K, v1: V, v2: V)
    requires IndexOf(items, k) == Some(i)
    ensures Put(Put(Dict(items), k, v1), k, v2) == Put(Dict(items), k, v2)
  {
    IndexOfReplaced(items, i, k, v1);
    assert items[i := (k, v1)][i := (k, v2)] == items[i := (k, v2)];
  }

  lemma IndexOfReplaced<K(!new), V>(items: seq<(K, V)>, i: nat, k: K, v: V)
    requires IndexOf(items, k) == Some(i)
    ensures IndexOf(items[i := (k, v)], k) == Some(i)
  {
    var a := items[i := (k, v)];
    assert forall j :: 0 <= j < i ==> a[j] == items[j];
    assert a[i].0 == k;
    var r := IndexOf(a, k);
    assert r.Some? && r.value <= i;
  }

  /** A key found in a prefix of the entries is looked up there as in the whole dict. */
  lemma PrefixGet<K(!new), V>(d: Dict<K, V>, n: nat, k: K)
    requires n <= |d.items| && HasKey(Dict(d.items[..n]), k)
    ensures Get(Dict(d.items[..n]), k) == Get(d, k)
  {
    var a, b := IndexOf(d.items[..n], k), IndexOf(d.items, k);
    assert d.items[a.value] == d.items[..n][a.value];
    forall j | 0 <= j < a.value ensures d.items[j].0 != k { assert d.items[j] == d.items[..n][j]; }
  }

  /** After `d.update(other)` a key of `other` holds `other`'s value and any other key keeps its own. */
  lemma {:induction false} UpdateGet<K(!new), V>(d: Dict<K, V>, other: Dict<K, V>, k: K)
    requires Valid(other)
    ensures Get(Update(d, other), k) == if HasKey(other, k) then Get(other, k) else Get(d, k)
    decreases |other.items|
  {
    if other.items != [] {
      var n := |other.items| - 1;
      var last := other.items[n];
      var init := Dict(other.items[..n]);
      PrefixValid(other, n);
      var u := Update(d, init);
      UpdateLast(d, other);
      if k == last.0 {
        LastGet(other);
      } else {
        UpdateGet(d, init, k);
        PrefixKeys(other, k);
        if HasKey(other, k) {
          PrefixGet(other, n, k);
        }
      }
    }
  }

  /** `update` assigns the other dict's last entry last. */
  lemma UpdateLast<K(!new), V>(d: Dict<K, V>, other: Dict<K, V>)
    requires other.items != []
    ensures var n := |other.items| - 1;
      Update(d, other) == Put(Update(d, Dict(other.items[..n])), other.items[n].0, other.items[n].1)
  {
  }

  lemma PrefixValid<K(!new), V>(d: Dict<K, V>, n: nat)
    requires Valid(d) && n <= |d.items|
    ensures Valid(Dict(d.items[..n]))
  {
    var p := Dict(d.items[..n]);
    forall i, j | 0 <= i < j < |p.items| ensures p.items[i].0 != p.items[j].0 {
      assert p.items[i] == d.items[i] && p.items[j] == d.items[j];
    }
  }

  /** In a dict without repeated keys the last entry is found by its key. */
  lemma LastGet<K(!new), V>(d: Dict<K, V>)
    requires Valid(d) && d.items != []
    ensures Get(d, d.items[|d.items| - 1].0) == Some(d.items[|d.items| - 1].1)
  {
  }

  /** Apart from the last entry's key, dropping the last entry keeps the key set. */
  lemma PrefixKeys<K(!new), V>(d: Dict<K, V>, k: K)
    requires d.items != [] && k != d.items[|d.items| - 1].0
    ensures HasKey(Dict(d.items[..|d.items| - 1]), k) <==> HasKey(d, k)
  {
    var n := |d.items| - 1;
    var p := Dict(d.items[..n]);
    if HasKey(d, k) {
      var i :| 0 <= i < |d.items| && d.items[i].0 == k;
      assert p.items[i] == d.items[i];
    }
    if HasKey(p, k) {
      var i :| 0 <= i < |p.items| && p.items[i].0 == k;
      assert p.items[i] == d.items[i];
    }
  }

  /** The dict read as a plain map: the value Python's lookups return for each key. */
  function AsMap<K(==,!new), V>(d: Dict<K, V>): (m: map<K, V>)
    ensures forall k :: k in m <==> HasKey(d, k)
    ensures forall k :: k in m ==> Get(d, k) == Some(m[k])
  {
    map k | k in Keys(d) :: Get(d, k).value
  }
}
