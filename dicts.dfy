/** Python's insertion-ordered `dict`, as a sequence of key/value entries.
    Assigning to a present key keeps its position; assigning to a new key appends it;
    deleting a key closes the gap. */
module Dicts {

  type Dict<K, V> = seq<(K, V)>

  /** The keys in iteration order. */
  function Keys<K, V>(d: Dict<K, V>): (ks: seq<K>)
    ensures |ks| == |d|
    ensures forall i :: 0 <= i < |d| ==> ks[i] == d[i].0
  {
    seq(|d|, i requires 0 <= i < |d| => d[i].0)
  }

  /** No key occurs twice: what a dictionary always satisfies. */
  predicate Distinct<K(==), V>(d: Dict<K, V>) {
    forall i, j :: 0 <= i < j < |d| ==> d[i].0 != d[j].0
  }

  /** The position of the first entry with key `k`, or `|d|` when there is none. */
  function Find<K(==), V>(d: Dict<K, V>, k: K): (i: nat)
    ensures i <= |d|
    ensures i < |d| ==> d[i].0 == k
    ensures forall j :: 0 <= j < i ==> d[j].0 != k
  {
    if |d| == 0 then 0
    else if d[0].0 == k then 0
    else 1 + Find(d[1..], k)
  }

  /** `k in d`. */
  predicate Has<K(==), V>(d: Dict<K, V>, k: K) {
    Find(d, k) < |d|
  }

  /** `d[k]`. */
  function Get<K(==), V>(d: Dict<K, V>, k: K): V
    requires Has(d, k)
  {
    d[Find(d, k)].1
  }

  /** `d[k] = v`. */
  function Put<K(==), V>(d: Dict<K, V>, k: K, v: V): Dict<K, V> {
    if Has(d, k) then d[Find(d, k) := (k, v)] else d + [(k, v)]
  }

  /** `Find` is determined by being the first matching position. */
  lemma FindUnique<K, V>(d: Dict<K, V>, k: K, i: nat)
    requires i <= |d|
    requires i < |d| ==> d[i].0 == k
    requires forall j :: 0 <= j < i ==> d[j].0 != k
    ensures Find(d, k) == i
  {
  }

  /** Dictionaries with the same key order find every key at the same position. */
  lemma {:induction false} FindSameKeys<K, V, W>(d: Dict<K, V>, e: Dict<K, W>, k: K)
    requires Keys(d) == Keys(e)
    ensures Find(d, k) == Find(e, k)
  {
    assert |d| == |Keys(d)| == |Keys(e)| == |e|;
    assert forall i :: 0 <= i < |d| ==> d[i].0 == Keys(d)[i] == Keys(e)[i] == e[i].0;
    FindUnique(e, k, Find(d, k));
  }

  lemma HasIff<K, V>(d: Dict<K, V>, k: K)
    ensures Has(d, k) <==> exists i :: 0 <= i < |d| && d[i].0 == k
  {
  }

  /** Reading back the key just written gives the new value, the key order changes only
      by appending a key that was absent, and no key becomes duplicated. */
  lemma PutSame<K, V>(d: Dict<K, V>, k: K, v: V)
    ensures Has(Put(d, k, v), k) && Get(Put(d, k, v), k) == v
    ensures Keys(Put(d, k, v)) == if Has(d, k) then Keys(d) else Keys(d) + [k]
    ensures Distinct(d) ==> Distinct(Put(d, k, v))
  {
    var r := Put(d, k, v);
    if Has(d, k) {
      FindUnique(r, k, Find(d, k));
    } else {
      assert forall j :: 0 <= j < |d| ==> r[j].0 == d[j].0;
      FindUnique(r, k, |d|);
    }
  }

  /** Writing `k` leaves every other key's presence and value unchanged. */
  lemma PutOther<K, V>(d: Dict<K, V>, k: K, v: V, k2: K)
    requires k2 != k
    ensures Has(Put(d, k, v), k2) == Has(d, k2)
    ensures Has(d, k2) ==> Get(Put(d, k, v), k2) == Get(d, k2)
  {
    var r := Put(d, k, v);
    assert forall j :: 0 <= j < |d| ==> r[j].0 == d[j].0;
    var i := Find(d, k2);
    if i == |d| && |r| > |d| {
      assert r[|d|].0 == k;
      FindUnique(r, k2, |r|);
    } else {
      FindUnique(r, k2, i);
    }
  }

  /** `del d[k]` (a no-op for an absent key: callers test membership first). */
  function Remove<K(==), V>(d: Dict<K, V>, k: K): Dict<K, V> {
    var i := Find(d, k);
    if i < |d| then d[..i] + d[i + 1..] else d
  }

  /** Writing a key twice keeps only the second value. */
  lemma PutPut<K, V>(d: Dict<K, V>, k: K, v: V, w: V)
    ensures Put(Put(d, k, v), k, w) == Put(d, k, w)
  {
    var r := Put(d, k, v);
    if Has(d, k) {
      FindUnique(r, k, Find(d, k));
    } else {
      assert forall j :: 0 <= j < |d| ==> r[j].0 == d[j].0;
      FindUnique(r, k, |d|);
    }
  }

  /** Deleting a key of a dictionary removes it and nothing else. */
  lemma RemoveFacts<K, V>(d: Dict<K, V>, k: K, k2: K)
    requires Distinct(d)
    ensures Distinct(Remove(d, k)) && !Has(Remove(d, k), k)
    ensures k2 != k ==> Has(Remove(d, k), k2) == Has(d, k2)
    ensures k2 != k && Has(d, k2) ==> Get(Remove(d, k), k2) == Get(d, k2)
    ensures |Remove(d, k)| == if Has(d, k) then |d| - 1 else |d|
  {
    var i := Find(d, k);
    if i < |d| {
      RemoveAt(d, i);
      if k2 != k {
        RemoveOther(d, i, k2);
      }
    }
  }

  /** Closing the gap at the position of a key drops that key and keeps the rest distinct. */
  lemma RemoveAt<K, V>(d: Dict<K, V>, i: nat)
    requires Distinct(d) && i < |d|
    ensures var r := d[..i] + d[i + 1..];
      Distinct(r) && |r| == |d| - 1 && !Has(r, d[i].0)
  {
    var r := d[..i] + d[i + 1..];
    assert forall j :: 0 <= j < i ==> r[j] == d[j];
    assert forall j :: i <= j < |r| ==> r[j] == d[j + 1];
    assert forall j :: 0 <= j < |r| ==> r[j].0 != d[i].0;
    FindUnique(r, d[i].0, |r|);
  }

  /** Closing the gap at `i` keeps every other key where `Find` sees it. */
  lemma RemoveOther<K, V>(d: Dict<K, V>, i: nat, k2: K)
    requires i < |d| && d[i].0 != k2
    ensures var r := d[..i] + d[i + 1..];
      Has(r, k2) == Has(d, k2) && (Has(d, k2) ==> Get(r, k2) == Get(d, k2))
  {
    var r := d[..i] + d[i + 1..];
    assert forall j :: 0 <= j < i ==> r[j] == d[j];
    assert forall j :: i <= j < |r| ==> r[j] == d[j + 1];
    var i2 := Find(d, k2);
    if i2 < i {
      FindUnique(r, k2, i2);
    } else if i2 < |d| {
      FindUnique(r, k2, i2 - 1);
    } else {
      FindUnique(r, k2, |r|);
    }
  }

  /** A dictionary seen as its first entry followed by the rest. */
  lemma HeadTail<K, V>(d: Dict<K, V>, k: K)
    requires |d| > 0 && Distinct(d)
    ensures Distinct(d[1..])
    ensures d[0].0 == k ==> Has(d, k) && Get(d, k) == d[0].1 && !Has(d[1..], k)
    ensures d[0].0 != k ==> Has(d, k) == Has(d[1..], k) && (Has(d, k) ==> Get(d, k) == Get(d[1..], k))
  {
    var rest := d[1..];
    assert forall j :: 0 <= j < |rest| ==> rest[j] == d[j + 1];
    if d[0].0 == k {
      assert forall j :: 0 <= j < |rest| ==> rest[j].0 != k;
      FindUnique(rest, k, |rest|);
    }
  }

  /** `if k not in d: d[k] = v`. */
  function SetDefault<K(==), V>(d: Dict<K, V>, k: K, v: V): Dict<K, V> {
    if Has(d, k) then d else d + [(k, v)]
  }

  /** Adding a key only when absent keeps an existing value and keeps keys distinct. */
  lemma SetDefaultFacts<K, V>(d: Dict<K, V>, k: K, v: V)
    ensures Has(SetDefault(d, k, v), k)
    ensures Has(d, k) ==> SetDefault(d, k, v) == d
    ensures !Has(d, k) ==> Get(SetDefault(d, k, v), k) == v && Keys(SetDefault(d, k, v)) == Keys(d) + [k]
    ensures Distinct(d) ==> Distinct(SetDefault(d, k, v))
  {
    if !Has(d, k) {
      PutSame(d, k, v);
    }
  }
}
