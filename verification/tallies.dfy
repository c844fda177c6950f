/** A byte tally: a `Dictionary<K, long>` from a classification key to the
    bytes accumulated under it, together with the order in which the keys
    were first added (the order its enumeration yields). */
module Tallies {

  datatype Tally<K> = Tally(bytes: map<K, int>, order: seq<K>)

  /** A tally with no entry (`Dictionary.Clear`). */
  function Empty<K>(): (t: Tally<K>)
    ensures t.bytes == map[] && t.order == []
  {
    Tally(map[], [])
  }

  /** The bytes recorded under `k`; a key that is absent counts as 0. */
  function Get<K>(t: Tally<K>, k: K): int
  {
    if k in t.bytes then t.bytes[k] else 0
  }

  /** The key order lists every key of the map, each once. */
  ghost predicate Valid<K>(t: Tally<K>)
  {
    && (forall k :: k in t.bytes ==> k in t.order)
    && (forall i :: 0 <= i < |t.order| ==> t.order[i] in t.bytes)
    && (forall i, j :: 0 <= i < j < |t.order| ==> t.order[i] != t.order[j])
  }

  /** `t'` is `t` with `n` more bytes under `k`, `k` present afterwards
      (starting from 0 if it was absent), and every other key as it was. */
  ghost predicate AddedAt<K>(t: Tally<K>, t': Tally<K>, k: K, n: int)
  {
    t'.bytes == t.bytes[k := Get(t, k) + n]
  }

  /** `if (!ContainsKey(k)) Add(k, 0)`: makes `k` present without changing
      what any key already holds; a new key goes to the end of the order. */
  function Touch<K>(t: Tally<K>, k: K): (r: Tally<K>)
    ensures AddedAt(t, r, k, 0)
    ensures k in t.bytes ==> r.order == t.order
    ensures k !in t.bytes ==> r.order == t.order + [k]
  {
    if k in t.bytes then t else Tally(t.bytes[k := 0], t.order + [k])
  }

  /** `t[k] += n` on a key that is present; the order is untouched. */
  function Increase<K>(t: Tally<K>, k: K, n: int): (r: Tally<K>)
    requires k in t.bytes
    ensures AddedAt(t, r, k, n)
    ensures r.order == t.order
  {
    Tally(t.bytes[k := t.bytes[k] + n], t.order)
  }

  /** The `ContainsKey`/`Add(k, 0)`/`+=` idiom of the scanner. */
  function Add<K>(t: Tally<K>, k: K, n: int): (r: Tally<K>)
    ensures AddedAt(t, r, k, n)
    ensures k in t.bytes ==> r.order == t.order
    ensures k !in t.bytes ==> r.order == t.order + [k]
  {
    Increase(Touch(t, k), k, n)
  }

  /** Sum of the bytes under the keys `ks`. */
  function SumOver<K>(m: map<K, int>, ks: seq<K>): int
  {
    if ks == [] then 0
    else (if ks[0] in m then m[ks[0]] else 0) + SumOver(m, ks[1..])
  }

  /** Sum of every value of the tally. */
  function Sum<K>(t: Tally<K>): int
  {
    SumOver(t.bytes, t.order)
  }

  lemma {:induction false} SumOverAppend<K>(m: map<K, int>, ks: seq<K>, k: K)
    ensures SumOver(m, ks + [k]) == SumOver(m, ks) + (if k in m then m[k] else 0)
  {
    if ks == [] {
      assert ks + [k] == [k];
    } else {
      assert (ks + [k])[1..] == ks[1..] + [k];
      SumOverAppend(m, ks[1..], k);
    }
  }

  /** Changing the map outside `ks` does not change the sum over `ks`. */
  lemma {:induction false} SumOverAgree<K>(m: map<K, int>, m': map<K, int>, ks: seq<K>)
    requires forall k :: k in ks ==> (k in m <==> k in m') && (k in m ==> m[k] == m'[k])
    ensures SumOver(m, ks) == SumOver(m', ks)
  {
    if ks != [] {
      SumOverAgree(m, m', ks[1..]);
    }
  }

  /** Raising the value of a key that occurs once in `ks` raises the sum by as much. */
  lemma {:induction false} SumOverIncrease<K>(m: map<K, int>, ks: seq<K>, k: K, n: int)
    requires k in m
    requires forall i, j :: 0 <= i < j < |ks| ==> ks[i] != ks[j]
    ensures SumOver(m[k := m[k] + n], ks) == SumOver(m, ks) + (if k in ks then n else 0)
  {
    if ks != [] {
      if ks[0] == k {
        assert k !in ks[1..] by {
          forall i | 0 <= i < |ks[1..]| ensures ks[1..][i] != k {
            assert ks[1..][i] == ks[i + 1];
          }
        }
        SumOverAgree(m, m[k := m[k] + n], ks[1..]);
      } else {
        SumOverIncrease(m, ks[1..], k, n);
        assert k in ks ==> k in ks[1..] by {
          if k in ks {
            var i :| 0 <= i < |ks| && ks[i] == k;
            assert ks[1..][i - 1] == k;
          }
        }
      }
    }
  }

  /** Making a key present keeps the tally well formed and its sum unchanged. */
  lemma TouchKeepsSum<K>(t: Tally<K>, k: K)
    requires Valid(t)
    ensures Valid(Touch(t, k)) && Sum(Touch(t, k)) == Sum(t)
  {
    if k !in t.bytes {
      var r := Touch(t, k);
      assert k !in t.order;
      SumOverAppend(r.bytes, t.order, k);
      SumOverAgree(t.bytes, r.bytes, t.order);
      assert forall i :: 0 <= i < |t.order| ==> r.order[i] == t.order[i];
    }
  }

  /** Adding `n` bytes under a present key adds `n` to the sum. */
  lemma IncreaseAddsToSum<K>(t: Tally<K>, k: K, n: int)
    requires Valid(t) && k in t.bytes
    ensures Valid(Increase(t, k, n)) && Sum(Increase(t, k, n)) == Sum(t) + n
  {
    SumOverIncrease(t.bytes, t.order, k, n);
  }

  /** Adding `n` bytes under any key adds `n` to the sum. */
  lemma AddAddsToSum<K>(t: Tally<K>, k: K, n: int)
    requires Valid(t)
    ensures Valid(Add(t, k, n)) && Sum(Add(t, k, n)) == Sum(t) + n
  {
    TouchKeepsSum(t, k);
    IncreaseAddsToSum(Touch(t, k), k, n);
  }
}
