/**
 * A JavaScript object whose keys are strings that are not array indices.
 * `Object.entries` and `Object.keys` list such keys in insertion order, and
 * `{...prev, [k]: v}` overwrites an existing key where it stands and adds a
 * new key at the end, so the object is an ordered list of entries.
 */
module Records {
  import opened Wrappers

  datatype Entry = Entry(key: string, value: string)

  predicate DistinctKeys(es: seq<Entry>) {
    forall i, j :: 0 <= i < j < |es| ==> es[i].key != es[j].key
  }

  /** `Object.keys(es)`, as a set. */
  function Keys(es: seq<Entry>): set<string> {
    if es == [] then {} else {es[0].key} + Keys(es[1..])
  }

  /** `es[k]`. */
  function Lookup(es: seq<Entry>, k: string): (r: Option<string>)
    ensures r.None? <==> k !in Keys(es)
  {
    if es == [] then None
    else if es[0].key == k then Some(es[0].value)
    else Lookup(es[1..], k)
  }

  /** `{...es, [k]: v}`: `k` now maps to `v`, every other key keeps its value. */
  function Put(es: seq<Entry>, k: string, v: string): (r: seq<Entry>)
    ensures Lookup(r, k) == Some(v)
    ensures forall k' :: k' != k ==> Lookup(r, k') == Lookup(es, k')
    ensures Keys(r) == Keys(es) + {k}
    ensures |r| == if k in Keys(es) then |es| else |es| + 1
  {
    if es == [] then [Entry(k, v)]
    else if es[0].key == k then [Entry(k, v)] + es[1..]
    else
      var rest := Put(es[1..], k, v);
      assert ([es[0]] + rest)[1..] == rest;
      [es[0]] + rest
  }

  /** Existing keys keep their positions; a new key goes at the end. */
  lemma {:induction false} PutKeepsOrder(es: seq<Entry>, k: string, v: string)
    ensures forall i :: 0 <= i < |es| ==> Put(es, k, v)[i].key == es[i].key
    ensures k !in Keys(es) ==> Put(es, k, v)[|es|] == Entry(k, v)
  {
    if es != [] && es[0].key != k {
      PutKeepsOrder(es[1..], k, v);
      var r := Put(es, k, v);
      assert r == [es[0]] + Put(es[1..], k, v);
    }
  }

  /** A key is in `Object.keys(es)` exactly when some entry carries it. */
  lemma {:induction false} KeysAt(es: seq<Entry>, k: string)
    ensures k in Keys(es) <==> exists i :: 0 <= i < |es| && es[i].key == k
  {
    if es != [] {
      KeysAt(es[1..], k);
      if k != es[0].key && exists i :: 0 <= i < |es| && es[i].key == k {
        var i :| 0 <= i < |es| && es[i].key == k;
        assert es[1..][i - 1].key == k;
      }
    }
  }

  lemma HeadKeyNotInTail(es: seq<Entry>)
    requires es != [] && DistinctKeys(es)
    ensures es[0].key !in Keys(es[1..])
  {
    KeysAt(es[1..], es[0].key);
    assert forall i :: 0 <= i < |es| - 1 ==> es[1..][i].key == es[i + 1].key;
  }

  /** `{...es, [k]: v}` never repeats a key. */
  lemma {:induction false} PutDistinct(es: seq<Entry>, k: string, v: string)
    requires DistinctKeys(es)
    ensures DistinctKeys(Put(es, k, v))
  {
    if es != [] && es[0].key != k {
      PutDistinct(es[1..], k, v);
      var rest := Put(es[1..], k, v);
      HeadKeyNotInTail(es);
      forall j | 0 <= j < |rest| ensures rest[j].key != es[0].key {
        KeysAt(rest, rest[j].key);
      }
    }
  }

  /** With distinct keys, `Object.keys(es).length` is the number of entries. */
  lemma {:induction false} KeysCount(es: seq<Entry>)
    requires DistinctKeys(es)
    ensures |Keys(es)| == |es|
  {
    if es != [] {
      HeadKeyNotInTail(es);
      KeysCount(es[1..]);
    }
  }
}
