/**
 * A JavaScript object used as a dictionary: its own enumerable properties in insertion
 * order, which is the order `Object.keys`, `Object.values` and `Object.entries` report.
 * `Get` is a property read (`o[k]`) and `Put` a property assignment (`o[k] = v`): an
 * existing property keeps its position and gets the new value, a new one is appended.
 * A real object never has two properties with the same name; every object the model
 * builds with `Put` keeps that invariant (`DistinctKeys`).
 */
module JsObject {
  import opened Wrappers

  type Object<V> = seq<(string, V)>

  function Keys<V>(o: Object<V>): seq<string> {
    seq(|o|, i requires 0 <= i < |o| => o[i].0)
  }

  function Values<V>(o: Object<V>): seq<V> {
    seq(|o|, i requires 0 <= i < |o| => o[i].1)
  }

  predicate DistinctKeys<V>(o: Object<V>) {
    forall i, j :: 0 <= i < j < |o| ==> o[i].0 != o[j].0
  }

  predicate Distinct(s: seq<string>) {
    forall i, j :: 0 <= i < j < |s| ==> s[i] != s[j]
  }

  /** Position of the first property named `k`. */
  function IndexOf<V>(o: Object<V>, k: string): (r: Option<nat>)
    ensures r.Some? ==> r.value < |o| && o[r.value].0 == k
    ensures r.Some? ==> forall j :: 0 <= j < r.value ==> o[j].0 != k
    ensures r.None? <==> forall j :: 0 <= j < |o| ==> o[j].0 != k
    ensures r.None? <==> k !in Keys(o)
  {
    if |o| == 0 then None
    else if o[0].0 == k then assert Keys(o)[0] == k; Some(0)
    else
      assert Keys(o) == [o[0].0] + Keys(o[1..]);
      match IndexOf(o[1..], k)
      case None => None
      case Some(i) => Some(i + 1)
  }

  /** `o[k]`: the value of property `k`, or `None` for `undefined`. */
  function Get<V>(o: Object<V>, k: string): Option<V> {
    match IndexOf(o, k)
    case None => None
    case Some(i) => Some(o[i].1)
  }

  /** `o[k] = v`. */
  function Put<V>(o: Object<V>, k: string, v: V): (r: Object<V>)
    ensures Get(r, k) == Some(v)
    ensures forall k' :: k' != k ==> Get(r, k') == Get(o, k')
    ensures k in Keys(o) ==> Keys(r) == Keys(o)
    ensures k !in Keys(o) ==> Keys(r) == Keys(o) + [k]
    ensures DistinctKeys(o) ==> DistinctKeys(r)
  {
    match IndexOf(o, k)
    case Some(i) =>
      var r := o[i := (k, v)];
      assert Keys(o)[i] == k;
      assert Keys(r) == Keys(o);
      IndexOfSameKeys(o, r);
      r
    case None =>
      var r := o + [(k, v)];
      assert Keys(r) == Keys(o) + [k];
      assert forall j :: 0 <= j < |o| ==> r[j] == o[j];
      assert r[|o|].0 == k;
      assert IndexOf(r, k) == Some(|o|);
      r
  }

  /** Assigning a property the object does not have appends it. */
  lemma PutNew<V>(o: Object<V>, k: string, v: V)
    requires k !in Keys(o)
    ensures Put(o, k, v) == o + [(k, v)]
  {
    assert IndexOf(o, k).None?;
  }

  /** The object built by assigning `pairs` one after the other, starting from `{}`. */
  function PutAll<V>(pairs: seq<(string, V)>): Object<V> {
    if |pairs| == 0 then []
    else Put(PutAll(pairs[..|pairs| - 1]), pairs[|pairs| - 1].0, pairs[|pairs| - 1].1)
  }

  /** Assigning pairs with distinct names yields exactly those properties, in order. */
  lemma {:induction false} PutAllDistinct<V>(pairs: seq<(string, V)>)
    requires DistinctKeys(pairs)
    ensures PutAll(pairs) == pairs
  {
    if |pairs| > 0 {
      var prev := pairs[..|pairs| - 1];
      PutAllDistinct(prev);
      var k := pairs[|pairs| - 1].0;
      assert k !in Keys(prev) by {
        forall j | 0 <= j < |prev| ensures prev[j].0 != k {
          assert prev[j] == pairs[j];
        }
      }
      PutNew(prev, k, pairs[|pairs| - 1].1);
      assert prev + [pairs[|pairs| - 1]] == pairs;
    }
  }

  /** The same, for pairs whose names are given as a sequence of distinct names. */
  lemma PutAllKeyed<V>(pairs: seq<(string, V)>, keys: seq<string>)
    requires Keys(pairs) == keys && Distinct(keys)
    ensures PutAll(pairs) == pairs
  {
    forall i, j | 0 <= i < j < |pairs| ensures pairs[i].0 != pairs[j].0 {
      assert Keys(pairs)[i] == pairs[i].0 && Keys(pairs)[j] == pairs[j].0;
    }
    PutAllDistinct(pairs);
  }

  /** After assigning `pairs` in order, a name holds the value of its last assignment. */
  lemma {:induction false} PutAllLast<V>(pairs: seq<(string, V)>, i: nat)
    requires i < |pairs|
    requires forall j :: i < j < |pairs| ==> pairs[j].0 != pairs[i].0
    ensures Get(PutAll(pairs), pairs[i].0) == Some(pairs[i].1)
  {
    if i < |pairs| - 1 {
      PutAllLast(pairs[..|pairs| - 1], i);
    }
  }

  /** A name never assigned is not a property of the result. */
  lemma {:induction false} PutAllAbsent<V>(pairs: seq<(string, V)>, k: string)
    requires forall j :: 0 <= j < |pairs| ==> pairs[j].0 != k
    ensures Get(PutAll(pairs), k).None?
  {
    if |pairs| > 0 {
      PutAllAbsent(pairs[..|pairs| - 1], k);
    }
  }

  /** The object built by a run of assignments, some of them skipped (`None`). */
  function PutEach<V>(ops: seq<Option<(string, V)>>): Object<V> {
    if |ops| == 0 then []
    else
      var prev := PutEach(ops[..|ops| - 1]);
      match ops[|ops| - 1]
      case None => prev
      case Some(p) => Put(prev, p.0, p.1)
  }

  /** A name holds the value of its last assignment. */
  lemma {:induction false} PutEachLast<V>(ops: seq<Option<(string, V)>>, i: nat)
    requires i < |ops| && ops[i].Some?
    requires forall j :: i < j < |ops| && ops[j].Some? ==> ops[j].value.0 != ops[i].value.0
    ensures Get(PutEach(ops), ops[i].value.0) == Some(ops[i].value.1)
  {
    if i < |ops| - 1 {
      PutEachLast(ops[..|ops| - 1], i);
    }
  }

  /** A name never assigned is not a property of the result. */
  lemma {:induction false} PutEachAbsent<V>(ops: seq<Option<(string, V)>>, k: string)
    requires forall j :: 0 <= j < |ops| && ops[j].Some? ==> ops[j].value.0 != k
    ensures Get(PutEach(ops), k).None?
  {
    if |ops| > 0 {
      PutEachAbsent(ops[..|ops| - 1], k);
    }
  }

  /** The position of a property depends only on the sequence of names. */
  lemma IndexOfSameKeys<V>(a: Object<V>, b: Object<V>)
    requires Keys(a) == Keys(b)
    ensures forall k :: IndexOf(a, k) == IndexOf(b, k)
  {
    forall k ensures IndexOf(a, k) == IndexOf(b, k) {
      assert |a| == |Keys(a)| == |b|;
      assert forall j :: 0 <= j < |a| ==> a[j].0 == Keys(a)[j] == b[j].0;
    }
  }

  /** `Object.values(o)` with `f` applied: the same names, in the same order. */
  function MapValues<V, W>(o: Object<V>, f: V -> W): (r: Object<W>)
    ensures |r| == |o|
    ensures forall i :: 0 <= i < |o| ==> r[i] == (o[i].0, f(o[i].1))
  {
    seq(|o|, i requires 0 <= i < |o| => (o[i].0, f(o[i].1)))
  }

  /**
   * `Object.keys(o).slice(0, n).reduce((acc, k) => { acc[k] = f(o[k]); return acc; }, {})`.
   */
  function RebuildByKeys<V, W>(o: Object<V>, f: V -> W, n: nat): Object<W>
    requires n <= |o|
  {
    if n == 0 then []
    else
      var k := o[n - 1].0;
      var v := IndexOf(o, k);
      assert v.Some?;
      Put(RebuildByKeys(o, f, n - 1), k, f(o[v.value].1))
  }

  /**
   * Rebuilding an object key by key, as the route handlers do with `reduce`, yields the
   * same object as mapping over its values: names, order and values.
   */
  lemma {:induction false} RebuildByKeysIsMapValues<V, W>(o: Object<V>, f: V -> W, n: nat)
    requires DistinctKeys(o) && n <= |o|
    ensures RebuildByKeys(o, f, n) == MapValues(o[..n], f)
  {
    if n > 0 {
      RebuildByKeysIsMapValues(o, f, n - 1);
      var prev := RebuildByKeys(o, f, n - 1);
      var k := o[n - 1].0;
      assert IndexOf(o, k) == Some(n - 1);
      assert RebuildByKeys(o, f, n) == Put(prev, k, f(o[n - 1].1));
      assert k !in Keys(prev) by {
        forall j | 0 <= j < |prev| ensures prev[j].0 != k {
          assert prev[j].0 == o[j].0;
        }
      }
      MapValuesSnoc(o, f, n);
    }
  }

  lemma MapValuesSnoc<V, W>(o: Object<V>, f: V -> W, n: nat)
    requires 0 < n <= |o|
    ensures MapValues(o[..n], f) == MapValues(o[..n - 1], f) + [(o[n - 1].0, f(o[n - 1].1))]
  {
  }

  /** Property reads on an object with distinct names find the property at its position. */
  lemma GetAt<V>(o: Object<V>, i: nat)
    requires DistinctKeys(o) && i < |o|
    ensures Get(o, o[i].0) == Some(o[i].1)
  {
    assert IndexOf(o, o[i].0) == Some(i);
  }
}
