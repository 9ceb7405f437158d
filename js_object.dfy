/** A plain JavaScript object seen through `Object.entries`: its own properties, in
    enumeration order, each key once. Spreading an object and then writing one key,
    `{...o, k: v}`, is `Put(o, k, v)`. */
module JsObject {
  import opened Wrappers

  type Object = seq<(string, string)>

  predicate DistinctKeys(o: Object)
  {
    forall i, j :: 0 <= i < j < |o| ==> o[i].0 != o[j].0
  }

  /** Position of the property `k`, if the object has one. */
  function IndexOf(o: Object, k: string): (r: Option<nat>)
    ensures r.Some? ==> r.value < |o| && o[r.value].0 == k && forall j :: 0 <= j < r.value ==> o[j].0 != k
    ensures r.None? ==> forall j :: 0 <= j < |o| ==> o[j].0 != k
  {
    if o == [] then None
    else if o[0].0 == k then Some(0)
    else match IndexOf(o[1..], k)
      case None => None
      case Some(i) => Some(i + 1)
  }

  /** `o[k]`, `undefined` when absent. */
  function Get(o: Object, k: string): (r: Option<string>)
    ensures r.Some? <==> IndexOf(o, k).Some?
    ensures r.Some? ==> r.value == o[IndexOf(o, k).value].1
  {
    match IndexOf(o, k)
    case None => None
    case Some(i) => Some(o[i].1)
  }

  /** `{...o, k: v}`: an existing `k` keeps its position and takes the new value;
      otherwise `k` is added last. */
  function Put(o: Object, k: string, v: string): (r: Object)
    ensures IndexOf(o, k).Some? ==> r == o[IndexOf(o, k).value := (k, v)]
    ensures IndexOf(o, k).None? ==> r == o + [(k, v)]
  {
    if o == [] then [(k, v)]
    else if o[0].0 == k then [(k, v)] + o[1..]
    else [o[0]] + Put(o[1..], k, v)
  }

  /** The first position holding `k` is the one `IndexOf` reports. */
  lemma IndexOfFirst(o: Object, k: string, i: nat)
    requires i < |o| && o[i].0 == k
    requires forall j :: 0 <= j < i ==> o[j].0 != k
    ensures IndexOf(o, k) == Some(i)
  {
    match IndexOf(o, k)
    case None =>
    case Some(x) =>
  }

  /** A key absent from the object is reported absent. */
  lemma IndexOfAbsent(o: Object, k: string)
    requires forall j :: 0 <= j < |o| ==> o[j].0 != k
    ensures IndexOf(o, k) == None
  {
  }

  /** Writing a key keeps the keys distinct. */
  lemma PutDistinct(o: Object, k: string, v: string)
    requires DistinctKeys(o)
    ensures DistinctKeys(Put(o, k, v))
  {
    var r := Put(o, k, v);
    match IndexOf(o, k)
    case None =>
      assert r == o + [(k, v)];
      forall i, j | 0 <= i < j < |r| ensures r[i].0 != r[j].0 {
        if j == |o| { assert r[i] == o[i]; } else { assert r[i] == o[i] && r[j] == o[j]; }
      }
    case Some(x) =>
      assert r == o[x := (k, v)];
      forall i, j | 0 <= i < j < |r| ensures r[i].0 != r[j].0 {
        assert r[i].0 == o[i].0 && r[j].0 == o[j].0;
      }
  }

  /** After `Put`, `k` reads `v` and the keys stay distinct. */
  lemma PutGet(o: Object, k: string, v: string)
    requires DistinctKeys(o)
    ensures DistinctKeys(Put(o, k, v))
    ensures Get(Put(o, k, v), k) == Some(v)
    ensures |Put(o, k, v)| == if IndexOf(o, k).Some? then |o| else |o| + 1
  {
    PutDistinct(o, k, v);
    var r := Put(o, k, v);
    match IndexOf(o, k)
    case None =>
      IndexOfFirst(r, k, |o|);
    case Some(i) =>
      IndexOfFirst(r, k, i);
  }

  /** After `Put`, every other key reads what it read before, at the same position. */
  lemma PutOther(o: Object, k: string, v: string, k': string)
    requires k' != k
    ensures IndexOf(Put(o, k, v), k') == IndexOf(o, k')
    ensures Get(Put(o, k, v), k') == Get(o, k')
  {
    var r := Put(o, k, v);
    match IndexOf(o, k')
    case None =>
      IndexOfAbsent(r, k');
    case Some(i) =>
      IndexOfFirst(r, k', i);
  }
}
