/** Plain JavaScript objects used as dictionaries: string keys enumerated in insertion order
    (Object.keys), each key at most once. Spread-and-override `{ ...o, [k]: v }` and the
    assignment `o[k] = v` are Put; reading a missing key gives undefined, here None. */
module JsObjects {
  import opened Common
  import opened Seqs

  type Obj<V> = seq<(string, V)>

  function Keys<V>(o: Obj<V>): (ks: seq<string>)
    ensures |ks| == |o|
    ensures forall i :: 0 <= i < |o| ==> ks[i] == o[i].0
    decreases |o|
  {
    if o == [] then [] else [o[0].0] + Keys(o[1..])
  }

  /** Every key occurs once, as in any object the source builds. */
  predicate WellFormed<V>(o: Obj<V>)
  {
    NoDuplicates(Keys(o))
  }

  /** `o[k]`, with None for undefined. */
  function Lookup<V>(o: Obj<V>, k: string): (r: Option<V>)
    ensures r.Some? <==> k in Keys(o)
    decreases |o|
  {
    if o == [] then None
    else if o[0].0 == k then Some(o[0].1)
    else
      assert Keys(o) == [o[0].0] + Keys(o[1..]);
      Lookup(o[1..], k)
  }

  /** `{ ...o, [k]: v }`: a present key keeps its place and takes the new value; a new key is
      appended. */
  function Put<V>(o: Obj<V>, k: string, v: V): (r: Obj<V>)
    ensures Lookup(r, k) == Some(v)
    ensures forall k' :: k' != k ==> Lookup(r, k') == Lookup(o, k')
    ensures k in Keys(o) ==> Keys(r) == Keys(o)
    ensures k !in Keys(o) ==> Keys(r) == Keys(o) + [k]
    decreases |o|
  {
    if o == [] then [(k, v)]
    else if o[0].0 == k then
      var r := [(k, v)] + o[1..];
      assert r[1..] == o[1..];
      r
    else
      var t := Put(o[1..], k, v);
      var r := [o[0]] + t;
      assert r[1..] == t;
      assert Keys(o) == [o[0].0] + Keys(o[1..]);
      r
  }

  lemma PutWellFormed<V>(o: Obj<V>, k: string, v: V)
    requires WellFormed(o)
    ensures WellFormed(Put(o, k, v))
  {
  }
}
