/**
 * A JSON-like value domain for the payloads sent to the gateway and the
 * decoded responses it returns. PHP arrays with string keys are ordered, so an
 * object is an ordered list of key/value entries rather than a `map`.
 */
module Json {
  import opened Wrappers

  datatype Json =
    | Null
    | Bool(b: bool)
    | Int(i: int)
    | Str(s: string)
    | Arr(items: seq<Json>)
    | Obj(fields: seq<(string, Json)>)

  /** A PHP array with string keys, in insertion order. */
  type Object = seq<(string, Json)>

  /** The keys of an object, in order. */
  function Keys(o: Object): (ks: seq<string>)
    ensures forall k :: k in ks <==> exists v :: (k, v) in o
  {
    var ks := seq(|o|, i requires 0 <= i < |o| => o[i].0);
    forall k ensures k in ks <==> exists v :: (k, v) in o {
      if k in ks {
        var i :| 0 <= i < |ks| && ks[i] == k;
        assert (k, o[i].1) == o[i];
      }
      if exists v :: (k, v) in o {
        var v :| (k, v) in o;
        var i :| 0 <= i < |o| && o[i] == (k, v);
        assert ks[i] == k;
      }
    }
    ks
  }

  /** No key occurs twice, as in every PHP array. */
  predicate DistinctKeys(o: Object) {
    forall i, j :: 0 <= i < j < |o| ==> o[i].0 != o[j].0
  }

  /** `$o[k]`: the value stored under `k`, or `None` when the key is absent. */
  function Get(o: Object, k: string): (r: Option<Json>)
    ensures r.Some? <==> k in Keys(o)
    ensures r.Some? ==> (k, r.value) in o
  {
    if |o| == 0 then assert Keys(o) == []; None
    else if o[0].0 == k then Some(o[0].1)
    else
      assert Keys(o) == [o[0].0] + Keys(o[1..]);
      Get(o[1..], k)
  }

  /** Every entry whose key is `k` gets value `v`; the others are untouched. */
  function Overwrite(o: Object, k: string, v: Json): (r: Object)
    ensures Keys(r) == Keys(o)
  {
    seq(|o|, i requires 0 <= i < |o| => if o[i].0 == k then (k, v) else o[i])
  }

  lemma {:induction false} GetOverwrite(o: Object, k: string, v: Json, k': string)
    ensures Get(Overwrite(o, k, v), k') ==
              if k' == k then (if k in Keys(o) then Some(v) else None) else Get(o, k')
  {
    var r := Overwrite(o, k, v);
    if |o| > 0 {
      assert r[1..] == Overwrite(o[1..], k, v);
      assert Keys(o) == [o[0].0] + Keys(o[1..]);
      GetOverwrite(o[1..], k, v, k');
    }
  }

  lemma {:induction false} GetAppend(o: Object, k: string, v: Json, k': string)
    requires k !in Keys(o)
    ensures Get(o + [(k, v)], k') == if k' == k then Some(v) else Get(o, k')
  {
    var r := o + [(k, v)];
    if |o| > 0 {
      assert r[1..] == o[1..] + [(k, v)];
      assert Keys(o) == [o[0].0] + Keys(o[1..]);
      GetAppend(o[1..], k, v, k');
    }
  }

  /**
   * `array_merge($o, [$k => $v])` for a string key `$k`: an existing key keeps
   * its position and takes the new value; a new key is appended at the end.
   */
  function Put(o: Object, k: string, v: Json): (r: Object)
    ensures Get(r, k) == Some(v)
    ensures forall k' :: k' != k ==> Get(r, k') == Get(o, k')
    ensures Keys(r) == if k in Keys(o) then Keys(o) else Keys(o) + [k]
    ensures DistinctKeys(o) ==> DistinctKeys(r)
  {
    if k in Keys(o) then
      var r := Overwrite(o, k, v);
      assert forall k' :: Get(r, k') == if k' == k then Some(v) else Get(o, k') by {
        forall k' ensures Get(r, k') == if k' == k then Some(v) else Get(o, k') {
          GetOverwrite(o, k, v, k');
        }
      }
      r
    else
      var r := o + [(k, v)];
      assert forall k' :: Get(r, k') == if k' == k then Some(v) else Get(o, k') by {
        forall k' ensures Get(r, k') == if k' == k then Some(v) else Get(o, k') {
          GetAppend(o, k, v, k');
        }
      }
      assert |Keys(r)| == |Keys(o) + [k]|;
      assert forall i :: 0 <= i < |r| ==> Keys(r)[i] == (Keys(o) + [k])[i];
      r
  }

  /** Merging the same key/value twice is the same as merging it once. */
  lemma PutIdempotent(o: Object, k: string, v: Json)
    ensures Put(Put(o, k, v), k, v) == Put(o, k, v)
  {
    var once := Put(o, k, v);
    assert k in Keys(once);
    forall i | 0 <= i < |once| ensures Overwrite(once, k, v)[i] == once[i] {
      if once[i].0 == k {
        if k in Keys(o) {
          assert once[i] == (k, v);
        } else {
          assert Keys(once)[i] == k;
          assert i == |o|;
        }
      }
    }
  }
}
