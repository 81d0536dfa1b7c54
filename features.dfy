/** Shared vocabulary of the pipeline: optional values, feature vectors
    (a Python dict from feature name to float, kept in insertion order),
    absolute value and the "first maximum" selection that Python's `max`
    with a key function performs. */
module Features {

  datatype Option<T> = None | Some(value: T)

  /** A value, or the exception Python would raise instead, with its message. */
  datatype Result<T> = Ok(value: T) | Err(error: string)

  /** A JSON payload, as `json.dumps` serialises a Python dict. */
  datatype Json =
    | JNull
    | JBool(b: bool)
    | JInt(i: int)
    | JNum(n: real)
    | JStr(s: string)
    | JArr(elements: seq<Json>)
    | JObj(fields: seq<(string, Json)>)

  /** A feature vector: feature names with their values, in insertion order. */
  type FeatureVec = seq<(string, real)>

  function Abs(x: real): (r: real)
    ensures r >= 0.0 && (r == x || r == -x)
  {
    if x < 0.0 then -x else x
  }

  /** The names of a feature vector, in order. */
  function Names(fv: FeatureVec): (ns: seq<string>)
    ensures |ns| == |fv|
    ensures forall i :: 0 <= i < |fv| ==> ns[i] == fv[i].0
  {
    if fv == [] then [] else [fv[0].0] + Names(fv[1..])
  }

  /** A Python dict never holds a key twice. */
  predicate DistinctNames(fv: FeatureVec) {
    forall i, j :: 0 <= i < j < |fv| ==> fv[i].0 != fv[j].0
  }

  /** `fv.get(name)`: the value stored under `name`, if any. */
  function Get(fv: FeatureVec, name: string): (r: Option<real>)
    ensures r.None? <==> name !in Names(fv)
  {
    if fv == [] then None
    else if fv[0].0 == name then Some(fv[0].1)
    else Get(fv[1..], name)
  }

  /** A value `get` finds is stored under `name`, at the first position
      holding that name. */
  lemma {:induction false} GetFound(fv: FeatureVec, name: string)
    requires name in Names(fv)
    ensures exists i :: 0 <= i < |fv| && fv[i] == (name, Get(fv, name).value)
                          && (forall j :: 0 <= j < i ==> fv[j].0 != name)
  {
    if fv[0].0 != name {
      GetFound(fv[1..], name);
      var i :| 0 <= i < |fv[1..]| && fv[1..][i] == (name, Get(fv[1..], name).value)
        && forall j :: 0 <= j < i ==> fv[1..][j].0 != name;
      assert fv[i + 1] == (name, Get(fv, name).value);
      assert forall j :: 0 <= j < i + 1 ==> fv[j].0 != name by {
        forall j | 0 <= j < i + 1
          ensures fv[j].0 != name
        {
          if j > 0 {
            assert fv[j] == fv[1..][j - 1];
          }
        }
      }
    } else {
      assert fv[0] == (name, Get(fv, name).value);
    }
  }

  /** The position Python's `max(d, key=lambda k: key(d[k]))` picks: a position
      whose key is largest, the first such one in insertion order. */
  function ArgMax(fv: FeatureVec, key: real -> real): (i: nat)
    requires |fv| > 0
    ensures i < |fv|
    decreases |fv|
  {
    if |fv| == 1 then 0
    else
      var k := ArgMax(fv[..|fv| - 1], key);
      if key(fv[|fv| - 1].1) > key(fv[k].1) then |fv| - 1 else k
  }

  /** The position `ArgMax` picks has a largest key, and every earlier
      position has a strictly smaller one. */
  lemma {:induction false} ArgMaxIsFirstLargest(fv: FeatureVec, key: real -> real)
    requires |fv| > 0
    ensures var i := ArgMax(fv, key);
      && (forall j :: 0 <= j < |fv| ==> key(fv[j].1) <= key(fv[i].1))
      && (forall j :: 0 <= j < i ==> key(fv[j].1) < key(fv[i].1))
    decreases |fv|
  {
    if |fv| > 1 {
      var init := fv[..|fv| - 1];
      ArgMaxIsFirstLargest(init, key);
      assert forall j :: 0 <= j < |init| ==> init[j] == fv[j];
    }
  }

  /** The last `n` elements of `s`, or all of `s` when it is shorter. */
  function LastN<T>(s: seq<T>, n: nat): (r: seq<T>)
    ensures |r| == if |s| < n then |s| else n
  {
    if |s| <= n then s else s[|s| - n..]
  }

  /** Keeping the last `n` elements first and then appending changes nothing
      once the last `n` are taken again. */
  lemma LastNOfLastN<T>(s: seq<T>, xs: seq<T>, n: nat)
    ensures LastN(LastN(s, n) + xs, n) == LastN(s + xs, n)
  {
    var t := LastN(s, n);
    var a, b := LastN(t + xs, n), LastN(s + xs, n);
    assert |a| == |b|;
    forall i | 0 <= i < |a| ensures a[i] == b[i] {
      var j := |t + xs| - |a| + i;
      var j' := |s + xs| - |b| + i;
      if j' < |s| {
        assert (s + xs)[j'] == s[j'];
        assert j < |t| && t[j] == s[|s| - |t| + j];
      }
    }
  }

  /** One `deque.append` on a deque bounded by `n`: the oldest element is
      dropped when the deque is full. */
  lemma LastNSnoc<T>(s: seq<T>, x: T, n: nat)
    requires n > 0
    ensures LastN(s + [x], n) ==
      if |LastN(s, n)| == n then LastN(s, n)[1..] + [x] else LastN(s, n) + [x]
  {
    LastNOfLastN(s, [x], n);
  }

  /** The string key `f"{asset}:{point}"` that the ring buffer, the cooldown
      manager and (with the feature name appended) the baseline index by. */
  function JoinKey(asset: string, point: string): (k: string)
    ensures |k| == |asset| + 1 + |point| && k[|asset|] == ':'
    ensures k[..|asset|] == asset && k[|asset| + 1..] == point
  {
    asset + ":" + point
  }

  /** Joined keys are unambiguous as long as the asset name holds no `:`. */
  lemma JoinKeyInjective(a1: string, p1: string, a2: string, p2: string)
    requires ':' !in a1 && ':' !in a2
    requires JoinKey(a1, p1) == JoinKey(a2, p2)
    ensures a1 == a2 && p1 == p2
  {
  }

  /** Two different sensors whose joined keys coincide: their per-key state is shared. */
  lemma JoinKeyCollision()
    ensures ("pump:1", "de") != ("pump", "1:de")
    ensures JoinKey("pump:1", "de") == JoinKey("pump", "1:de")
  {
  }
}
