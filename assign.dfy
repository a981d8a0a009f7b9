/**
 * A run of property assignments `m[k] = v` on a JavaScript object used as a
 * dictionary, written in order; a later write to a key replaces an earlier one.
 */
module Assign {
  import opened Wrappers

  /** `base` after `m[keys[j].value] = vals[j]` for each `j` in order whose key is present. */
  ghost function Assigned<V>(base: map<string, V>, keys: seq<Option<string>>, vals: seq<V>): map<string, V>
    requires |keys| == |vals|
    decreases |keys|
  {
    if keys == [] then base
    else
      var m := Assigned(base, keys[..|keys| - 1], vals[..|vals| - 1]);
      var k := keys[|keys| - 1];
      if k.Some? then m[k.value := vals[|vals| - 1]] else m
  }

  /** One more write on top of a run of writes. */
  lemma AssignedStep<V>(base: map<string, V>, keys: seq<Option<string>>, vals: seq<V>, k: Option<string>, v: V)
    requires |keys| == |vals|
    ensures Assigned(base, keys + [k], vals + [v]) ==
      if k.Some? then Assigned(base, keys, vals)[k.value := v] else Assigned(base, keys, vals)
  {
    assert (keys + [k])[..|keys|] == keys;
    assert (vals + [v])[..|vals|] == vals;
  }

  /** Write `j` is the last one to key `k`. */
  ghost predicate LastWrite(keys: seq<Option<string>>, k: string, j: int) {
    0 <= j < |keys| && keys[j] == Some(k) && forall i :: j < i < |keys| ==> keys[i] != Some(k)
  }

  /** The keys afterwards are the keys before and every key written. */
  lemma {:induction false} AssignedKeys<V>(base: map<string, V>, keys: seq<Option<string>>, vals: seq<V>, k: string)
    requires |keys| == |vals|
    ensures k in Assigned(base, keys, vals) <==> k in base || Some(k) in keys
  {
    if keys != [] {
      AssignedKeys(base, keys[..|keys| - 1], vals[..|vals| - 1], k);
      assert keys == keys[..|keys| - 1] + [keys[|keys| - 1]];
    }
  }

  /** A written key holds the value of its last write. */
  lemma {:induction false} AssignedLastWrite<V>(base: map<string, V>, keys: seq<Option<string>>, vals: seq<V>, k: string, j: int)
    requires |keys| == |vals|
    requires LastWrite(keys, k, j)
    ensures k in Assigned(base, keys, vals) && Assigned(base, keys, vals)[k] == vals[j]
  {
    if j < |keys| - 1 {
      AssignedLastWrite(base, keys[..|keys| - 1], vals[..|vals| - 1], k, j);
    }
  }

  /** A key that is never written keeps its value, or stays absent. */
  lemma {:induction false} AssignedUnwritten<V>(base: map<string, V>, keys: seq<Option<string>>, vals: seq<V>, k: string)
    requires |keys| == |vals|
    requires Some(k) !in keys
    ensures k in Assigned(base, keys, vals) <==> k in base
    ensures k in base ==> Assigned(base, keys, vals)[k] == base[k]
  {
    if keys != [] {
      AssignedUnwritten(base, keys[..|keys| - 1], vals[..|vals| - 1], k);
    }
  }
}
