/** The Python values and dicts that the serving layer builds and hands around.

    A dict is kept as its entries in insertion order, because both front doors
    build their record as a dict literal whose key order is part of the
    contract. Lookup follows Python: the value stored under the key. */
module Dicts {

  datatype Option<T> = None | Some(value: T)

  /** A Python `str`, `int` or `float` held in a dict. Floats are exact reals
      here: IEEE rounding is not part of this model. */
  datatype Value = Str(s: string) | Int(i: int) | Float(x: real)

  /** A dict, as the list of its (key, value) entries in insertion order. */
  type Object = seq<(string, Value)>

  /** The keys of a dict, in insertion order (`list(d.keys())`). */
  function Keys(d: Object): seq<string>
  {
    seq(|d|, i requires 0 <= i < |d| => d[i].0)
  }

  /** No key occurs twice: true of every dict Python builds. */
  predicate Distinct(ks: seq<string>)
  {
    forall i, j | 0 <= i < j < |ks| :: ks[i] != ks[j]
  }

  /** `d.get(k)`: the value stored under `k`, or `None` when `k` is absent. */
  function Get(d: Object, k: string): Option<Value>
  {
    if d == [] then None
    else if d[0].0 == k then Some(d[0].1)
    else Get(d[1..], k)
  }

  /** In a dict with distinct keys, looking up the key of an entry gives that
      entry's value. */
  lemma {:induction false} GetAt(d: Object, i: nat)
    requires Distinct(Keys(d))
    requires i < |d|
    ensures Get(d, d[i].0) == Some(d[i].1)
  {
    if i > 0 {
      assert Keys(d)[0] != Keys(d)[i];
      assert Keys(d[1..]) == Keys(d)[1..];
      GetAt(d[1..], i - 1);
    }
  }

  /** A dict whose entries carry the keys `ks`, one by one, has keys `ks`. */
  lemma KeysAre(d: Object, ks: seq<string>)
    requires |d| == |ks|
    requires forall i | 0 <= i < |d| :: d[i].0 == ks[i]
    ensures Keys(d) == ks
  {
  }
}
