/** Shared value types of the interview coach: an optional value, reductions over
    score lists, and an insertion-ordered dictionary standing in for Python's `dict`
    where the order of its keys is observable. */
module Common {

  datatype Option<T> = None | Some(value: T)

  /** Sum of a list of scores, accumulated front to back like `sum(...)` or a `+=` loop. */
  function Sum(s: seq<real>): real
  {
    if s == [] then 0.0 else Sum(s[..|s| - 1]) + s[|s| - 1]
  }

  /** The mean of a list of scores; 0 for the empty list, as every average in the
      Python code guards its division with a length check. */
  function Mean(s: seq<real>): real
  {
    if |s| == 0 then 0.0 else Sum(s) / (|s| as real)
  }

  lemma {:induction false} SumBounds(s: seq<real>, lo: real, hi: real)
    requires forall i :: 0 <= i < |s| ==> lo <= s[i] <= hi
    ensures (|s| as real) * lo <= Sum(s) <= (|s| as real) * hi
  {
    if s != [] {
      SumBounds(s[..|s| - 1], lo, hi);
    }
  }

  /** A mean of values that all lie in [lo, hi] lies in [lo, hi] too. */
  lemma MeanBounds(s: seq<real>, lo: real, hi: real)
    requires |s| > 0
    requires forall i :: 0 <= i < |s| ==> lo <= s[i] <= hi
    ensures lo <= Mean(s) <= hi
  {
    SumBounds(s, lo, hi);
    var n := |s| as real;
    assert Mean(s) * n == Sum(s);
  }

  /** The raw representation of an insertion-ordered dictionary: the keys in
      insertion order and the value of each key. */
  datatype RawDict<V> = RawDict(keys: seq<string>, values: map<string, V>)

  ghost predicate DictInvariant<V>(d: RawDict<V>)
  {
    && (forall i, j :: 0 <= i < j < |d.keys| ==> d.keys[i] != d.keys[j])
    && (forall k :: k in d.values <==> k in d.keys)
  }

  /** Storing under a key twice keeps only the second value. */
  lemma UpdateTwice<K, V>(m: map<K, V>, k: K, a: V, b: V)
    ensures m[k := a][k := b] == m[k := b]
  {
  }

  /** A Python `dict` with string keys: every key once, in insertion order. */
  type Dict<V> = d: RawDict<V> | DictInvariant(d) witness RawDict([], map[])

  function EmptyDict<V>(): (d: Dict<V>)
    ensures d.keys == [] && d.values == map[]
  {
    RawDict([], map[])
  }

  /** `d[k] = v`: an existing key keeps its place, a new key goes last. */
  function Put<V>(d: Dict<V>, k: string, v: V): (r: Dict<V>)
    ensures r.values == d.values[k := v]
    ensures r.keys == if k in d.values then d.keys else d.keys + [k]
  {
    RawDict(if k in d.values then d.keys else d.keys + [k], d.values[k := v])
  }

  /** `d.get(k, fallback)`. */
  function GetOr<V>(d: Dict<V>, k: string, fallback: V): V
  {
    if k in d.values then d.values[k] else fallback
  }

  /** `list(d.items())`: the (key, value) pairs in key order. */
  function Items<V>(d: Dict<V>): (r: seq<(string, V)>)
    ensures |r| == |d.keys|
    ensures forall i :: 0 <= i < |r| ==> r[i].0 == d.keys[i] && r[i].0 in d.values && r[i].1 == d.values[r[i].0]
  {
    seq(|d.keys|, i requires 0 <= i < |d.keys| => (d.keys[i], d.values[d.keys[i]]))
  }

  /** `list(d.values())`, in key order. */
  function Values<V>(d: Dict<V>): (r: seq<V>)
    ensures |r| == |d.keys|
    ensures forall i :: 0 <= i < |r| ==> r[i] == d.values[d.keys[i]]
  {
    seq(|d.keys|, i requires 0 <= i < |d.keys| => d.values[d.keys[i]])
  }
}
