/**
 * PHP values as they come out of a normalised configuration tree: scalars and
 * ordered arrays with string keys. An array is a sequence of key/value pairs in
 * insertion order; PHP never lets a key occur twice, which `DistinctKeys` states.
 */
module Php {

  datatype Option<+T> = None | Some(value: T)

  /**
   * A configuration value: null, a boolean, an integer, a string or an array.
   * Distinct constructors are never `===`, so `1` and `"1"` differ. Floats are not modelled.
   */
  datatype Value = Null | Bool(b: bool) | Int(i: int) | Str(s: string) | Arr(entries: seq<(string, Value)>)

  /** An ordered PHP array with string keys. */
  type PhpArray = seq<(string, Value)>

  /** The keys of an array, in insertion order (`array_keys`). */
  function Keys(arr: PhpArray): seq<string> {
    seq(|arr|, i requires 0 <= i < |arr| => arr[i].0)
  }

  /** The values of an array, in insertion order (what `foreach ($a as $v)` visits). */
  function Values(arr: PhpArray): seq<Value> {
    seq(|arr|, i requires 0 <= i < |arr| => arr[i].1)
  }

  /** PHP arrays never hold the same key twice. */
  predicate DistinctKeys(arr: PhpArray) {
    forall i, j | 0 <= i < j < |arr| :: arr[i].0 != arr[j].0
  }

  /** Some element occurs twice, compared strictly (`===`). */
  predicate HasDuplicates<T(==)>(s: seq<T>) {
    exists i, j | 0 <= i < j < |s| :: s[i] == s[j]
  }

  /** `isset`-like lookup: the value stored under `k`, if any. */
  function Lookup(arr: PhpArray, k: string): (r: Option<Value>)
    ensures r.Some? <==> k in Keys(arr)
    ensures r.Some? ==> exists i | 0 <= i < |arr| :: arr[i] == (k, r.value)
  {
    if arr == [] then None
    else if arr[0].0 == k then
      assert Keys(arr)[0] == k;
      Some(arr[0].1)
    else
      assert Keys(arr) == [arr[0].0] + Keys(arr[1..]);
      var r := Lookup(arr[1..], k);
      if r.Some? then
        var i :| 0 <= i < |arr[1..]| && arr[1..][i] == (k, r.value);
        assert arr[i + 1] == (k, r.value);
        r
      else r
  }

  /** `$arr[$k]`: the stored value, or null (with a notice) when the key is absent. */
  function Index(arr: PhpArray, k: string): Value {
    match Lookup(arr, k)
    case Some(v) => v
    case None => Null
  }

  /** `$v[$k]` on a value that may not be an array: null unless `$v` is an array holding `$k`. */
  function Field(v: Value, k: string): Value {
    if v.Arr? then Index(v.entries, k) else Null
  }

  /** `$v` is an array that holds the key `$k`. */
  predicate HasField(v: Value, k: string) {
    v.Arr? && k in Keys(v.entries)
  }

  /** `key($arr)` on a freshly built array: its first key, or null when it is empty. */
  function FirstKey(arr: PhpArray): Option<string> {
    if arr == [] then None else Some(arr[0].0)
  }

  /**
   * `$arr[$k] = $v`: an existing key keeps its position and takes the new value,
   * a new key is appended at the end (see the two lemmas below).
   */
  function Assign(arr: PhpArray, k: string, v: Value): PhpArray {
    if arr == [] then [(k, v)]
    else if arr[0].0 == k then [(k, v)] + arr[1..]
    else [arr[0]] + Assign(arr[1..], k, v)
  }

  /** Assigning a key the array does not hold yet appends exactly one entry. */
  lemma {:induction false} AssignFreshKeyAppends(arr: PhpArray, k: string, v: Value)
    requires k !in Keys(arr)
    ensures Assign(arr, k, v) == arr + [(k, v)]
  {
    if arr != [] {
      assert Keys(arr)[0] == arr[0].0;
      assert Keys(arr) == [arr[0].0] + Keys(arr[1..]);
      AssignFreshKeyAppends(arr[1..], k, v);
      assert arr == [arr[0]] + arr[1..];
    }
  }

  /** Assigning a key the array already holds (once) overwrites it in place. */
  lemma {:induction false} AssignExistingKeyReplaces(arr: PhpArray, i: nat, v: Value)
    requires DistinctKeys(arr) && i < |arr|
    ensures Assign(arr, arr[i].0, v) == arr[i := (arr[i].0, v)]
  {
    if i > 0 {
      assert arr[0].0 != arr[i].0;
      assert arr[1..][i - 1] == arr[i];
      AssignExistingKeyReplaces(arr[1..], i - 1, v);
      assert arr[i := (arr[i].0, v)] == [arr[0]] + arr[1..][i - 1 := (arr[i].0, v)];
    }
  }

  /** In an array with distinct keys, looking up the key at position `i` finds the value at `i`. */
  lemma {:induction false} LookupAt(arr: PhpArray, i: nat)
    requires DistinctKeys(arr) && i < |arr|
    ensures Lookup(arr, arr[i].0) == Some(arr[i].1)
  {
    if i > 0 {
      assert arr[0].0 != arr[i].0;
      assert arr[1..][i - 1] == arr[i];
      LookupAt(arr[1..], i - 1);
    }
  }
}
