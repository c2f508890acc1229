/**
 * The slice of PHP's value model that FCMService relies on: ordered arrays whose
 * keys are integers or strings, `$a[$k]` reads and `$a[$k] = $v` writes,
 * `array_values`, strict comparison `===`, and `empty()` on nullable strings.
 */
module PhpArray {
  import opened Wrappers

  /** An array key. PHP stores a string key that `IsIntegerKeyString` accepts as the
      integer it spells, so an array built by PHP never holds such a `StrKey`. */
  datatype Key = IntKey(i: int) | StrKey(s: string)

  predicate IsDigit(c: char) { '0' <= c <= '9' }

  /** A canonical decimal integer: "0", or an optional "-" then a digit other than "0"
      and further digits. (PHP also requires the value to fit a machine integer; longer
      strings are accepted here too.) */
  predicate IsIntegerKeyString(s: string) {
    s == "0"
    || (|s| > 0 && '1' <= s[0] <= '9' && forall i :: 1 <= i < |s| ==> IsDigit(s[i]))
    || (|s| > 1 && s[0] == '-' && '1' <= s[1] <= '9' && forall i :: 2 <= i < |s| ==> IsDigit(s[i]))
  }

  /** A PHP value as far as a notification payload uses one (floats and objects
      are not part of this model). */
  datatype Value =
    | VNull
    | VBool(b: bool)
    | VInt(n: int)
    | VStr(s: string)
    | VArr(entries: seq<(Key, Value)>)

  /** A PHP array: its entries in insertion order. */
  type Arr = seq<(Key, Value)>

  /** The keys of an array, in order. */
  function Keys(a: Arr): seq<Key> {
    seq(|a|, i requires 0 <= i < |a| => a[i].0)
  }

  /** PHP guarantees that no key occurs twice in an array. */
  ghost predicate DistinctKeys(a: Arr) {
    forall i, j :: 0 <= i < j < |a| ==> a[i].0 != a[j].0
  }

  /** `$a[$k]`: the value stored under `k`, `None` when `k` is not a key of `a`. */
  function Lookup(a: Arr, k: Key): (r: Option<Value>)
    ensures r.None? <==> k !in Keys(a)
    ensures r.Some? ==> exists i :: 0 <= i < |a| && a[i] == (k, r.value) && k !in Keys(a[..i])
  {
    if |a| == 0 then None
    else if a[0].0 == k then
      assert Keys(a)[0] == k && a[..0] == [];
      Some(a[0].1)
    else
      var r := Lookup(a[1..], k);
      assert Keys(a) == [a[0].0] + Keys(a[1..]);
      if r.Some? then
        var i :| 0 <= i < |a[1..]| && a[1..][i] == (k, r.value) && k !in Keys(a[1..][..i]);
        assert Keys(a[..i + 1]) == [a[0].0] + Keys(a[1..][..i]);
        r
      else
        r
  }

  /** The keys of an array that starts with `x`. */
  lemma KeysCons(x: (Key, Value), a: Arr)
    ensures Keys([x] + a) == [x.0] + Keys(a)
  {
  }

  /** `$a[$k] = $v`: overwrite the entry for `k` where it stands, or append a new
      entry at the end when `k` is not yet a key. */
  function Assign(a: Arr, k: Key, v: Value): (r: Arr)
    ensures Lookup(r, k) == Some(v)
    ensures forall k' :: k' != k ==> Lookup(r, k') == Lookup(a, k')
  {
    if |a| == 0 then [(k, v)]
    else if a[0].0 == k then [(k, v)] + a[1..]
    else [a[0]] + Assign(a[1..], k, v)
  }

  /** A write keeps the key order: an existing key stays where it is, a new key goes last. */
  lemma {:induction false} AssignKeys(a: Arr, k: Key, v: Value)
    ensures Keys(Assign(a, k, v)) == if k in Keys(a) then Keys(a) else Keys(a) + [k]
  {
    if |a| > 0 {
      KeysCons(a[0], a[1..]);
      assert [a[0]] + a[1..] == a;
      if a[0].0 == k {
        KeysCons((k, v), a[1..]);
      } else {
        AssignKeys(a[1..], k, v);
        KeysCons(a[0], Assign(a[1..], k, v));
      }
    }
  }

  /** Writing into an array keeps its keys distinct. */
  lemma AssignKeepsKeysDistinct(a: Arr, k: Key, v: Value)
    requires DistinctKeys(a)
    ensures DistinctKeys(Assign(a, k, v))
  {
    var r := Assign(a, k, v);
    AssignKeys(a, k, v);
    forall i, j | 0 <= i < j < |r| ensures r[i].0 != r[j].0 {
      assert Keys(r)[i] == r[i].0 && Keys(r)[j] == r[j].0;
      if k in Keys(a) {
        assert Keys(a)[i] == a[i].0 && Keys(a)[j] == a[j].0;
      } else if j < |a| {
        assert Keys(a)[i] == a[i].0 && Keys(a)[j] == a[j].0;
      } else {
        assert Keys(a)[i] == a[i].0;
      }
    }
  }

  /** Writing a key the array does not have appends it and keeps the keys distinct. */
  lemma AssignNewKey(a: Arr, k: Key, v: Value)
    requires DistinctKeys(a) && k !in Keys(a)
    ensures Keys(Assign(a, k, v)) == Keys(a) + [k]
    ensures DistinctKeys(Assign(a, k, v))
  {
    AssignKeys(a, k, v);
    AssignKeepsKeysDistinct(a, k, v);
  }

  /** `array_values($a)`: the values of `a` in order, renumbered 0, 1, ..., n-1. */
  function ArrayValues(a: Arr): Arr {
    seq(|a|, i requires 0 <= i < |a| => (IntKey(i), a[i].1))
  }

  /** A list: the keys are exactly 0, 1, ..., n-1, in this order
      (what PHP 8.1 calls `array_is_list`). */
  predicate IsList(a: Arr) {
    forall i :: 0 <= i < |a| ==> a[i].0 == IntKey(i)
  }

  /** `array_values($a) === $a` holds exactly for lists. Arrays compare with `===`
      when they hold the same key/value pairs in the same order with the same types,
      which is equality of the `Value`s modelled here. */
  lemma ArrayValuesFixedIffList(a: Arr)
    ensures ArrayValues(a) == a <==> IsList(a)
  {
  }

  /** `empty($s)` for a string: true of `""` and of `"0"`. The same two strings are
      the falsy ones in a condition such as `if ($s)`. */
  predicate StringIsEmpty(s: string) {
    s == "" || s == "0"
  }

  /** `empty($s)` for a nullable string: null counts as empty too. */
  predicate NullableStringIsEmpty(s: Option<string>) {
    s.None? || StringIsEmpty(s.value)
  }

  /** `$v[$k1][$k2]...`: follow a path of keys through nested arrays. */
  function Path(v: Value, path: seq<Key>): Option<Value>
    decreases |path|
  {
    if |path| == 0 then Some(v)
    else match v
      case VArr(entries) =>
        (match Lookup(entries, path[0])
         case Some(w) => Path(w, path[1..])
         case None => None)
      case _ => None
  }
}
