/**
  PHP values as `json_decode($body, true)` produces them, PHP's truthiness and string
  conversion, and PHP arrays as ordered key -> value maps.

  An integer array key and the decimal string of that integer name the same slot in
  a PHP array, so every key is kept in its string form: a decoded JSON list `[a, b]`
  is the array `[("0", a), ("1", b)]`.
 */
module PhpValues {

  datatype Option<+T> = None | Some(value: T) {
    function GetOr(default: T): T {
      if Some? then value else default
    }
  }

  /** The exception classes the library raises or lets through. */
  datatype Error =
    | InvalidArgumentException  // unknown connection, missing method, bad dataset
    | RuntimeException          // take/orderBy on a model without the field name
    | TypeError                 // a non-array passed where `array` is declared
    | GenericException          // `all()`, which is not implemented

  datatype Result<+T> = Ok(value: T) | Err(error: Error)

  type Key = string

  datatype Value =
    | Null
    | Bool(b: bool)
    | Int(i: int)
    | Str(s: string)
    | Arr(entries: seq<(Key, Value)>)

  /** The entries of a PHP array, in iteration order. */
  type Pairs = seq<(Key, Value)>

  /** PHP's conversion to bool: null, false, 0, "", "0" and the empty array are falsy. */
  predicate Truthy(v: Value) {
    match v
    case Null => false
    case Bool(b) => b
    case Int(i) => i != 0
    case Str(s) => s != "" && s != "0"
    case Arr(e) => e != []
  }

  function Digit(d: nat): (c: char)
    requires d < 10
    ensures '0' <= c <= '9' && (d != 0 ==> c != '0')
  {
    "0123456789"[d]
  }

  /** Decimal digits of a natural number, without leading zeros. */
  function Digits(n: nat): (r: string)
    ensures r != []
    ensures forall k :: 0 <= k < |r| ==> '0' <= r[k] <= '9'
    ensures n != 0 ==> r[0] != '0'
    decreases n
  {
    if n < 10 then [Digit(n)] else Digits(n / 10) + [Digit(n % 10)]
  }

  /** PHP's conversion of an int to a string. */
  function Decimal(n: int): (r: string)
    ensures r != "" && (n != 0 ==> r != "0")
    ensures '/' !in r
  {
    var r := if n < 0 then "-" + Digits(-n) else Digits(n);
    assert forall k :: 0 <= k < |r| ==> r[k] != '/';
    r
  }

  /** PHP's conversion to string (arrays convert to "Array"). */
  function ToStr(v: Value): (r: string)
    ensures Truthy(v) ==> r != "" && r != "0"
    ensures !v.Str? ==> '/' !in r
  {
    match v
    case Null => ""
    case Bool(b) => if b then "1" else ""
    case Int(i) => Decimal(i)
    case Str(s) => s
    case Arr(_) => "Array"
  }

  /** The array key a value stands for when used as an offset (`false` is key 0). */
  function KeyOf(v: Value): (k: Key)
    ensures Truthy(v) ==> k == ToStr(v)
  {
    match v
    case Bool(b) => if b then "1" else "0"
    case _ => ToStr(v)
  }

  function Keys(p: Pairs): (ks: seq<Key>)
    ensures |ks| == |p|
    ensures forall i :: 0 <= i < |p| ==> ks[i] == p[i].0
  {
    seq(|p|, i requires 0 <= i < |p| => p[i].0)
  }

  function Values(p: Pairs): (vs: seq<Value>)
    ensures |vs| == |p|
    ensures forall i :: 0 <= i < |p| ==> vs[i] == p[i].1
  {
    seq(|p|, i requires 0 <= i < |p| => p[i].1)
  }

  /** Every key occurs once, as in every PHP array. */
  predicate Distinct(p: Pairs) {
    forall i, j :: 0 <= i < j < |p| ==> p[i].0 != p[j].0
  }

  /** `$a[$k]` when `array_key_exists($k, $a)`, else None. */
  function Find(p: Pairs, k: Key): (r: Option<Value>)
    ensures r.Some? <==> k in Keys(p)
  {
    if p == [] then None else if p[0].0 == k then Some(p[0].1) else Find(p[1..], k)
  }

  /** `$a[$k] = $v`: overwrite the slot in place, or append a new slot at the end. */
  function Put(p: Pairs, k: Key, v: Value): Pairs {
    if p == [] then [(k, v)]
    else if p[0].0 == k then [(k, v)] + p[1..]
    else [p[0]] + Put(p[1..], k, v)
  }

  /** A PHP list: keys 0, 1, 2, ... */
  function List(vs: seq<Value>): (p: Pairs)
    ensures |p| == |vs| && Values(p) == vs
  {
    seq(|vs|, i requires 0 <= i < |vs| => (Decimal(i), vs[i]))
  }

  lemma {:induction false} PutFind(p: Pairs, k: Key, v: Value)
    ensures Find(Put(p, k, v), k) == Some(v)
  {
    if p != [] && p[0].0 != k {
      PutFind(p[1..], k, v);
    }
  }

  lemma {:induction false} PutFindOther(p: Pairs, k: Key, k': Key, v: Value)
    requires k' != k
    ensures Find(Put(p, k, v), k') == Find(p, k')
  {
    if p != [] && p[0].0 != k {
      PutFindOther(p[1..], k, k', v);
    }
  }

  lemma KeysConcat(a: Pairs, b: Pairs)
    ensures Keys(a + b) == Keys(a) + Keys(b)
  {
  }

  /** Overwriting a key that is present keeps the key list as it is. */
  lemma {:induction false} PutKeysPresent(p: Pairs, k: Key, v: Value)
    requires k in Keys(p)
    ensures Keys(Put(p, k, v)) == Keys(p)
  {
    var tail := p[1..];
    assert p == [p[0]] + tail;
    KeysConcat([p[0]], tail);
    if p[0].0 == k {
      KeysConcat([(k, v)], tail);
      assert Put(p, k, v) == [(k, v)] + tail;
      assert Keys([(k, v)]) == [k];
    } else {
      assert k in Keys(tail);
      PutKeysPresent(tail, k, v);
      assert Put(p, k, v) == [p[0]] + Put(tail, k, v);
      KeysConcat([p[0]], Put(tail, k, v));
    }
  }

  /** Writing a key keeps the order of the existing keys; a new key goes last. */
  lemma PutKeys(p: Pairs, k: Key, v: Value)
    ensures Keys(Put(p, k, v)) == if k in Keys(p) then Keys(p) else Keys(p) + [k]
  {
    if k in Keys(p) {
      PutKeysPresent(p, k, v);
    } else {
      PutNew(p, k, v);
      KeysConcat(p, [(k, v)]);
    }
  }

  lemma {:induction false} PutDistinct(p: Pairs, k: Key, v: Value)
    requires Distinct(p)
    ensures Distinct(Put(p, k, v))
  {
    var r := Put(p, k, v);
    PutKeys(p, k, v);
    assert forall i :: 0 <= i < |r| ==> r[i].0 == Keys(r)[i];
    assert forall i :: 0 <= i < |p| ==> p[i].0 == Keys(p)[i];
  }

  /** The last write to a key wins. */
  lemma {:induction false} PutPut(p: Pairs, k: Key, v1: Value, v2: Value)
    ensures Put(Put(p, k, v1), k, v2) == Put(p, k, v2)
  {
    if p != [] && p[0].0 != k {
      PutPut(p[1..], k, v1, v2);
    }
  }

  /** On a key that is not yet present, a write appends one entry. */
  lemma {:induction false} PutNew(p: Pairs, k: Key, v: Value)
    requires k !in Keys(p)
    ensures Put(p, k, v) == p + [(k, v)]
  {
    if p != [] {
      PutNew(p[1..], k, v);
      assert p == [p[0]] + p[1..];
    }
  }
}
