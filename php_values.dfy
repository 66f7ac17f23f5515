/** PHP runtime values as the chain library sees them: array keys, values
    compared with `===`, loose truthiness, and the exceptions the core raises. */
module PhpValues {

  datatype Option<+T> = None | Some(value: T)

  datatype Result<+T> = Success(value: T) | Failure(error: Error) {
    predicate IsFailure() { Failure? }
    function PropagateFailure<U>(): Result<U>
      requires Failure?
    {
      Failure(error)
    }
    function Extract(): T
      requires Success?
    {
      value
    }
  }

  /** An array key: PHP keys are integers or strings. */
  datatype Key = IntKey(i: int) | StrKey(s: string)

  /** A PHP value. Arrays are ordered (key, value) lists; objects are known by
      identity only, so `===` on them is identity. Floats are not modelled. */
  datatype Value =
    | Null
    | Bool(b: bool)
    | Int(i: int)
    | Str(s: string)
    | Arr(entries: seq<(Key, Value)>)
    | Obj(id: nat)

  /** `PHP_INT_MAX` on a 64-bit build: the largest integer key, and the default
      length of `StringChain::subString`. */
  const PhpIntMax: int := 0x7FFF_FFFF_FFFF_FFFF

  /** The exceptions raised by the core. */
  datatype Error =
    | InvalidArgument(message: string)
    | Runtime(message: string, previous: Option<Error>)
    | TypeError(message: string)
    | DivisionByZero(message: string)
    | PlainError(message: string)
    | ValueError(message: string)

  /** `(bool)$v`, that is `$v != false`, for the modelled values:
      null, false, 0, "", "0" and the empty array are falsy. */
  predicate Truthy(v: Value) {
    match v
    case Null => false
    case Bool(b) => b
    case Int(i) => i != 0
    case Str(s) => s != "" && s != "0"
    case Arr(e) => e != []
    case Obj(_) => true
  }

  /** A key read back as a value, as `keys()` and `flip()` yield it. */
  function KeyValue(k: Key): Value {
    match k
    case IntKey(i) => Int(i)
    case StrKey(s) => Str(s)
  }

  /** The key that `$a[$v] = ...` writes for a non-null value `$v`:
      integers and strings as they are, booleans as 0/1, arrays and objects
      raise "Illegal offset type" (the wording of PHP before 8.3). Numeric strings
      are not coerced. */
  function ValueKey(v: Value): (r: Result<Key>)
    requires v != Null
    ensures r.Success? <==> (v.Int? || v.Str? || v.Bool?)
    ensures (v.Int? || v.Str?) ==> r == Success(KeyOrSelf(v))
    ensures v.Bool? ==> r == Success(IntKey(if v.b then 1 else 0))
  {
    match v
    case Int(i) => Success(IntKey(i))
    case Str(s) => Success(StrKey(s))
    case Bool(b) => Success(IntKey(if b then 1 else 0))
    case _ => Failure(TypeError("Illegal offset type"))
  }

  /** Helper for ValueKey's contract: the key an integer or string stands for. */
  function KeyOrSelf(v: Value): Key
    requires v.Int? || v.Str?
  {
    if v.Int? then IntKey(v.i) else StrKey(v.s)
  }

  lemma KeyValueRoundTrip(k: Key)
    ensures KeyValue(k) != Null
    ensures ValueKey(KeyValue(k)) == Success(k)
  {
  }

  /** PHP's `intdiv`: the quotient truncated toward zero. */
  function TruncDiv(a: int, b: int): int
    requires b != 0
  {
    var m := if b > 0 then b else -b;
    var q := if a >= 0 then a / m else -((-a) / m);
    if b > 0 then q else -q
  }

  /** PHP's `%` truncates toward zero: the remainder takes the dividend's sign, and
      it is what is left of the dividend after the truncated quotient. */
  function PhpMod(a: int, b: int): (r: int)
    requires b != 0
    ensures a >= 0 ==> 0 <= r < (if b > 0 then b else -b)
    ensures a < 0 ==> -(if b > 0 then b else -b) < r <= 0
    ensures a == b * TruncDiv(a, b) + r
  {
    var m := if b > 0 then b else -b;
    if a >= 0 then
      assert a == m * (a / m) + a % m;
      a % m
    else
      assert -a == m * ((-a) / m) + (-a) % m;
      -((-a) % m)
  }

  function DigitChar(d: nat): (c: char)
    requires d < 10
    ensures '0' <= c <= '9' && (c as int) - ('0' as int) == d
  {
    "0123456789"[d]
  }

  /** The number a string of decimal digits denotes. */
  function DigitsValue(s: string): nat
    requires forall i :: 0 <= i < |s| ==> '0' <= s[i] <= '9'
    decreases |s|
  {
    if s == [] then 0
    else 10 * DigitsValue(s[..|s| - 1]) + ((s[|s| - 1] as int) - ('0' as int))
  }

  /** Decimal digits of a natural number, as `sprintf('%s', $n)` prints it. */
  function NatToString(n: nat): (r: string)
    ensures |r| >= 1
    ensures forall i :: 0 <= i < |r| ==> '0' <= r[i] <= '9'
    ensures n >= 10 ==> r[0] != '0'
    ensures DigitsValue(r) == n
    decreases n
  {
    if n < 10 then [DigitChar(n)]
    else
      var r := NatToString(n / 10) + [DigitChar(n % 10)];
      assert r[..|r| - 1] == NatToString(n / 10);
      r
  }

  /** Decimal form of an integer, with a leading '-' when negative. */
  function IntToString(i: int): (r: string)
    ensures |r| >= 1
    ensures i < 0 <==> r[0] == '-'
    ensures i >= 0 ==> (forall j :: 0 <= j < |r| ==> '0' <= r[j] <= '9') && DigitsValue(r) == i
    ensures i < 0 ==> |r| >= 2 && (forall j :: 1 <= j < |r| ==> '0' <= r[j] <= '9') && DigitsValue(r[1..]) == -i
  {
    if i < 0 then
      var r := "-" + NatToString(-i);
      assert r[1..] == NatToString(-i);
      r
    else NatToString(i)
  }

  const SORT_ASC: int := 4
  const SORT_DESC: int := 3
}
