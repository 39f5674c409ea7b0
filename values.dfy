/** JSON-like scalar values as the gateway delivers them, with the two pieces
    of Python semantics the integration relies on: truthiness and `==`
    (where `True == 1` and `False == 0`). Also the string helpers the
    integration uses (`str.strip`, `str.startswith`, `str(int)`). */
module Values {

  datatype Option<+T> = None | Some(value: T) {
    /** `d.get(key, default)` once the lookup is an Option. */
    function GetOr(default: T): T {
      match this
      case Some(v) => v
      case None => default
    }
  }

  /** A scalar read from the gateway's JSON. */
  datatype Value = VBool(b: bool) | VInt(i: int) | VStr(s: string) | VNull

  /** The exceptions the modelled code raises or catches. */
  datatype PyError =
    | KeyError
    | NameError
    | UnboundLocalError
    | AuthorizationError
    | InsufficientPermissionsError
    | HttpRequestError
    | OtherError

  /** A Python call that either returns or raises. */
  datatype Outcome<+T> = Ok(value: T) | Raised(error: PyError)

  /** The sentinel for "no such endpoint" (const.py). */
  const VALUE_NOT_SET: int := -1
  const NotSet: Value := VInt(VALUE_NOT_SET)

  const DOMAIN: string := "freebox_home"

  /** Python truthiness of a scalar. */
  predicate Truthy(v: Value) {
    match v
    case VBool(b) => b
    case VInt(i) => i != 0
    case VStr(s) => s != ""
    case VNull => false
  }

  /** The numeric view of a value: bool is a subclass of int in Python. */
  function AsNumber(v: Value): Option<int> {
    match v
    case VBool(b) => Some(if b then 1 else 0)
    case VInt(i) => Some(i)
    case _ => None
  }

  /** Python `a == b` on two scalars. */
  predicate PyEq(a: Value, b: Value) {
    if AsNumber(a).Some? && AsNumber(b).Some? then AsNumber(a) == AsNumber(b) else a == b
  }

  /** A bool equals a value in Python exactly when the value is that bool or
      the matching integer, and then the value's truthiness is the bool. */
  lemma PyEqBool(d: bool, v: Value)
    ensures PyEq(VBool(d), v) <==> (v == VBool(d) || v == VInt(if d then 1 else 0))
    ensures PyEq(VBool(d), v) ==> Truthy(v) == d
  {
  }

  // ---------------------------------------------------------------------
  // Strings

  /** Python's `str.isspace` for a single character. */
  predicate IsSpace(c: char) {
    var n := c as int;
    (9 <= n <= 13) || (28 <= n <= 32) || n == 0x85 || n == 0xA0 || n == 0x1680
    || (0x2000 <= n <= 0x200A) || n == 0x2028 || n == 0x2029 || n == 0x202F
    || n == 0x205F || n == 0x3000
  }

  function StripLeft(s: string): (r: string)
    ensures |r| <= |s| && r == s[|s| - |r|..]
    ensures r == [] || !IsSpace(r[0])
    ensures forall k | 0 <= k < |s| - |r| :: IsSpace(s[k])
  {
    if |s| > 0 && IsSpace(s[0]) then StripLeft(s[1..]) else s
  }

  function StripRight(s: string): (r: string)
    ensures |r| <= |s| && r == s[..|r|]
    ensures r == [] || !IsSpace(r[|r| - 1])
    ensures forall k | |r| <= k < |s| :: IsSpace(s[k])
  {
    if |s| > 0 && IsSpace(s[|s| - 1]) then StripRight(s[..|s| - 1]) else s
  }

  /** Python's `str.strip()` with no argument: the slice of `s` that is left
      once leading and trailing whitespace is removed. */
  function Strip(s: string): (r: string)
    ensures |r| <= |s|
    ensures r == [] || (!IsSpace(r[0]) && !IsSpace(r[|r| - 1]))
  {
    StripRight(StripLeft(s))
  }

  /** What Strip removes is whitespace at the two ends only: its result is a
      slice of the input with nothing but whitespace around it. */
  lemma StripIsSlice(s: string)
    ensures exists i, j ::
      && 0 <= i <= j <= |s| && Strip(s) == s[i..j]
      && (forall k | 0 <= k < i :: IsSpace(s[k]))
      && (forall k | j <= k < |s| :: IsSpace(s[k]))
  {
    var l := StripLeft(s);
    var r := StripRight(l);
    var i := |s| - |l|;
    var j := i + |r|;
    assert r == s[i..j] by {
      assert l == s[i..] && r == l[..|r|];
      forall k | 0 <= k < |r| ensures r[k] == s[i + k] {
        assert r[k] == l[k];
      }
    }
    forall k | j <= k < |s|
      ensures IsSpace(s[k])
    {
      assert s[k] == l[k - i];
    }
    assert Strip(s) == s[i..j];
  }

  /** Strip leaves a string without surrounding whitespace unchanged. */
  lemma StripNoSpace(s: string)
    requires s != [] && !IsSpace(s[0]) && !IsSpace(s[|s| - 1])
    ensures Strip(s) == s
  {
  }

  predicate StartsWith(s: string, prefix: string) {
    |prefix| <= |s| && s[..|prefix|] == prefix
  }

  // ---------------------------------------------------------------------
  // Decimal rendering of an int (Python `str(i)` / an f-string field)

  function DigitChar(d: nat): (c: char)
    requires d < 10
    ensures '0' <= c <= '9'
  {
    "0123456789"[d]
  }

  lemma DigitCharInjective(a: nat, b: nat)
    requires a < 10 && b < 10 && DigitChar(a) == DigitChar(b)
    ensures a == b
  {
  }

  function NatToString(n: nat): (r: string)
    ensures |r| >= 1
    ensures forall k | 0 <= k < |r| :: '0' <= r[k] <= '9'
    ensures n >= 10 ==> |r| >= 2
    decreases n
  {
    if n < 10 then [DigitChar(n)] else NatToString(n / 10) + [DigitChar(n % 10)]
  }

  function IntToString(i: int): string {
    if i < 0 then "-" + NatToString(-i) else NatToString(i)
  }

  /** Distinct naturals render as distinct digit strings. */
  lemma {:induction false} NatToStringInjective(a: nat, b: nat)
    requires NatToString(a) == NatToString(b)
    ensures a == b
    decreases a
  {
    var sa, sb := NatToString(a), NatToString(b);
    if a < 10 && b < 10 {
      DigitCharInjective(a, b);
    } else if a >= 10 && b >= 10 {
      assert sa[|sa| - 1] == DigitChar(a % 10);
      assert sb[|sb| - 1] == DigitChar(b % 10);
      DigitCharInjective(a % 10, b % 10);
      assert NatToString(a / 10) == sa[..|sa| - 1];
      assert NatToString(b / 10) == sb[..|sb| - 1];
      NatToStringInjective(a / 10, b / 10);
    }
  }

  /** Only a negative integer renders with a leading minus sign. */
  lemma IntToStringSign(i: int)
    ensures |IntToString(i)| >= 1
    ensures IntToString(i)[0] == '-' <==> i < 0
  {
  }

  /** A negative integer renders as a minus sign followed by its magnitude. */
  lemma IntToStringNegative(i: int)
    requires i < 0
    ensures |IntToString(i)| >= 2 && IntToString(i)[1..] == NatToString(-i)
  {
    var t := NatToString(-i);
    assert ("-" + t)[1..] == t;
  }

  /** Distinct integers render as distinct strings. */
  lemma IntToStringInjective(a: int, b: int)
    requires IntToString(a) == IntToString(b)
    ensures a == b
  {
    IntToStringSign(a);
    IntToStringSign(b);
    if a < 0 {
      assert b < 0;
      IntToStringNegative(a);
      IntToStringNegative(b);
      NatToStringInjective(-a, -b);
    } else {
      assert b >= 0;
      NatToStringInjective(a, b);
    }
  }
}
