/** The JavaScript values that the server's option handling and its connection
    handler look at, with the three operations the server applies to them:
    truthiness, `a || b` and loose comparison with `false`. */
module Values {
  import opened Text

  /** A JavaScript value. A property that is not set reads as `Undefined`.
      Numbers are integers here: NaN and fractions are not modelled. */
  datatype JsValue =
    | Undefined
    | Null
    | Bool(b: bool)
    | Num(n: int)
    | Str(s: string)
    | StrList(items: seq<string>)  // an array of strings
    | Obj                           // any other object (a plain object, a Buffer)
    | Func                          // a function

  /** ToBoolean: the falsy values are undefined, null, false, 0 and "". */
  predicate Truthy(v: JsValue) {
    match v
    case Undefined => false
    case Null => false
    case Bool(b) => b
    case Num(n) => n != 0
    case Str(s) => s != ""
    case StrList(_) => true
    case Obj => true
    case Func => true
  }

  /** `a || b`: the first operand when it is truthy, otherwise the second. */
  function Or(a: JsValue, b: JsValue): (r: JsValue)
    ensures Truthy(r) <==> Truthy(a) || Truthy(b)
    ensures r == a || r == b
    ensures Truthy(a) ==> r == a
    ensures !Truthy(a) ==> r == b
  {
    if Truthy(a) then a else b
  }

  /** White space and line terminators that `Number(s)` strips from both ends. */
  predicate IsWhiteSpace(c: char) {
    c == ' ' || c == '\t' || c == '\n' || c == '\r' || c == '\U{B}' || c == '\U{C}'
    || c == '\U{A0}' || c == '\U{FEFF}' || c == '\U{2028}' || c == '\U{2029}'
  }

  function TrimStart(s: string): (r: string)
    ensures |r| <= |s| && r == s[|s| - |r|..]
    ensures r == [] || !IsWhiteSpace(r[0])
    ensures forall i :: 0 <= i < |s| - |r| ==> IsWhiteSpace(s[i])
  {
    if s != [] && IsWhiteSpace(s[0]) then TrimStart(s[1..]) else s
  }

  function TrimEnd(s: string): (r: string)
    ensures |r| <= |s| && r == s[..|r|]
    ensures r == [] || !IsWhiteSpace(r[|r| - 1])
    ensures forall i :: |r| <= i < |s| ==> IsWhiteSpace(s[i])
  {
    if s != [] && IsWhiteSpace(s[|s| - 1]) then TrimEnd(s[..|s| - 1]) else s
  }

  /** `Number(s) == 0` for the spellings of zero recognised here: a string that is
      blank, or an optional sign followed by one or more `0` digits, surrounded by
      white space. */
  predicate IsZeroNumeral(s: string) {
    var t := TrimEnd(TrimStart(s));
    var digits := if t != [] && (t[0] == '+' || t[0] == '-') then t[1..] else t;
    t == [] || (digits != [] && AllZeros(digits))
  }

  predicate AllZeros(s: string) {
    s == [] || (s[0] == '0' && AllZeros(s[1..]))
  }

  /** `v == false` under JavaScript's abstract equality: `false` becomes 0, so `v`
      is compared with 0 after conversion to a number. `undefined` and `null` are
      equal only to each other; an array is converted through its
      comma-joined string; other objects and functions convert to NaN. */
  predicate LooselyEqualsFalse(v: JsValue) {
    match v
    case Undefined => false
    case Null => false
    case Bool(b) => !b
    case Num(n) => n == 0
    case Str(s) => IsZeroNumeral(s)
    case StrList(items) => IsZeroNumeral(Join(items, ','))
    case Obj => false
    case Func => false
  }
}
