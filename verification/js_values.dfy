/**
  The JavaScript values the chat code inspects, and the few built-in
  operations it applies to them: truthiness (`if (x)`, `!x`), property reads
  (`x.key`, `x[i]`), `String(x)` (what `new Error(x)` stores as its message),
  `String.prototype.trim`, and the outcome of `JSON.parse`.
*/
module JsValues {

  datatype Option<+T> = None | Some(value: T)

  /** A JavaScript value as `JSON.parse` can produce it, plus `undefined`,
      which is what reading a missing property yields. Numbers are integers
      in this model. */
  datatype JsValue =
    | Undefined
    | Null
    | Bool(b: bool)
    | Num(n: int)
    | Str(s: string)
    | Arr(elems: seq<JsValue>)
    | Obj(props: map<string, JsValue>)

  /** A value thrown by JavaScript code: an `Error` instance (its `message`
      is all the chat code reads of it) or anything else. */
  datatype Thrown = ErrorInstance(message: string) | NonErrorValue

  /** What `JSON.parse(text)` does: return a value, or throw a `SyntaxError`. */
  datatype ParseOutcome = Parsed(value: JsValue) | SyntaxError(message: string)

  predicate Nullish(v: JsValue) {
    v.Undefined? || v.Null?
  }

  /** JavaScript truthiness: `undefined`, `null`, `false`, `0` and `""` are falsy. */
  predicate Truthy(v: JsValue)
    ensures Truthy(v) ==> !Nullish(v)
  {
    match v
    case Undefined => false
    case Null => false
    case Bool(b) => b
    case Num(n) => n != 0
    case Str(s) => s != ""
    case Arr(_) => true
    case Obj(_) => true
  }

  /** `v.key` for a non-index property name that no built-in prototype
      defines (the only kind the chat code reads: `messages`, `content`,
      `error`, `choices`, `message`). Reading a property of `null` or
      `undefined` throws instead, so callers check first. */
  function Prop(v: JsValue, key: string): (r: JsValue)
    requires !Nullish(v)
    ensures !v.Obj? ==> r == Undefined
    ensures v.Obj? ==> (r == Undefined <== key !in v.props)
  {
    if v.Obj? && key in v.props then v.props[key] else Undefined
  }

  /** `v[i]` on a non-nullish value: an array element, a one-character
      string, or an object property whose name is the decimal form of `i`. */
  function Index(v: JsValue, i: int): (r: JsValue)
    requires !Nullish(v)
    ensures v.Arr? && 0 <= i < |v.elems| ==> r == v.elems[i]
    ensures v.Arr? && !(0 <= i < |v.elems|) ==> r == Undefined
  {
    match v
    case Arr(es) => if 0 <= i < |es| then es[i] else Undefined
    case Str(s) => if 0 <= i < |s| then Str([s[i]]) else Undefined
    case Obj(props) => if IntToString(i) in props then props[IntToString(i)] else Undefined
    case _ => Undefined
  }

  predicate IsDigit(c: char) {
    '0' <= c <= '9'
  }

  /** The decimal digits of `n`, most significant first, without leading zeros. */
  function NatToString(n: nat): (r: string)
    ensures |r| > 0 && forall i :: 0 <= i < |r| ==> IsDigit(r[i])
    ensures r[0] == '0' ==> n == 0
  {
    var d := ['0' + (n % 10) as char];
    if n < 10 then d else NatToString(n / 10) + d
  }

  /** `String(i)` for an integer. */
  function IntToString(i: int): (r: string)
    ensures |r| > 0
    ensures (r[0] == '-') <==> (i < 0)
  {
    if i < 0 then "-" + NatToString(-i) else NatToString(i)
  }

  /** `Array.prototype.join(",")` on strings. */
  function JoinWithCommas(ss: seq<string>): string {
    if |ss| == 0 then ""
    else if |ss| == 1 then ss[0]
    else ss[0] + "," + JoinWithCommas(ss[1..])
  }

  /** `String(v)`: the text `new Error(v)` keeps as its message. An array
      joins its elements with commas, rendering `null` and `undefined`
      elements as empty text. */
  function JsString(v: JsValue): (r: string)
    decreases v
    ensures v.Str? ==> r == v.s
  {
    match v
    case Undefined => "undefined"
    case Null => "null"
    case Bool(b) => if b then "true" else "false"
    case Num(n) => IntToString(n)
    case Str(s) => s
    case Arr(es) =>
      JoinWithCommas(seq(|es|, i requires 0 <= i < |es| =>
        if Nullish(es[i]) then "" else JsString(es[i])))
    case Obj(_) => "[object Object]"
  }

  /** The message of the `TypeError` thrown by reading `key` of a nullish value. */
  function ReadOfNullishMessage(v: JsValue, key: string): (r: string)
    requires Nullish(v)
    ensures |r| > 0
  {
    "Cannot read properties of " + JsString(v) + " (reading '" + key + "')"
  }

  /** The characters `String.prototype.trim` removes: ECMAScript WhiteSpace
      and LineTerminator code points. */
  predicate IsJsWhitespace(c: char) {
    c == '\t' || c == '\n' || c == '\U{000B}' || c == '\U{000C}' || c == '\r'
    || c == ' ' || c == '\U{00A0}' || c == '\U{1680}'
    || ('\U{2000}' <= c <= '\U{200A}')
    || c == '\U{2028}' || c == '\U{2029}' || c == '\U{202F}' || c == '\U{205F}'
    || c == '\U{3000}' || c == '\U{FEFF}'
  }

  /** Every character of `s` is whitespace (so also the empty string). */
  predicate Blank(s: string) {
    forall i :: 0 <= i < |s| ==> IsJsWhitespace(s[i])
  }

  /** `s` with its leading whitespace removed: a suffix of `s` that is
      empty or starts with a non-whitespace character, and all it drops is
      whitespace. */
  function TrimStart(s: string): (r: string)
    ensures |r| <= |s| && r == s[|s| - |r|..]
    ensures r == [] || !IsJsWhitespace(r[0])
    ensures Blank(s[..|s| - |r|])
  {
    if |s| > 0 && IsJsWhitespace(s[0]) then
      var r := TrimStart(s[1..]);
      assert s[1..][..|s[1..]| - |r|] == s[1..|s| - |r|];
      r
    else s
  }

  /** `s` with its trailing whitespace removed: a prefix of `s` that is
      empty or ends with a non-whitespace character, and all it drops is
      whitespace. */
  function TrimEnd(s: string): (r: string)
    ensures |r| <= |s| && r == s[..|r|]
    ensures r == [] || !IsJsWhitespace(r[|r| - 1])
    ensures Blank(s[|r|..])
  {
    if |s| > 0 && IsJsWhitespace(s[|s| - 1]) then
      var r := TrimEnd(s[..|s| - 1]);
      assert s[..|s| - 1][|r|..] + [s[|s| - 1]] == s[|r|..];
      r
    else s
  }

  /** `s.trim()`. */
  function Trim(s: string): string {
    TrimEnd(TrimStart(s))
  }

  /** `!s.trim()` holds exactly when `s` is all whitespace. */
  lemma TrimIsEmptyIffBlank(s: string)
    ensures Trim(s) == "" <==> Blank(s)
  {
  }
}
