/**
 * The JavaScript semantics the relay's decisions rest on: JSON values as `JSON.parse`
 * yields them, truthiness, property reads, `String(v)`, `Number(v)`, ASCII case mapping
 * and the `\s` whitespace class of regular expressions.
 */
module JsValues {
  import opened Wrappers

  /** A JSON value. Numbers are restricted to integers. */
  datatype Json =
    | JNull
    | JBool(b: bool)
    | JNum(n: int)
    | JStr(s: string)
    | JArr(elems: seq<Json>)
    | JObj(fields: map<string, Json>)

  /** The completion of a JavaScript expression: a value, or a thrown exception. */
  datatype Eval<+T> = Done(value: T) | Threw

  /** A JavaScript number as far as the model needs it: an integer, or NaN. */
  datatype Num = Finite(v: int) | NaN

  /** JavaScript truthiness of a possibly `undefined` JSON value. */
  predicate Truthy(v: Option<Json>)
  {
    match v
    case None => false
    case Some(j) =>
      match j
      case JNull => false
      case JBool(b) => b
      case JNum(n) => n != 0
      case JStr(s) => s != ""
      case JArr(_) => true
      case JObj(_) => true
  }

  /** `a || b` */
  function Or(a: Option<Json>, b: Option<Json>): (r: Option<Json>)
    ensures Truthy(a) ==> r == a
    ensures !Truthy(a) ==> r == b
  {
    if Truthy(a) then a else b
  }

  /**
   * `v?.key`, and also `v.key` on a value that is not null or undefined: only an object
   * carrying the key as its own property yields something; strings, numbers, booleans
   * and arrays have none of the keys the relay reads.
   */
  function Prop(v: Option<Json>, key: string): (r: Option<Json>)
    ensures r.Some? <==> v.Some? && v.value.JObj? && key in v.value.fields
    ensures r.Some? ==> r.value == v.value.fields[key]
  {
    if v.Some? && v.value.JObj? && key in v.value.fields then Some(v.value.fields[key]) else None
  }

  /** The decimal digit character for `d`. */
  function DigitChar(d: int): (c: char)
    requires 0 <= d <= 9
    ensures '0' <= c <= '9' && c as int - 48 == d
  {
    (48 + d) as char
  }

  /**
   * The decimal rendering of a natural number, most significant digit first: a digit
   * string that denotes `n`, with no leading zero.
   */
  function NatToDecimal(n: nat): (s: string)
    ensures IsDigits(s) && DecimalValue(s) == n
    ensures s[0] == '0' ==> s == "0"
    decreases n
  {
    if n < 10 then [DigitChar(n)]
    else
      var high := NatToDecimal(n / 10);
      var s := high + [DigitChar(n % 10)];
      assert s[..|s| - 1] == high;
      s
  }

  /** `String(n)` for an integer `n`: an optional minus sign, then the digits of `|n|`. */
  function IntToDecimal(n: int): (s: string)
    ensures |s| > 0
    ensures s[0] == '-' <==> n < 0
    ensures n >= 0 ==> IsDigits(s) && DecimalValue(s) == n
    ensures n < 0 ==> IsDigits(s[1..]) && DecimalValue(s[1..]) == -n
    ensures s[0] == '0' ==> s == "0"
    ensures n < 0 ==> s[1] != '0'
  {
    if n < 0 then
      var digits := NatToDecimal(-n);
      assert ("-" + digits)[1..] == digits;
      "-" + digits
    else NatToDecimal(n)
  }

  /** Reading `String(n)` back as a number gives `n` again. */
  lemma IntToDecimalRoundTrip(n: int)
    ensures StringToNumber(IntToDecimal(n)) == Finite(n)
  {
    var s := IntToDecimal(n);
    NoSpaceIsUntrimmed(s);
  }

  /** A string that starts and ends with a non-space character is left alone by trimming. */
  lemma NoSpaceIsUntrimmed(s: string)
    requires s != [] && !IsJsSpace(s[0]) && !IsJsSpace(s[|s| - 1])
    ensures TrimEnd(TrimStart(s)) == s
  {
  }

  /**
   * `String(v)`. An array converts through `join(",")`, where null elements give "";
   * an object gives "[object Object]" unless it carries its own `toString` key: a JSON
   * value is never callable, so the conversion then finds no usable method and throws.
   */
  function ToJsString(v: Json): (r: Eval<string>)
    ensures !v.JObj? && !v.JArr? ==> r.Done?
    ensures v.JStr? ==> r == Done(v.s)
    ensures v.JObj? ==> (r.Threw? <==> "toString" in v.fields)
    decreases v, 1
  {
    match v
    case JNull => Done("null")
    case JBool(b) => Done(if b then "true" else "false")
    case JNum(n) => Done(IntToDecimal(n))
    case JStr(s) => Done(s)
    case JArr(_) => JoinFrom(v, 0)
    case JObj(m) => if "toString" in m then Threw else Done("[object Object]")
  }

  /** `v.elems.slice(i).join(",")` with `String` applied to each non-null element. */
  function JoinFrom(v: Json, i: nat): Eval<string>
    requires v.JArr? && i <= |v.elems|
    decreases v, 0, |v.elems| - i
  {
    if i == |v.elems| then Done("")
    else
      var head := if v.elems[i].JNull? then Done("") else ToJsString(v.elems[i]);
      var tail := JoinFrom(v, i + 1);
      if head.Threw? || tail.Threw? then Threw
      else Done(head.value + (if i + 1 < |v.elems| then "," else "") + tail.value)
  }

  /** `String(v)` where `v` may be `undefined`. */
  function JsString(v: Option<Json>): Eval<string>
  {
    if v.None? then Done("undefined") else ToJsString(v.value)
  }

  /** Joining an array throws exactly when some non-null element's own conversion throws. */
  lemma {:induction false} JoinFromThrowsIff(v: Json, i: nat)
    requires v.JArr? && i <= |v.elems|
    ensures JoinFrom(v, i).Threw? <==>
      exists k :: i <= k < |v.elems| && !v.elems[k].JNull? && ToJsString(v.elems[k]).Threw?
    decreases |v.elems| - i
  {
    if i < |v.elems| {
      JoinFromThrowsIff(v, i + 1);
    }
  }

  /** `toUpperCase` on one character, restricted to the ASCII letters. */
  function UpperChar(c: char): char
  {
    if 'a' <= c <= 'z' then (c as int - 32) as char else c
  }

  /** `toLowerCase` on one character, restricted to the ASCII letters. */
  function LowerChar(c: char): char
  {
    if 'A' <= c <= 'Z' then (c as int + 32) as char else c
  }

  function ToUpper(s: string): (r: string)
    ensures |r| == |s| && forall i :: 0 <= i < |s| ==> r[i] == UpperChar(s[i])
  {
    seq(|s|, i requires 0 <= i < |s| => UpperChar(s[i]))
  }

  function ToLower(s: string): (r: string)
    ensures |r| == |s| && forall i :: 0 <= i < |s| ==> r[i] == LowerChar(s[i])
  {
    seq(|s|, i requires 0 <= i < |s| => LowerChar(s[i]))
  }

  /** Two strings that agree character by character up to the case of ASCII letters. */
  ghost predicate EqualsIgnoringCase(s: string, w: string)
  {
    |s| == |w| && forall i :: 0 <= i < |s| ==> LowerChar(s[i]) == LowerChar(w[i])
  }

  /** A string already in upper case; in lower case. */
  ghost predicate IsUpper(w: string) { forall i :: 0 <= i < |w| ==> UpperChar(w[i]) == w[i] }
  ghost predicate IsLower(w: string) { forall i :: 0 <= i < |w| ==> LowerChar(w[i]) == w[i] }

  /** Two characters have the same upper case exactly when they have the same lower case. */
  lemma SameCaseClass(a: char, b: char)
    ensures UpperChar(a) == UpperChar(b) <==> LowerChar(a) == LowerChar(b)
  {
  }

  /** Comparing the upper-cased input with an upper-case keyword is a case-insensitive comparison. */
  lemma {:induction false} UpperMatchesIgnoringCase(s: string, w: string)
    requires IsUpper(w)
    ensures ToUpper(s) == w <==> EqualsIgnoringCase(s, w)
  {
    if ToUpper(s) == w {
      forall i | 0 <= i < |s| ensures LowerChar(s[i]) == LowerChar(w[i]) {
        SameCaseClass(s[i], w[i]);
      }
    }
    if EqualsIgnoringCase(s, w) {
      forall i | 0 <= i < |s| ensures ToUpper(s)[i] == w[i] {
        SameCaseClass(s[i], w[i]);
      }
    }
  }

  /** Comparing the lower-cased input with a lower-case keyword is a case-insensitive comparison. */
  lemma {:induction false} LowerMatchesIgnoringCase(s: string, w: string)
    requires IsLower(w)
    ensures ToLower(s) == w <==> EqualsIgnoringCase(s, w)
  {
    if EqualsIgnoringCase(s, w) {
      forall i | 0 <= i < |s| ensures ToLower(s)[i] == w[i] { }
    }
  }

  /**
   * The characters `\s` matches in a JavaScript regular expression (WhiteSpace and
   * LineTerminator of ECMA-262); the same set is trimmed by string-to-number conversion.
   */
  predicate IsJsSpace(c: char)
  {
    var n := c as int;
    (9 <= n <= 13) || n == 0x20 || n == 0xA0 || n == 0x1680 || (0x2000 <= n <= 0x200A)
    || n == 0x2028 || n == 0x2029 || n == 0x202F || n == 0x205F || n == 0x3000 || n == 0xFEFF
  }

  /** `s` without its leading whitespace run. */
  function TrimStart(s: string): (r: string)
    ensures |r| <= |s| && r == s[|s| - |r|..]
    ensures r != [] ==> !IsJsSpace(r[0])
    ensures forall i :: 0 <= i < |s| - |r| ==> IsJsSpace(s[i])
  {
    if s != [] && IsJsSpace(s[0]) then TrimStart(s[1..]) else s
  }

  /** `s` without its trailing whitespace run. */
  function TrimEnd(s: string): (r: string)
    ensures |r| <= |s| && r == s[..|r|]
    ensures r != [] ==> !IsJsSpace(r[|r| - 1])
    ensures forall i :: |r| <= i < |s| ==> IsJsSpace(s[i])
  {
    if s != [] && IsJsSpace(s[|s| - 1]) then TrimEnd(s[..|s| - 1]) else s
  }

  predicate IsDigits(s: string)
  {
    s != [] && forall i :: 0 <= i < |s| ==> '0' <= s[i] <= '9'
  }

  function DecimalValue(s: string): (n: nat)
    requires IsDigits(s)
    decreases |s|
  {
    var last := s[|s| - 1] as int - 48;
    if |s| == 1 then last else DecimalValue(s[..|s| - 1]) * 10 + last
  }

  /**
   * `Number(s)` for the strings the model reads: after trimming whitespace, the empty
   * string is 0 and an optionally signed run of decimal digits is its value; every other
   * form is NaN here.
   */
  function StringToNumber(s: string): Num
  {
    var t := TrimEnd(TrimStart(s));
    if t == "" then Finite(0)
    else if IsDigits(t) then Finite(DecimalValue(t))
    else if t[0] == '+' && IsDigits(t[1..]) then Finite(DecimalValue(t[1..]))
    else if t[0] == '-' && IsDigits(t[1..]) then Finite(0 - DecimalValue(t[1..]) as int)
    else NaN
  }

  /** `Number` reads text made only of whitespace as 0. */
  lemma BlankReadsAsZero(s: string)
    requires forall i :: 0 <= i < |s| ==> IsJsSpace(s[i])
    ensures StringToNumber(s) == Finite(0)
  {
  }

  /** `Number` reads a run of decimal digits as the value it denotes. */
  lemma DigitsReadAsValue(s: string)
    requires IsDigits(s)
    ensures StringToNumber(s) == Finite(DecimalValue(s))
  {
    NoSpaceIsUntrimmed(s);
  }

  /** `Number` reads a minus sign followed by decimal digits as the negated value. */
  lemma NegatedDigitsReadAsValue(s: string)
    requires |s| > 1 && s[0] == '-' && IsDigits(s[1..])
    ensures StringToNumber(s) == Finite(0 - DecimalValue(s[1..]) as int)
  {
    assert s[|s| - 1] == s[1..][|s| - 2];
    NoSpaceIsUntrimmed(s);
  }

  /**
   * The numeric operand that `v - 60` converts `v` to: undefined is NaN, null is 0,
   * booleans are 0 or 1, objects and arrays go through their string form (which may throw).
   */
  function ToNumber(v: Option<Json>): (r: Eval<Num>)
    ensures v.Some? && v.value.JNum? ==> r == Done(Finite(v.value.n))
    ensures v.None? ==> r == Done(NaN)
    ensures v == Some(JNull) ==> r == Done(Finite(0))
    ensures v.Some? && v.value.JBool? ==> r == Done(Finite(if v.value.b then 1 else 0))
    ensures v.Some? && v.value.JStr? ==> r == Done(StringToNumber(v.value.s))
    ensures r.Threw? <==> v.Some? && (v.value.JObj? || v.value.JArr?) && ToJsString(v.value).Threw?
  {
    match v
    case None => Done(NaN)
    case Some(j) =>
      match j
      case JNull => Done(Finite(0))
      case JBool(b) => Done(Finite(if b then 1 else 0))
      case JNum(n) => Done(Finite(n))
      case JStr(s) => Done(StringToNumber(s))
      case _ =>
        match ToJsString(j)
        case Threw => Threw
        case Done(s) => Done(StringToNumber(s))
  }

  function NumSub(a: Num, b: int): Num { if a.NaN? then NaN else Finite(a.v - b) }
  function NumMul(a: Num, b: int): Num { if a.NaN? then NaN else Finite(a.v * b) }
  function NumAdd(a: int, b: Num): Num { if b.NaN? then NaN else Finite(a + b.v) }

  /** `a > b` for a possibly NaN left operand: every comparison with NaN is false. */
  predicate NumGreater(a: Num, b: int) { a.Finite? && a.v > b }

  /** The largest magnitude of a valid Date time value, in milliseconds. */
  const MaxTimeValue := 8_640_000_000_000_000

  /** `new Date(t)` keeps a time value only within the Date range. */
  function TimeClip(t: int): (r: Num)
    ensures r.Finite? <==> -MaxTimeValue <= t <= MaxTimeValue
    ensures r.Finite? ==> r.v == t
  {
    if -MaxTimeValue <= t <= MaxTimeValue then Finite(t) else NaN
  }

  /** The first `n` characters, as `s.substring(0, n)`. */
  function Take(s: string, n: nat): (r: string)
    ensures |r| == if |s| < n then |s| else n
    ensures r == s[..|r|]
  {
    if |s| <= n then s else s[..n]
  }
}
