/**
 * Decoded JSON payloads as the relay's handlers see them, together with the
 * pieces of JavaScript semantics those handlers lean on: truthiness, property
 * lookup, the String() conversion and the built-in parseInt.
 */
module Json {

  datatype Option<+T> = None | Some(value: T)

  /**
   * A value produced by JSON.parse. Numbers are integers.
   * `Func` is never produced by JSON.parse: it is the function object that a
   * property read finds on a prototype (see Get).
   */
  datatype Value =
    | Null
    | Bool(b: bool)
    | Num(n: int)
    | Str(s: string)
    | Arr(items: seq<Value>)
    | Obj(fields: map<string, Value>)
    | Func

  /** JavaScript truthiness of a property read; `None` is `undefined`. */
  predicate Truthy(p: Option<Value>) {
    match p
    case None => false
    case Some(Null) => false
    case Some(Bool(b)) => b
    case Some(Num(n)) => n != 0
    case Some(Str(s)) => s != ""
    case Some(_) => true
  }

  /** Empty objects and empty arrays are truthy; exactly four values are falsy. */
  lemma FalsyValues(v: Value)
    ensures !Truthy(Some(v)) <==> v == Null || v == Bool(false) || v == Num(0) || v == Str("")
    ensures Truthy(Some(Obj(map[]))) && Truthy(Some(Arr([])))
  {
  }

  /**
   * The property read `v.key` for a value that is not null (reading a property
   * of null throws). An object yields its own field; a string yields the
   * method `String.prototype.small` for the key "small" (the only key the
   * relay reads that any prototype supplies); everything else is undefined.
   */
  function Get(v: Value, key: string): Option<Value>
    requires !v.Null?
  {
    match v
    case Obj(fields) => if key in fields then Some(fields[key]) else None
    case Str(_) => if key == "small" then Some(Func) else None
    case _ => None
  }

  // ---------------------------------------------------------------------
  // String(v)

  /** The decimal digit character for d. */
  function DigitChar(d: nat): (c: char)
    requires d < 10
    ensures '0' <= c <= '9'
  {
    ('0' as int + d) as char
  }

  /** Decimal text of n without leading zeros. */
  function NatToString(n: nat): string
    decreases n
  {
    if n < 10 then [DigitChar(n)] else NatToString(n / 10) + [DigitChar(n % 10)]
  }

  /** Number.prototype.toString() for an integer. */
  function IntToString(n: int): string {
    if n < 0 then "-" + NatToString(-n) else NatToString(n)
  }

  /**
   * String(v), or None when the conversion throws a TypeError: an object
   * carrying its own `toString` key hides the callable Object.prototype.toString
   * behind a non-callable value, and valueOf then yields the object itself.
   */
  function ToString(v: Value): Option<string>
    decreases v
  {
    match v
    case Null => Some("null")
    case Bool(b) => Some(if b then "true" else "false")
    case Num(n) => Some(IntToString(n))
    case Str(s) => Some(s)
    case Arr(items) => JoinItems(items)
    case Obj(fields) => if "toString" in fields then None else Some("[object Object]")
    case Func => Some("function small() { [native code] }")
  }

  /** Array.prototype.join(","): a null element contributes the empty string. */
  function JoinItems(items: seq<Value>): Option<string>
    decreases items
  {
    if items == [] then Some("")
    else
      var head := if items[0].Null? then Some("") else ToString(items[0]);
      if |items| == 1 then head
      else
        match (head, JoinItems(items[1..]))
        case (Some(h), Some(t)) => Some(h + "," + t)
        case _ => None
  }

  // ---------------------------------------------------------------------
  // parseInt(text) with no radix argument

  /** Result of parseInt: NaN, or an integer (-0 is folded into 0). */
  datatype ParsedInt = NaN | Int(value: int)

  /** StrWhiteSpaceChar: the white space and line terminators parseInt skips. */
  predicate IsJsWhiteSpace(c: char) {
    c == '\t' || c == '\n' || c == '\U{000B}' || c == '\U{000C}' || c == '\r' ||
    c == ' ' || c == '\U{00A0}' || c == '\U{1680}' || ('\U{2000}' <= c <= '\U{200A}') ||
    c == '\U{2028}' || c == '\U{2029}' || c == '\U{202F}' || c == '\U{205F}' ||
    c == '\U{3000}' || c == '\U{FEFF}'
  }

  predicate IsRadixDigit(c: char, radix: nat) {
    ('0' <= c <= '9') || (radix == 16 && (('a' <= c <= 'f') || ('A' <= c <= 'F')))
  }

  function DigitValue(c: char): (d: nat)
    requires IsRadixDigit(c, 16)
    ensures d < 16 && (IsRadixDigit(c, 10) ==> d < 10)
  {
    if '0' <= c <= '9' then c as nat - '0' as nat
    else if 'a' <= c <= 'f' then c as nat - 'a' as nat + 10
    else c as nat - 'A' as nat + 10
  }

  predicate AllDigits(z: string, radix: nat) {
    forall i :: 0 <= i < |z| ==> IsRadixDigit(z[i], radix)
  }

  /** The number a string of digits denotes in the given radix. */
  function DigitsValue(z: string, radix: nat): nat
    requires radix == 10 || radix == 16
    requires AllDigits(z, radix)
  {
    if z == [] then 0
    else
      var high := DigitsValue(z[..|z| - 1], radix);
      (if radix == 10 then high * 10 else high * 16) + DigitValue(z[|z| - 1])
  }

  /** s with its leading white space removed. */
  function TrimStart(s: string): string {
    if s != [] && IsJsWhiteSpace(s[0]) then TrimStart(s[1..]) else s
  }

  /** The longest prefix of s made of digits of the radix. */
  function DigitPrefix(s: string, radix: nat): string {
    if s != [] && IsRadixDigit(s[0], radix) then [s[0]] + DigitPrefix(s[1..], radix) else []
  }

  /**
   * parseInt(text): skip leading white space, take an optional sign, then read
   * the magnitude.
   */
  function ParseInt(text: string): ParsedInt {
    var s := TrimStart(text);
    if |s| > 0 && s[0] == '-' then Negate(ParseMagnitude(s[1..]))
    else if |s| > 0 && s[0] == '+' then ParseMagnitude(s[1..])
    else ParseMagnitude(s)
  }

  function Negate(p: ParsedInt): ParsedInt {
    match p
    case NaN => NaN
    case Int(v) => Int(-v)
  }

  /** The unsigned part: radix 16 after a "0x"/"0X" prefix, radix 10 otherwise. */
  function ParseMagnitude(t: string): ParsedInt {
    if |t| >= 2 && t[0] == '0' && (t[1] == 'x' || t[1] == 'X') then LeadingDigits(t[2..], 16)
    else LeadingDigits(t, 10)
  }

  /** The number denoted by the longest run of leading digits; NaN when there is none. */
  function LeadingDigits(u: string, radix: nat): ParsedInt
    requires radix == 10 || radix == 16
  {
    var z := DigitPrefix(u, radix);
    DigitPrefixLongest(u, radix);
    if z == [] then NaN else Int(DigitsValue(z, radix))
  }

  // ---------------------------------------------------------------------
  // Properties of String() and parseInt

  /** TrimStart drops a run of white space and stops at the first other character. */
  lemma {:induction false} TrimStartDrops(s: string)
    ensures |TrimStart(s)| <= |s| && TrimStart(s) == s[|s| - |TrimStart(s)|..]
    ensures forall i :: 0 <= i < |s| - |TrimStart(s)| ==> IsJsWhiteSpace(s[i])
    ensures TrimStart(s) == [] || !IsJsWhiteSpace(TrimStart(s)[0])
  {
    if s != [] && IsJsWhiteSpace(s[0]) {
      var tail := s[1..];
      TrimStartDrops(tail);
      assert TrimStart(s) == TrimStart(tail);
      var n := |s| - |TrimStart(s)|;
      assert s[n..] == tail[n - 1..];
      forall i | 0 <= i < n
        ensures IsJsWhiteSpace(s[i])
      {
        if i > 0 { assert s[i] == tail[i - 1]; }
      }
    }
  }

  /** DigitPrefix is the longest prefix of digits. */
  lemma {:induction false} DigitPrefixLongest(s: string, radix: nat)
    ensures DigitPrefix(s, radix) <= s && AllDigits(DigitPrefix(s, radix), radix)
    ensures |DigitPrefix(s, radix)| < |s| ==> !IsRadixDigit(s[|DigitPrefix(s, radix)|], radix)
  {
    if s != [] && IsRadixDigit(s[0], radix) {
      DigitPrefixLongest(s[1..], radix);
    }
  }

  /** Leading white space, and only that, is skipped. */
  lemma TrimStartSkips(w: string, t: string)
    requires forall i :: 0 <= i < |w| ==> IsJsWhiteSpace(w[i])
    requires t == [] || !IsJsWhiteSpace(t[0])
    ensures TrimStart(w + t) == t
  {
    var s := w + t;
    var r := TrimStart(s);
    TrimStartDrops(s);
    assert |r| >= |t| by {
      if t != [] { assert s[|w|] == t[0]; }
    }
    assert |r| <= |t| by {
      if |r| > 0 { assert r[0] == s[|s| - |r|]; }
    }
  }

  /** Reading a digit run stops exactly at the first character that is not a digit. */
  lemma DigitPrefixStops(z: string, rest: string, radix: nat)
    requires AllDigits(z, radix)
    requires rest == [] || !IsRadixDigit(rest[0], radix)
    ensures DigitPrefix(z + rest, radix) == z
  {
    var s := z + rest;
    var p := DigitPrefix(s, radix);
    DigitPrefixLongest(s, radix);
    assert |p| == |z|;
    assert p == s[..|z|];
  }

  /** The decimal text of n is a non-empty run of decimal digits that denotes n. */
  lemma {:induction false} NatToStringDenotes(n: nat)
    ensures |NatToString(n)| > 0 && AllDigits(NatToString(n), 10)
    ensures DigitsValue(NatToString(n), 10) == n
    decreases n
  {
    var s := NatToString(n);
    if n < 10 {
      assert s[..|s| - 1] == [];
    } else {
      NatToStringDenotes(n / 10);
      assert s[..|s| - 1] == NatToString(n / 10);
    }
  }

  /**
   * A run of decimal digits followed by anything that does not continue it (and
   * that does not turn a lone "0" into a hex prefix) reads as that decimal number.
   */
  lemma MagnitudeDecimal(z: string, rest: string)
    requires |z| > 0 && AllDigits(z, 10)
    requires rest == [] || !IsRadixDigit(rest[0], 10)
    requires !(z == "0" && rest != [] && (rest[0] == 'x' || rest[0] == 'X'))
    ensures ParseMagnitude(z + rest) == Int(DigitsValue(z, 10))
  {
    var t := z + rest;
    if |t| >= 2 && t[0] == '0' {
      assert t[1] == if |z| >= 2 then z[1] else rest[0];
    }
    DigitPrefixStops(z, rest, 10);
  }

  /** parseInt skips leading white space and reads one optional sign. */
  lemma ParseIntSigned(text: string, w: string, sign: string, t: string)
    requires text == w + (sign + t)
    requires forall i :: 0 <= i < |w| ==> IsJsWhiteSpace(w[i])
    requires sign == "" || sign == "+" || sign == "-"
    requires t == [] || (!IsJsWhiteSpace(t[0]) && t[0] != '-' && t[0] != '+')
    ensures ParseInt(text) == if sign == "-" then Negate(ParseMagnitude(t)) else ParseMagnitude(t)
  {
    TrimStartSkips(w, sign + t);
    var s := sign + t;
    assert TrimStart(text) == s;
    if sign != "" {
      assert s[0] == sign[0] && s[1..] == t;
    } else {
      assert s == t;
    }
  }

  /**
   * parseInt on white space, an optional sign, a run of decimal digits and
   * anything that does not continue the number yields that decimal number.
   */
  lemma ParseIntDecimal(text: string, w: string, sign: string, z: string, rest: string)
    requires forall i :: 0 <= i < |w| ==> IsJsWhiteSpace(w[i])
    requires sign == "" || sign == "+" || sign == "-"
    requires |z| > 0 && AllDigits(z, 10)
    requires rest == [] || !IsRadixDigit(rest[0], 10)
    requires !(z == "0" && rest != [] && (rest[0] == 'x' || rest[0] == 'X'))
    requires text == w + (sign + (z + rest))
    ensures ParseInt(text) == Int(if sign == "-" then -(DigitsValue(z, 10) as int) else DigitsValue(z, 10))
  {
    var t := z + rest;
    assert t[0] == z[0];
    ParseIntSigned(text, w, sign, t);
    MagnitudeDecimal(z, rest);
  }

  /** parseInt(String(n)) is n for every integer n. */
  lemma ParseIntOfIntToString(n: int)
    ensures ToString(Num(n)) == Some(IntToString(n))
    ensures ParseInt(IntToString(n)) == Int(n)
  {
    var m := if n < 0 then -n else n;
    NatToStringDenotes(m);
    var sign := if n < 0 then "-" else "";
    assert "" + (sign + (NatToString(m) + "")) == IntToString(n);
    ParseIntDecimal(IntToString(n), "", sign, NatToString(m), "");
  }
}
