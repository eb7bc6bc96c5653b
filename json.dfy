/** The request values the server handlers receive from Express's JSON body
    parser, and the few pieces of JavaScript semantics the handlers rely on:
    truthiness, `a || b`, property access on a possibly missing value,
    `Number(v)`, `String(n)` and `parseInt(s)`. Numbers are integers here. */
module Json {
  import opened Wrappers

  /** A JSON value, plus JavaScript's `undefined` for a property that is not there. */
  datatype Value =
    | Undefined
    | Null
    | Bool(b: bool)
    | Num(n: int)
    | Str(s: string)
    | Arr(items: seq<Value>)
    | Obj(fields: map<string, Value>)

  /** JavaScript truthiness (`if (v)`). */
  predicate Truthy(v: Value) {
    match v
    case Undefined => false
    case Null => false
    case Bool(b) => b
    case Num(n) => n != 0
    case Str(s) => s != ""
    case Arr(_) => true
    case Obj(_) => true
  }

  /** `v?.key`: undefined unless `v` is an object holding `key`. */
  function Get(v: Value, key: string): Value {
    if v.Obj? && key in v.fields then v.fields[key] else Undefined
  }

  /** `a || b`. */
  function Or(a: Value, b: Value): Value {
    if Truthy(a) then a else b
  }

  // ---------------------------------------------------------------------
  // Decimal digits

  predicate IsDigit(c: char) {
    '0' <= c <= '9'
  }

  predicate AllDigits(s: string) {
    forall i :: 0 <= i < |s| ==> IsDigit(s[i])
  }

  function DigitChar(d: nat): char
    requires d < 10
  {
    ('0' as int + d) as char
  }

  /** The number a string of decimal digits denotes. */
  function DigitsValue(s: string): nat
    requires AllDigits(s)
  {
    if s == [] then 0
    else 10 * DigitsValue(s[..|s| - 1]) + ((s[|s| - 1] as int) - ('0' as int))
  }

  /** The decimal digits of `n`, most significant first, without leading zeros. */
  function NatToDigits(n: nat): (s: string)
    ensures |s| > 0 && AllDigits(s)
    ensures DigitsValue(s) == n
    ensures |s| > 1 ==> s[0] != '0'
  {
    if n < 10 then [DigitChar(n)]
    else
      var prefix := NatToDigits(n / 10);
      var s := prefix + [DigitChar(n % 10)];
      assert s[..|s| - 1] == prefix;
      s
  }

  /** `String(n)` for an integer. */
  function IntToString(n: int): string {
    if n < 0 then "-" + NatToDigits(-n) else NatToDigits(n)
  }

  // ---------------------------------------------------------------------
  // Number(v) and parseInt(s)

  /** The white-space characters JavaScript trims (the ASCII ones). */
  predicate IsSpace(c: char) {
    c == ' ' || c == '\t' || c == '\n' || c == '\r' || c == '\U{B}' || c == '\U{C}'
  }

  function TrimStart(s: string): (t: string)
    ensures |t| <= |s|
    ensures t == s[|s| - |t|..]
    ensures t != [] ==> !IsSpace(t[0])
  {
    if s != [] && IsSpace(s[0]) then TrimStart(s[1..]) else s
  }

  function TrimEnd(s: string): (t: string)
    ensures |t| <= |s|
    ensures t == s[..|t|]
    ensures t != [] ==> !IsSpace(t[|t| - 1])
  {
    if s != [] && IsSpace(s[|s| - 1]) then TrimEnd(s[..|s| - 1]) else s
  }

  /** `Number(s)` for a string: blank means 0, an optionally signed run of
      decimal digits means its value, anything else is NaN (None). */
  function StringToNumber(s: string): Option<int> {
    NumeralValue(TrimEnd(TrimStart(s)))
  }

  /** The value of trimmed text: blank is 0, then an optional sign and digits. */
  function NumeralValue(t: string): Option<int> {
    if t == [] then Some(0)
    else if (t[0] == '-' || t[0] == '+') && |t| > 1 && AllDigits(t[1..]) then
      var v: int := DigitsValue(t[1..]);
      Some(if t[0] == '-' then -v else v)
    else if AllDigits(t) then Some(DigitsValue(t))
    else None
  }

  /** `Number(v)`; None stands for NaN. An array is first joined into text:
      `[]` and a one-element array holding undefined or null read as the
      blank string (0), any other one-element array as the text of its
      element, and a longer one (a comma in the joined text) as NaN. A plain
      object's text is `[object Object]`, which is NaN. */
  function JsNumber(v: Value): (r: Option<int>)
    ensures v.Arr? && v.items == [] ==> r == Some(0)
    ensures v.Arr? && |v.items| > 1 ==> r.None?
    ensures v.Arr? && |v.items| == 1 && IsNullish(v.items[0]) ==> r == Some(0)
    ensures v.Arr? && |v.items| == 1 && v.items[0].Bool? ==> r.None?
    ensures v.Arr? && |v.items| == 1 && !IsNullish(v.items[0]) && !v.items[0].Bool? ==> r == JsNumber(v.items[0])
    ensures v.Obj? ==> r.None?
    decreases v
  {
    match v
    case Undefined => None
    case Null => Some(0)
    case Bool(b) => Some(if b then 1 else 0)
    case Num(n) => Some(n)
    case Str(s) => StringToNumber(s)
    case Arr(items) =>
      if items == [] then Some(0)
      else if |items| > 1 then None
      else (match items[0]
        case Undefined => Some(0)
        case Null => Some(0)
        case Bool(_) => None
        case _ => JsNumber(items[0]))
    case Obj(_) => None
  }

  predicate IsNullish(v: Value) {
    v.Undefined? || v.Null?
  }

  /** `Number([n])` and `Number([String(n)])` are both `n`. */
  lemma NumberOfSingleton(n: int)
    ensures JsNumber(Arr([Num(n)])) == Some(n)
    ensures JsNumber(Arr([Str(IntToString(n))])) == Some(n)
  {
    NumberOfString(n);
  }

  /** `String(v)`, the text `sessionStorage.setItem` stores and an array's
      `toString`/`join(',')` is built from. */
  function JsString(v: Value): (t: string)
    ensures v.Str? ==> t == v.s
    ensures v.Num? ==> t == IntToString(v.n)
    decreases v, 1
  {
    match v
    case Undefined => "undefined"
    case Null => "null"
    case Bool(b) => if b then "true" else "false"
    case Num(n) => IntToString(n)
    case Str(s) => s
    case Arr(items) => JoinedText(v, 0)
    case Obj(_) => "[object Object]"
  }

  /** `items.join(',')` from position `i`, with null and undefined as empty text. */
  function JoinedText(v: Value, i: nat): string
    requires v.Arr? && i <= |v.items|
    decreases v, 0, |v.items| - i
  {
    if i == |v.items| then ""
    else
      var item := v.items[i];
      var text := if item.Undefined? || item.Null? then "" else JsString(item);
      if i + 1 == |v.items| then text else text + "," + JoinedText(v, i + 1)
  }

  /** A character no numeral can hold anywhere, once trimmed. */
  predicate Blocking(c: char) {
    !IsSpace(c) && !IsDigit(c) && c != '-' && c != '+'
  }

  /** Trimming the start keeps every character that is not white space. */
  lemma {:induction false} TrimStartKeeps(s: string, k: nat)
    requires k < |s| && !IsSpace(s[k])
    ensures |s| - |TrimStart(s)| <= k && TrimStart(s)[k - (|s| - |TrimStart(s)|)] == s[k]
    decreases |s|
  {
    if s != [] && IsSpace(s[0]) {
      TrimStartKeeps(s[1..], k - 1);
    }
  }

  /** Trimming the end keeps every character that is not white space. */
  lemma {:induction false} TrimEndKeeps(s: string, k: nat)
    requires k < |s| && !IsSpace(s[k])
    ensures k < |TrimEnd(s)| && TrimEnd(s)[k] == s[k]
    decreases |s|
  {
    if s != [] && IsSpace(s[|s| - 1]) {
      TrimEndKeeps(s[..|s| - 1], k);
    }
  }

  lemma NumeralBlocked(t: string, k: nat)
    requires k < |t| && Blocking(t[k])
    ensures NumeralValue(t) == None
  {
    assert !IsDigit(t[k]);
    if k > 0 {
      assert t[1..][k - 1] == t[k];
    }
  }

  /** Text holding a blocking character (a letter, a comma, a bracket) is NaN. */
  lemma NumberBlocked(s: string, k: nat)
    requires k < |s| && Blocking(s[k])
    ensures StringToNumber(s) == None
  {
    TrimStartKeeps(s, k);
    var t := TrimStart(s);
    var k1 := k - (|s| - |t|);
    TrimEndKeeps(t, k1);
    NumeralBlocked(TrimEnd(t), k1);
  }

  /** `Number(v)` is `Number(String(v))` for every value but null and the
      booleans (which convert to 0 and 1 directly). An array's Number is
      therefore the Number of its joined text. */
  lemma {:induction false} NumberOfText(v: Value)
    requires !v.Null? && !v.Bool?
    ensures JsNumber(v) == StringToNumber(JsString(v))
    decreases v
  {
    match v
    case Undefined =>
      NumberBlocked("undefined", 0);
    case Num(n) =>
      NumberOfString(n);
    case Str(_) =>
    case Obj(_) =>
      NumberBlocked("[object Object]", 0);
    case Arr(items) =>
      if |items| > 1 {
        var item := items[0];
        var text := if item.Undefined? || item.Null? then "" else JsString(item);
        var joined := text + "," + JoinedText(v, 1);
        assert JsString(v) == joined;
        assert joined[|text|] == ',';
        NumberBlocked(joined, |text|);
      } else if |items| == 1 {
        var item := items[0];
        assert JsString(v) == if item.Undefined? || item.Null? then "" else JsString(item);
        match item
        case Undefined =>
        case Null =>
        case Bool(b) =>
          NumberBlocked(if b then "true" else "false", 0);
        case _ =>
          NumberOfText(item);
      }
  }

  /** The longest prefix of `s` made of decimal digits. */
  function DigitPrefix(s: string): (d: string)
    ensures |d| <= |s|
    ensures AllDigits(d) && d == s[..|d|]
    ensures |d| < |s| ==> !IsDigit(s[|d|])
  {
    if s == [] || !IsDigit(s[0]) then [] else [s[0]] + DigitPrefix(s[1..])
  }

  /** `parseInt(s)` with no radix: leading white space and one sign are
      skipped; a `0x` or `0X` prefix then selects hexadecimal, otherwise the
      digits are decimal; the digits up to the first non-digit are read, and
      no digit at all is NaN. */
  function ParseInt(s: string): Option<int> {
    LeadingInt(TrimStart(s))
  }

  /** The integer at the start of `t`: one optional sign, then an unsigned numeral. */
  function LeadingInt(t: string): Option<int> {
    var signed := t != [] && (t[0] == '-' || t[0] == '+');
    match UnsignedPrefixValue(if signed then t[1..] else t)
    case None => None
    case Some(v) => Some(if signed && t[0] == '-' then -(v as int) else v as int)
  }

  predicate HexMarked(u: string) {
    |u| >= 2 && u[0] == '0' && (u[1] == 'x' || u[1] == 'X')
  }

  /** The value of the digits that start `u`: hexadecimal after a `0x`/`0X`
      mark, decimal otherwise; None when no digit of that base follows. */
  function UnsignedPrefixValue(u: string): Option<nat> {
    if HexMarked(u) then
      var h := HexPrefix(u[2..]);
      if h == [] then None else Some(HexValue(h))
    else
      var d := DigitPrefix(u);
      if d == [] then None else Some(DigitsValue(d))
  }

  predicate IsHexDigit(c: char) {
    IsDigit(c) || 'a' <= c <= 'f' || 'A' <= c <= 'F'
  }

  predicate AllHexDigits(s: string) {
    forall i :: 0 <= i < |s| ==> IsHexDigit(s[i])
  }

  function HexDigitValue(c: char): (v: nat)
    requires IsHexDigit(c)
    ensures v < 16
  {
    if IsDigit(c) then (c as int) - ('0' as int)
    else if 'a' <= c <= 'f' then (c as int) - ('a' as int) + 10
    else (c as int) - ('A' as int) + 10
  }

  /** The number a string of hexadecimal digits denotes. */
  function HexValue(s: string): nat
    requires AllHexDigits(s)
  {
    if s == [] then 0
    else 16 * HexValue(s[..|s| - 1]) + HexDigitValue(s[|s| - 1])
  }

  /** The longest prefix of `s` made of hexadecimal digits. */
  function HexPrefix(s: string): (h: string)
    ensures |h| <= |s|
    ensures AllHexDigits(h) && h == s[..|h|]
    ensures |h| < |s| ==> !IsHexDigit(s[|h|])
  {
    if s == [] || !IsHexDigit(s[0]) then [] else [s[0]] + HexPrefix(s[1..])
  }

  lemma HexPrefixOfHexDigits(s: string)
    requires AllHexDigits(s)
    ensures HexPrefix(s) == s
  {
  }

  /** `parseInt("0x" + h)` reads the hexadecimal digits `h`: GET
      /products/0x1 looks up product 1. */
  lemma ParseIntOfHex(h: string)
    requires h != [] && AllHexDigits(h)
    ensures ParseInt("0x" + h) == Some(HexValue(h) as int)
    ensures ParseInt("0X" + h) == Some(HexValue(h) as int)
  {
    HexPrefixOfHexDigits(h);
    var s := "0x" + h;
    assert s[2..] == h && IsDigit(s[0]);
    TrimStartNoSpace(s);
    var t := "0X" + h;
    assert t[2..] == h && IsDigit(t[0]);
    TrimStartNoSpace(t);
  }

  /** A hexadecimal mark with no hexadecimal digit after it is NaN. */
  lemma ParseIntOfBareHexMark(rest: string)
    requires rest == [] || !IsHexDigit(rest[0])
    ensures ParseInt("0x" + rest).None?
  {
    var s := "0x" + rest;
    assert s[2..] == rest && IsDigit(s[0]);
    TrimStartNoSpace(s);
  }

  lemma DigitPrefixOfDigits(s: string)
    requires AllDigits(s)
    ensures DigitPrefix(s) == s
  {
  }

  lemma TrimStartNoSpace(s: string)
    requires s != [] && !IsSpace(s[0])
    ensures TrimStart(s) == s
  {
  }

  lemma UnsignedOfDigits(d: string)
    requires d != [] && AllDigits(d)
    ensures UnsignedPrefixValue(d) == Some(DigitsValue(d))
  {
    assert |d| >= 2 ==> IsDigit(d[1]);
    DigitPrefixOfDigits(d);
  }

  lemma LeadingIntOfDigits(d: string)
    requires d != [] && AllDigits(d)
    ensures LeadingInt(d) == Some(DigitsValue(d) as int)
  {
    assert IsDigit(d[0]);
    UnsignedOfDigits(d);
  }

  lemma LeadingIntOfNegative(t: string, d: string)
    requires t != [] && t[0] == '-' && t[1..] == d && d != [] && AllDigits(d)
    ensures LeadingInt(t) == Some(-(DigitsValue(d) as int))
  {
    UnsignedOfDigits(d);
  }

  lemma ParseIntOfDigits(d: string)
    requires d != [] && AllDigits(d)
    ensures ParseInt(d) == Some(DigitsValue(d) as int)
  {
    assert IsDigit(d[0]);
    TrimStartNoSpace(d);
    LeadingIntOfDigits(d);
  }

  lemma ParseIntOfNegative(d: string)
    requires d != [] && AllDigits(d)
    ensures ParseInt("-" + d) == Some(-(DigitsValue(d) as int))
  {
    var s := "-" + d;
    assert s[0] == '-' && s[1..] == d;
    TrimStartNoSpace(s);
    LeadingIntOfNegative(s, d);
  }

  /** Reading back what `String(n)` wrote: `parseInt(String(n)) == n`. */
  lemma ParseIntOfString(n: int)
    ensures ParseInt(IntToString(n)) == Some(n)
  {
    if n < 0 {
      ParseIntOfNegative(NatToDigits(-n));
    } else {
      ParseIntOfDigits(NatToDigits(n));
    }
  }

  lemma TrimNumeral(s: string)
    requires s != [] && !IsSpace(s[0]) && !IsSpace(s[|s| - 1])
    ensures TrimEnd(TrimStart(s)) == s
  {
    assert TrimStart(s) == s;
  }

  lemma NumeralOfDigits(d: string)
    requires d != [] && AllDigits(d)
    ensures NumeralValue(d) == Some(DigitsValue(d) as int)
  {
    assert IsDigit(d[0]);
  }

  lemma NumeralOfNegative(t: string, d: string)
    requires |t| > 1 && t[0] == '-' && t[1..] == d && AllDigits(d)
    ensures NumeralValue(t) == Some(-(DigitsValue(d) as int))
  {
  }

  lemma NumberOfDigits(d: string)
    requires d != [] && AllDigits(d)
    ensures StringToNumber(d) == Some(DigitsValue(d) as int)
  {
    assert IsDigit(d[0]);
    TrimNumeral(d);
    NumeralOfDigits(d);
  }

  lemma NumberOfNegative(d: string)
    requires d != [] && AllDigits(d)
    ensures StringToNumber("-" + d) == Some(-(DigitsValue(d) as int))
  {
    var s := "-" + d;
    assert s[0] == '-' && s[1..] == d && s[|s| - 1] == d[|d| - 1];
    TrimNumeral(s);
    NumeralOfNegative(s, d);
  }

  lemma NotNumeral(t: string)
    requires t != [] && !IsDigit(t[0]) && t[0] != '-' && t[0] != '+'
    ensures !AllDigits(t)
  {
  }

  /** A non-blank string that does not start like a numeral is NaN. */
  lemma NumberOfNonNumeral(s: string)
    requires s != [] && !IsSpace(s[0]) && !IsSpace(s[|s| - 1])
    requires !IsDigit(s[0]) && s[0] != '-' && s[0] != '+'
    ensures StringToNumber(s) == None
  {
    TrimNumeral(s);
    NotNumeral(s);
  }

  /** `Number(String(n)) == n`. */
  lemma NumberOfString(n: int)
    ensures StringToNumber(IntToString(n)) == Some(n)
  {
    if n < 0 {
      NumberOfNegative(NatToDigits(-n));
    } else {
      NumberOfDigits(NatToDigits(n));
    }
  }
}
