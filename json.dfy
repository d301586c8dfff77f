/**
 * JavaScript values as the engine handles them, the two text forms they take
 * (JSON text from JSON.stringify, and the plain text of String(v) that template
 * literals and the store client produce), and a JSON reader for text
 * without whitespace whose numbers are integers.
 */
module Json {
  import opened Outcomes

  /** A JavaScript value: objects keep their members in insertion order. */
  datatype Value =
    | Null
    | Bool(b: bool)
    | Num(n: int)
    | Str(s: string)
    | Arr(items: seq<Value>)
    | Obj(members: seq<Member>)

  datatype Member = Member(key: string, val: Value)

  /** JavaScript truthiness. */
  predicate Truthy(v: Value) {
    match v
    case Null => false
    case Bool(b) => b
    case Num(n) => n != 0
    case Str(s) => s != ""
    case Arr(_) => true
    case Obj(_) => true
  }

  /** lodash `_.isObject`: arrays and objects, but not null. */
  predicate IsObject(v: Value) {
    v.Arr? || v.Obj?
  }

  /** `typeof v === 'object'`: arrays, objects and also null. */
  predicate TypeofObject(v: Value) {
    v.Null? || v.Arr? || v.Obj?
  }

  // ----- decimal numerals -----

  predicate IsDigit(c: char) {
    '0' <= c <= '9'
  }

  predicate AllDigits(s: string) {
    forall i :: 0 <= i < |s| ==> IsDigit(s[i])
  }

  predicate IsHex(c: char) {
    IsDigit(c) || 'a' <= c <= 'f' || 'A' <= c <= 'F'
  }

  function HexValue(c: char): (d: nat)
    requires IsHex(c)
    ensures d < 16
  {
    if IsDigit(c) then c as int - 48 else if 'a' <= c <= 'f' then c as int - 87 else c as int - 55
  }

  function DigitChar(d: nat): (c: char)
    requires d < 10
    ensures IsDigit(c)
  {
    (48 + d) as char
  }

  function DigitValue(c: char): (d: nat)
    requires IsDigit(c)
    ensures d < 10
  {
    c as int - 48
  }

  /** The decimal numeral of a natural number, without leading zeros. */
  function NatText(n: nat): (t: string)
    ensures |t| > 0 && AllDigits(t)
  {
    if n < 10 then [DigitChar(n)] else NatText(n / 10) + [DigitChar(n % 10)]
  }

  /** The value a string of decimal digits denotes. */
  function DigitsValue(ds: string): nat
    requires AllDigits(ds)
  {
    if |ds| == 0 then 0 else DigitsValue(ds[..|ds| - 1]) * 10 + DigitValue(ds[|ds| - 1])
  }

  /** Reading a numeral back gives the number it was written from. */
  lemma {:induction false} NatTextValue(n: nat)
    ensures DigitsValue(NatText(n)) == n
  {
    if n >= 10 {
      var t := NatText(n);
      assert t[..|t| - 1] == NatText(n / 10);
      NatTextValue(n / 10);
    }
  }

  /** A numeral starts with `0` only when it is the numeral of zero, and then it is one digit long. */
  lemma {:induction false} NatTextHead(n: nat)
    ensures NatText(n)[0] == '0' <==> n == 0
    ensures |NatText(n)| == 1 <==> n < 10
  {
    if n >= 10 {
      NatTextHead(n / 10);
      assert NatText(n)[0] == NatText(n / 10)[0];
    }
  }

  /** Distinct natural numbers have distinct numerals. */
  lemma NatTextInjective(a: nat, b: nat)
    requires NatText(a) == NatText(b)
    ensures a == b
  {
    NatTextValue(a);
    NatTextValue(b);
  }

  /** JavaScript `String(n)` for an integer. */
  function IntText(n: int): (t: string)
    ensures |t| > 0
  {
    if n < 0 then "-" + NatText(-n) else NatText(n)
  }

  /** The length of the longest prefix of `s` made of digits. */
  function DigitSpan(s: string): (k: nat)
    ensures k <= |s| && AllDigits(s[..k])
    ensures k < |s| ==> !IsDigit(s[k])
  {
    if s == [] || !IsDigit(s[0]) then 0
    else
      var k := 1 + DigitSpan(s[1..]);
      assert s[..k] == [s[0]] + s[1..][..k - 1];
      k
  }

  lemma {:induction false} DigitSpanOfNumeral(t: string, rest: string)
    requires AllDigits(t)
    requires rest == [] || !IsDigit(rest[0])
    ensures DigitSpan(t + rest) == |t|
  {
    if t != [] {
      assert (t + rest)[1..] == t[1..] + rest;
      DigitSpanOfNumeral(t[1..], rest);
    }
  }

  // ----- String(v) -----

  /** JavaScript `String(v)`: what a template literal or the store client makes of a value. */
  function ToText(v: Value): string {
    match v
    case Null => "null"
    case Bool(b) => if b then "true" else "false"
    case Num(n) => IntText(n)
    case Str(s) => s
    case Arr(items) => JoinText(items)
    case Obj(_) => "[object Object]"
  }

  /** `Array.prototype.join(",")`, which writes null elements as empty text. */
  function JoinText(items: seq<Value>): string {
    if items == [] then ""
    else
      (if items[0].Null? then "" else ToText(items[0]))
      + (if |items| == 1 then "" else "," + JoinText(items[1..]))
  }

  // ----- JSON.stringify -----

  /** The JSON text of a value. */
  function Stringify(v: Value): string {
    match v
    case Null => "null"
    case Bool(b) => if b then "true" else "false"
    case Num(n) => IntText(n)
    case Str(s) => Quote(s)
    case Arr(items) => "[" + StringifyItems(items) + "]"
    case Obj(ms) => "{" + StringifyMembers(ms) + "}"
  }

  function StringifyItems(items: seq<Value>): string {
    if items == [] then ""
    else if |items| == 1 then Stringify(items[0])
    else Stringify(items[0]) + "," + StringifyItems(items[1..])
  }

  function StringifyMembers(ms: seq<Member>): string {
    if ms == [] then ""
    else if |ms| == 1 then StringifyMember(ms[0])
    else StringifyMember(ms[0]) + "," + StringifyMembers(ms[1..])
  }

  function StringifyMember(m: Member): string {
    Quote(m.key) + ":" + Stringify(m.val)
  }

  function Quote(s: string): string {
    "\"" + Escape(s) + "\""
  }

  /** The lower-case hexadecimal digit of d. */
  function HexDigit(d: nat): (c: char)
    requires d < 16
    ensures IsHex(c) && HexValue(c) == d
  {
    if d < 10 then (48 + d) as char else (87 + d) as char
  }

  /**
   * How JSON.stringify writes one character of a string: the quote and the
   * backslash after a backslash, the five control characters with a short
   * escape as that escape, every other control character as `\u00` and two
   * hexadecimal digits, and anything else as itself.
   */
  function EscapeChar(c: char): string {
    if c == '"' || c == '\\' then ['\\', c]
    else if c as int == 8 then "\\b"
    else if c as int == 12 then "\\f"
    else if c == '\n' then "\\n"
    else if c == '\r' then "\\r"
    else if c == '\t' then "\\t"
    else if c < ' ' then "\\u00" + [HexDigit(c as int / 16), HexDigit(c as int % 16)]
    else [c]
  }

  function Escape(s: string): string {
    if s == [] then [] else EscapeChar(s[0]) + Escape(s[1..])
  }

  // ----- JSON.parse -----

  /** Reads one JSON value at the head of `s`; returns it with the unread rest. */
  function ParseValue(s: string): (r: Option<(Value, string)>)
    ensures r.Some? ==> |r.value.1| < |s|
    decreases |s|, 0
  {
    if s == [] then None
    else if s[0] == 'n' then
      if |s| >= 4 && s[..4] == "null" then Some((Null, s[4..])) else None
    else if s[0] == 't' then
      if |s| >= 4 && s[..4] == "true" then Some((Bool(true), s[4..])) else None
    else if s[0] == 'f' then
      if |s| >= 5 && s[..5] == "false" then Some((Bool(false), s[5..])) else None
    else if s[0] == '"' then
      match ParseChars(s[1..])
      case None => None
      case Some((t, rest)) => Some((Str(t), rest))
    else if s[0] == '[' then
      if |s| >= 2 && s[1] == ']' then Some((Arr([]), s[2..]))
      else
        match ParseItems(s[1..])
        case None => None
        case Some((items, rest)) => Some((Arr(items), rest))
    else if s[0] == '{' then
      if |s| >= 2 && s[1] == '}' then Some((Obj([]), s[2..]))
      else
        match ParseMembers(s[1..])
        case None => None
        case Some((ms, rest)) => Some((Obj(ms), rest))
    else ParseNumber(s)
  }

  /**
   * Reads an integer numeral, with an optional leading minus sign; a numeral
   * of more than one digit must not start with `0`.
   */
  function ParseNumber(s: string): (r: Option<(Value, string)>)
    requires s != []
    ensures r.Some? ==> |r.value.1| < |s|
  {
    if s[0] == '-' then
      var k := DigitSpan(s[1..]);
      if k == 0 || (k > 1 && s[1] == '0') then None
      else Some((Num(-(DigitsValue(s[1..][..k]) as int)), s[1..][k..]))
    else if IsDigit(s[0]) then
      var k := DigitSpan(s);
      if k > 1 && s[0] == '0' then None else Some((Num(DigitsValue(s[..k])), s[k..]))
    else None
  }

  /**
   * Reads the body of a string literal, after its opening quote, through its
   * closing quote; a control character may appear only escaped.
   */
  function ParseChars(s: string): (r: Option<(string, string)>)
    ensures r.Some? ==> |r.value.1| < |s|
  {
    if s == [] then None
    else if s[0] == '"' then Some(([], s[1..]))
    else if s[0] == '\\' then
      match ParseEscapeSeq(s[1..])
      case None => None
      case Some((c, after)) =>
        match ParseChars(after)
        case None => None
        case Some((t, rest)) => Some(([c] + t, rest))
    else if s[0] < ' ' then None
    else
      match ParseChars(s[1..])
      case None => None
      case Some((t, rest)) => Some(([s[0]] + t, rest))
  }

  /**
   * Reads what follows a backslash in a string literal: one of `"`, `\\`, `/`,
   * `b`, `f`, `n`, `r`, `t`, or `u` and four hexadecimal digits naming a
   * character that is not a surrogate half.
   */
  function ParseEscapeSeq(s: string): (r: Option<(char, string)>)
    ensures r.Some? ==> |r.value.1| < |s|
  {
    if s == [] then None
    else if s[0] == '"' || s[0] == '\\' || s[0] == '/' then Some((s[0], s[1..]))
    else if s[0] == 'b' then Some((8 as char, s[1..]))
    else if s[0] == 'f' then Some((12 as char, s[1..]))
    else if s[0] == 'n' then Some(('\n', s[1..]))
    else if s[0] == 'r' then Some(('\r', s[1..]))
    else if s[0] == 't' then Some(('\t', s[1..]))
    else if s[0] == 'u' && |s| >= 5 && IsHex(s[1]) && IsHex(s[2]) && IsHex(s[3]) && IsHex(s[4]) then
      var v := ((HexValue(s[1]) * 16 + HexValue(s[2])) * 16 + HexValue(s[3])) * 16 + HexValue(s[4]);
      if 0xD800 <= v < 0xE000 then None else Some((v as char, s[5..]))
    else None
  }

  /** Reads the elements of a non-empty array, after its `[`, through its `]`. */
  function ParseItems(s: string): (r: Option<(seq<Value>, string)>)
    ensures r.Some? ==> |r.value.1| < |s|
    decreases |s|, 1
  {
    match ParseValue(s)
    case None => None
    case Some((v, rest)) =>
      if rest == [] then None
      else if rest[0] == ']' then Some(([v], rest[1..]))
      else if rest[0] == ',' then
        match ParseItems(rest[1..])
        case None => None
        case Some((vs, rest')) => Some(([v] + vs, rest'))
      else None
  }

  /** Reads the members of a non-empty object, after its `{`, through its `}`. */
  function ParseMembers(s: string): (r: Option<(seq<Member>, string)>)
    ensures r.Some? ==> |r.value.1| < |s|
    decreases |s|, 2
  {
    match ParseMember(s)
    case None => None
    case Some((m, rest)) =>
      if rest == [] then None
      else if rest[0] == '}' then Some(([m], rest[1..]))
      else if rest[0] == ',' then
        match ParseMembers(rest[1..])
        case None => None
        case Some((ms, rest')) => Some(([m] + ms, rest'))
      else None
  }

  /** Reads one `"key":value` member. */
  function ParseMember(s: string): (r: Option<(Member, string)>)
    ensures r.Some? ==> |r.value.1| < |s|
    decreases |s|, 1
  {
    if s == [] || s[0] != '"' then None
    else
      match ParseChars(s[1..])
      case None => None
      case Some((k, rest)) =>
        if rest == [] || rest[0] != ':' then None
        else
          match ParseValue(rest[1..])
          case None => None
          case Some((v, rest2)) => Some((Member(k, v), rest2))
  }

  /** `JSON.parse`: None where it would throw a SyntaxError. */
  function Parse(s: string): Option<Value> {
    match ParseValue(s)
    case Some((v, rest)) => if rest == [] then Some(v) else None
    case None => None
  }

  /** A numeral of more than one digit that starts with `0`, signed or not, is not JSON text. */
  lemma LeadingZeroRefused(s: string)
    requires (|s| >= 2 && s[0] == '0' && IsDigit(s[1])) || (|s| >= 3 && s[0] == '-' && s[1] == '0' && IsDigit(s[2]))
    ensures ParseValue(s).None? && Parse(s).None?
  {
    if s[0] == '-' {
      var u := s[1..];
      assert u[1..][0] == u[1];
      assert DigitSpan(u) >= 2;
      assert ParseNumber(s).None?;
    } else {
      assert s[1..][0] == s[1];
      assert DigitSpan(s) >= 2;
      assert ParseNumber(s).None?;
    }
  }

  // ----- the round trip -----

  /** What may follow a value inside JSON text written by Stringify. */
  predicate Delimited(rest: string) {
    rest == [] || rest[0] == ',' || rest[0] == ']' || rest[0] == '}'
  }

  lemma {:induction false} ParseEscape(s: string, rest: string)
    ensures ParseChars(Escape(s) + "\"" + rest) == Some((s, rest))
  {
    if s == [] {
      assert Escape(s) + "\"" + rest == "\"" + rest;
    } else {
      var t := Escape(s[1..]) + "\"" + rest;
      assert Escape(s) + "\"" + rest == EscapeChar(s[0]) + t;
      ParseEscape(s[1..], rest);
      ParseEscapedChar(s[0], t, s[1..], rest);
      assert [s[0]] + s[1..] == s;
    }
  }

  /** One written character, followed by the rest of a literal, reads back as that character. */
  lemma ParseEscapedChar(c: char, t: string, u: string, rest: string)
    requires ParseChars(t) == Some((u, rest))
    ensures ParseChars(EscapeChar(c) + t) == Some(([c] + u, rest))
  {
    var x := EscapeChar(c) + t;
    if EscapeChar(c) == [c] {
      assert x[1..] == t;
    } else {
      assert x[0] == '\\';
      assert x[1..] == EscapeChar(c)[1..] + t;
      EscapeSeqOf(c, t);
    }
  }

  /** What follows the backslash of an escaped character reads back as the character. */
  lemma EscapeSeqOf(c: char, t: string)
    requires EscapeChar(c) != [c]
    ensures ParseEscapeSeq(EscapeChar(c)[1..] + t) == Some((c, t))
  {
    if c < ' ' && !(c as int == 8 || c as int == 12 || c == '\n' || c == '\r' || c == '\t') {
      var n := c as int;
      var y := EscapeChar(c)[1..] + t;
      assert y[..5] == "u00" + [HexDigit(n / 16), HexDigit(n % 16)];
      assert y[5..] == t;
      assert (((0 * 16 + 0) * 16 + n / 16) * 16 + n % 16) as char == c;
    } else {
      assert (EscapeChar(c)[1..] + t)[1..] == t;
    }
  }

  lemma ParseNegative(n: int, rest: string)
    requires n < 0 && Delimited(rest)
    ensures ParseValue(IntText(n) + rest) == Some((Num(n), rest))
  {
    var s := "-" + (NatText(-n) + rest);
    NegativeNumber(n, rest);
    NumberAtMinus(s);
    assert IntText(n) + rest == s;
  }

  /** A value that starts with a minus sign is read as a number. */
  lemma NumberAtMinus(s: string)
    requires s != [] && s[0] == '-'
    ensures ParseValue(s) == ParseNumber(s)
  {
  }

  /** A minus sign, the digits of -n and a delimiter read as the number n. */
  lemma NegativeNumber(n: int, rest: string)
    requires n < 0 && Delimited(rest)
    ensures ParseNumber("-" + (NatText(-n) + rest)) == Some((Num(n), rest))
  {
    var t := NatText(-n);
    var u := t + rest;
    var s := "-" + u;
    assert s[1..] == u;
    DigitSpanOfNumeral(t, rest);
    NatTextHead(-n);
    assert u[..|t|] == t && u[|t|..] == rest;
    NatTextValue(-n);
  }

  lemma ParseNonNegative(n: nat, rest: string)
    requires Delimited(rest)
    ensures ParseValue(IntText(n) + rest) == Some((Num(n), rest))
  {
    var t := NatText(n);
    var s := t + rest;
    assert IntText(n) == t;
    assert IsDigit(s[0]);
    DigitSpanOfNumeral(t, rest);
    var k := DigitSpan(s);
    assert k == |t|;
    NatTextHead(n);
    assert s[..k] == t;
    assert s[k..] == rest;
    NatTextValue(n);
  }

  lemma ParseStringifyStr(str: string, rest: string)
    ensures ParseValue(Stringify(Str(str)) + rest) == Some((Str(str), rest))
  {
    var t := Stringify(Str(str)) + rest;
    assert t == "\"" + (Escape(str) + "\"" + rest);
    assert t[1..] == Escape(str) + "\"" + rest;
    ParseEscape(str, rest);
  }

  /** The JSON text of a value is never empty and never starts with a closing bracket. */
  lemma StringifyHead(v: Value)
    ensures |Stringify(v)| > 0 && Stringify(v)[0] != ']'
  {
    if v.Num? {
      if v.n >= 0 {
        assert IsDigit(NatText(v.n)[0]);
      }
    }
  }

  /** Reading the JSON text of a value gives back the value, whatever delimiter follows. */
  lemma {:induction false} ParseStringifyValue(v: Value, rest: string)
    requires Delimited(rest)
    ensures ParseValue(Stringify(v) + rest) == Some((v, rest))
    decreases v, 1
  {
    match v
    case Null =>
      assert Stringify(v) + rest == "null" + rest;
    case Bool(b) =>
      assert Stringify(v) + rest == (if b then "true" else "false") + rest;
    case Num(n) =>
      if n < 0 { ParseNegative(n, rest); } else { ParseNonNegative(n, rest); }
    case Str(str) =>
      ParseStringifyStr(str, rest);
    case Arr(items) =>
      ParseStringifyArr(items, rest);
    case Obj(ms) =>
      ParseStringifyObj(ms, rest);
  }

  lemma {:induction false} ParseStringifyArr(items: seq<Value>, rest: string)
    requires Delimited(rest)
    ensures ParseValue(Stringify(Arr(items)) + rest) == Some((Arr(items), rest))
    decreases items, 2
  {
    var t := Stringify(Arr(items)) + rest;
    if items == [] {
      assert t == "[]" + rest;
    } else {
      assert t == "[" + (StringifyItems(items) + "]" + rest);
      assert t[1..] == StringifyItems(items) + "]" + rest;
      StringifyHead(items[0]);
      assert StringifyItems(items)[0] == Stringify(items[0])[0];
      ParseStringifyItems(items, rest);
    }
  }

  lemma {:induction false} ParseStringifyObj(ms: seq<Member>, rest: string)
    requires Delimited(rest)
    ensures ParseValue(Stringify(Obj(ms)) + rest) == Some((Obj(ms), rest))
    decreases ms, 2
  {
    var t := Stringify(Obj(ms)) + rest;
    if ms == [] {
      assert t == "{}" + rest;
    } else {
      var u := StringifyMembers(ms) + "}" + rest;
      assert t == "{" + u;
      assert StringifyMember(ms[0])[0] == '"';
      assert StringifyMembers(ms)[0] == StringifyMember(ms[0])[0];
      assert u[0] == '"';
      ParseStringifyMembers(ms, rest);
      ObjectAtBrace(t, ms, rest);
    }
  }

  /** Text that opens an object with a member reads as the object its members make. */
  lemma ObjectAtBrace(s: string, ms: seq<Member>, rest: string)
    requires |s| >= 2 && s[0] == '{' && s[1] != '}'
    requires ParseMembers(s[1..]) == Some((ms, rest))
    ensures ParseValue(s) == Some((Obj(ms), rest))
  {
  }

  lemma {:induction false} ParseStringifyItems(items: seq<Value>, rest: string)
    requires items != []
    ensures ParseItems(StringifyItems(items) + "]" + rest) == Some((items, rest))
    decreases items, 1
  {
    if |items| == 1 {
      ParseLastItem(items, rest);
    } else {
      ParseStringifyItems(items[1..], rest);
      ParseItemThenMore(items, rest);
    }
  }

  /** A one-element array body: the element, then the closing bracket. */
  lemma ParseLastItem(items: seq<Value>, rest: string)
    requires |items| == 1
    ensures ParseItems(StringifyItems(items) + "]" + rest) == Some((items, rest))
    decreases items, 0
  {
    var s := StringifyItems(items) + "]" + rest;
    assert s == Stringify(items[0]) + ("]" + rest);
    ParseStringifyValue(items[0], "]" + rest);
    assert ParseValue(s) == Some((items[0], "]" + rest));
    assert ("]" + rest)[1..] == rest;
    assert [items[0]] == items;
  }

  /** The first element, a comma, then the remaining elements as read on their own. */
  lemma ParseItemThenMore(items: seq<Value>, rest: string)
    requires |items| >= 2
    requires ParseItems(StringifyItems(items[1..]) + "]" + rest) == Some((items[1..], rest))
    ensures ParseItems(StringifyItems(items) + "]" + rest) == Some((items, rest))
    decreases items, 0
  {
    var s := StringifyItems(items) + "]" + rest;
    var tail := StringifyItems(items[1..]) + "]" + rest;
    assert s == Stringify(items[0]) + ("," + tail);
    ParseStringifyValue(items[0], "," + tail);
    assert ParseValue(s) == Some((items[0], "," + tail));
    assert ("," + tail)[1..] == tail;
    assert [items[0]] + items[1..] == items;
  }

  /** Reading `"key":value` followed by a delimiter. */
  lemma ParseMemberHead(m: Member, after: string)
    requires Delimited(after)
    ensures ParseMember(StringifyMember(m) + after) == Some((m, after))
    decreases m, 3
  {
    var rest1 := ":" + (Stringify(m.val) + after);
    var s := "\"" + (Escape(m.key) + "\"" + rest1);
    assert StringifyMember(m) + after == s;
    assert s[1..] == Escape(m.key) + "\"" + rest1;
    ParseEscape(m.key, rest1);
    assert rest1[1..] == Stringify(m.val) + after;
    ParseStringifyValue(m.val, after);
  }

  /** The last member, then the closing brace. */
  lemma ParseLastMember(m: Member, rest: string)
    ensures ParseMembers(StringifyMember(m) + ("}" + rest)) == Some(([m], rest))
    decreases m, 4
  {
    ParseMemberHead(m, "}" + rest);
    assert ("}" + rest)[1..] == rest;
  }

  /** A member, a comma, then members that read on their own. */
  lemma ParseMemberThenMore(m: Member, t: string, ms: seq<Member>, rest: string)
    requires ParseMembers(t) == Some((ms, rest))
    ensures ParseMembers(StringifyMember(m) + ("," + t)) == Some(([m] + ms, rest))
    decreases m, 4
  {
    ParseMemberHead(m, "," + t);
    assert ("," + t)[1..] == t;
  }

  lemma {:induction false} ParseStringifyMembers(ms: seq<Member>, rest: string)
    requires ms != []
    ensures ParseMembers(StringifyMembers(ms) + "}" + rest) == Some((ms, rest))
    decreases ms, 0
  {
    var m := ms[0];
    if |ms| > 1 {
      var t := StringifyMembers(ms[1..]) + "}" + rest;
      assert StringifyMembers(ms) + "}" + rest == StringifyMember(m) + ("," + t);
      ParseStringifyMembers(ms[1..], rest);
      ParseMemberThenMore(m, t, ms[1..], rest);
      assert [m] + ms[1..] == ms;
    } else {
      assert StringifyMembers(ms) + "}" + rest == StringifyMember(m) + ("}" + rest);
      ParseLastMember(m, rest);
      assert [m] == ms;
    }
  }

  /** `JSON.parse(JSON.stringify(v))` is `v`. */
  lemma ParseStringify(v: Value)
    ensures Parse(Stringify(v)) == Some(v)
  {
    ParseStringifyValue(v, "");
    assert Stringify(v) + "" == Stringify(v);
  }

  /** For every value other than a string, String(v) is already JSON text for v. */
  lemma ToTextIsJsonOfScalar(v: Value)
    requires !v.Str? && !IsObject(v)
    ensures ToText(v) == Stringify(v)
  {
  }
}
