/**
 * JSON (RFC 8259) as the chat pipeline uses it: `JSON.parse` of a line's
 * payload, `JSON.stringify` of an object whose members are strings, and the
 * JavaScript reading of parsed values (property access, truthiness and the
 * string conversion done by `+=`).
 */
module Json {
  import opened Options
  import opened JsText

  /**
   * A value `JSON.parse` can produce. A number keeps its literal text; an
   * object keeps its members as (name, value) pairs in text order.
   */
  datatype Value =
    | Null
    | Bool(b: bool)
    | Num(literal: string)
    | Str(s: string)
    | Arr(items: seq<Value>)
    | Obj(members: seq<(string, Value)>)

  /** Insignificant whitespace between tokens (section 2 of RFC 8259). */
  predicate IsJsonWhitespace(c: char) {
    c == ' ' || c == '\t' || c == '\n' || c == '\r'
  }

  function SkipWhitespace(s: string): (r: string)
    ensures |r| <= |s|
    ensures r == [] || !IsJsonWhitespace(r[0])
  {
    if s != [] && IsJsonWhitespace(s[0]) then SkipWhitespace(s[1..]) else s
  }

  // ---------------------------------------------------------------------------
  // Hexadecimal digits of `\uXXXX` escapes
  // ---------------------------------------------------------------------------

  function HexDigitValue(c: char): (r: Option<nat>)
    ensures r.Some? ==> r.value < 16
  {
    if '0' <= c <= '9' then Some(c as int - '0' as int)
    else if 'a' <= c <= 'f' then Some(c as int - 'a' as int + 10)
    else if 'A' <= c <= 'F' then Some(c as int - 'A' as int + 10)
    else None
  }

  /** The lower-case digit `JSON.stringify` writes for `n`. */
  function HexDigit(n: nat): (c: char)
    requires n < 16
    ensures HexDigitValue(c) == Some(n)
  {
    "0123456789abcdef"[n]
  }

  /** The number written by the four hexadecimal digits at the head of `s`. */
  function Hex4(s: string): (r: Option<nat>)
    requires |s| >= 4
    ensures r.Some? ==> r.value < 0x10000
  {
    match (HexDigitValue(s[0]), HexDigitValue(s[1]), HexDigitValue(s[2]), HexDigitValue(s[3]))
    case (Some(a), Some(b), Some(c), Some(d)) => Some(((a * 16 + b) * 16 + c) * 16 + d)
    case _ => None
  }

  // ---------------------------------------------------------------------------
  // Parsing
  // ---------------------------------------------------------------------------

  /**
   * The character written by the escape sequence whose backslash has just been read
   * (section 7 of RFC 8259), and the text after it. A pair of `\u` escapes for a
   * UTF-16 surrogate pair gives the one character it encodes.
   */
  function ParseEscape(s: string): (r: Option<(char, string)>)
    ensures r.Some? ==> |r.value.1| < |s|
  {
    if s == [] then None
    else if s[0] == '"' || s[0] == '\\' || s[0] == '/' then Some((s[0], s[1..]))
    else if s[0] == 'b' then Some((8 as char, s[1..]))
    else if s[0] == 'f' then Some((12 as char, s[1..]))
    else if s[0] == 'n' then Some(('\n', s[1..]))
    else if s[0] == 'r' then Some(('\r', s[1..]))
    else if s[0] == 't' then Some(('\t', s[1..]))
    else if s[0] == 'u' && |s| >= 5 then
      match Hex4(s[1..5])
      case None => None
      case Some(high) =>
        if 0xD800 <= high < 0xDC00 then
          if |s| >= 11 && s[5] == '\\' && s[6] == 'u' then
            match Hex4(s[7..11])
            case Some(low) =>
              if 0xDC00 <= low < 0xE000
              then Some(((0x10000 + (high - 0xD800) * 0x400 + (low - 0xDC00)) as char, s[11..]))
              else None
            case None => None
          else None
        else if 0xDC00 <= high < 0xE000 then None
        else Some((high as char, s[5..]))
    else None
  }

  /** The characters of a string literal whose opening quote has been read, and the text after its closing quote. */
  function ParseChars(s: string): (r: Option<(string, string)>)
    ensures r.Some? ==> |r.value.1| < |s|
    decreases |s|
  {
    if s == [] then None
    else if s[0] == '"' then Some(("", s[1..]))
    else if s[0] == '\\' then
      match ParseEscape(s[1..])
      case None => None
      case Some((c, rest)) =>
        match ParseChars(rest)
        case None => None
        case Some((t, after)) => Some(([c] + t, after))
    else if (s[0] as int) < 0x20 then None
    else
      match ParseChars(s[1..])
      case None => None
      case Some((t, after)) => Some(([s[0]] + t, after))
  }

  // ---------------------------------------------------------------------------
  // Numbers
  // ---------------------------------------------------------------------------

  predicate IsDigit(c: char) {
    '0' <= c <= '9'
  }

  /** How many decimal digits `s` starts with. */
  function LeadingDigits(s: string): (n: nat)
    ensures n <= |s|
  {
    if s != [] && IsDigit(s[0]) then 1 + LeadingDigits(s[1..]) else 0
  }

  /** Where an optional fraction (`.` and at least one digit) that starts at `i` ends; None when the dot has no digit after it. */
  function FractionEnd(s: string, i: nat): (r: Option<nat>)
    requires i <= |s|
    ensures r.Some? ==> i <= r.value <= |s|
  {
    if i < |s| && s[i] == '.' then
      var digits := LeadingDigits(s[i + 1..]);
      if digits == 0 then None else Some(i + 1 + digits)
    else Some(i)
  }

  /** Where an optional exponent (`e` or `E`, a sign, at least one digit) that starts at `i` ends. */
  function ExponentEnd(s: string, i: nat): (r: Option<nat>)
    requires i <= |s|
    ensures r.Some? ==> i <= r.value <= |s|
  {
    if i < |s| && (s[i] == 'e' || s[i] == 'E') then
      var j := if i + 1 < |s| && (s[i + 1] == '+' || s[i + 1] == '-') then i + 2 else i + 1;
      var digits := LeadingDigits(s[j..]);
      if digits == 0 then None else Some(j + digits)
    else Some(i)
  }

  /**
   * A number at the head of `s` (section 6 of RFC 8259): an optional minus, `0`
   * or a digit run without a leading zero, then an optional fraction and exponent.
   */
  function ParseNumber(s: string): (r: Option<(Value, string)>)
    ensures r.Some? ==> |r.value.1| < |s|
  {
    var sign := if s != [] && s[0] == '-' then 1 else 0;
    var digits := LeadingDigits(s[sign..]);
    if digits == 0 then None
    else
      var intEnd := if s[sign] == '0' then sign + 1 else sign + digits;
      match FractionEnd(s, intEnd)
      case None => None
      case Some(fracEnd) =>
        match ExponentEnd(s, fracEnd)
        case None => None
        case Some(end) => Some((Num(s[..end]), s[end..]))
  }

  // ---------------------------------------------------------------------------
  // Values
  // ---------------------------------------------------------------------------

  /** A value after optional whitespace, and the text after it. */
  function ParseValue(s: string): (r: Option<(Value, string)>)
    ensures r.Some? ==> |r.value.1| < |s|
    decreases |s|, 0
  {
    var t := SkipWhitespace(s);
    if t == [] then None
    else if t[0] == '{' then
      match ParseObject(t[1..])
      case None => None
      case Some((members, rest)) => Some((Obj(members), rest))
    else if t[0] == '[' then
      match ParseArray(t[1..])
      case None => None
      case Some((items, rest)) => Some((Arr(items), rest))
    else if t[0] == '"' then
      match ParseChars(t[1..])
      case None => None
      case Some((str, rest)) => Some((Str(str), rest))
    else if t[0] == '-' || IsDigit(t[0]) then ParseNumber(t)
    else if StartsWith(t, "null") then Some((Null, t[4..]))
    else if StartsWith(t, "true") then Some((Bool(true), t[4..]))
    else if StartsWith(t, "false") then Some((Bool(false), t[5..]))
    else None
  }

  /**
   * The members of an object from the opening quote of a member's name up to and
   * including the closing brace; `done` holds the members already read.
   */
  function ParseMembers(s: string, done: seq<(string, Value)>): (r: Option<(seq<(string, Value)>, string)>)
    ensures r.Some? ==> |r.value.1| < |s|
    decreases |s|, 0
  {
    if s == [] || s[0] != '"' then None
    else
      match ParseChars(s[1..])
      case None => None
      case Some((name, afterName)) =>
        var colon := SkipWhitespace(afterName);
        if colon == [] || colon[0] != ':' then None
        else
          match ParseValue(colon[1..])
          case None => None
          case Some((v, afterValue)) =>
            var next := SkipWhitespace(afterValue);
            if next == [] then None
            else if next[0] == ',' then ParseMembers(SkipWhitespace(next[1..]), done + [(name, v)])
            else if next[0] == '}' then Some((done + [(name, v)], next[1..]))
            else None
  }

  /** The members of an object whose opening brace has been read, and the text after its closing brace. */
  function ParseObject(s: string): (r: Option<(seq<(string, Value)>, string)>)
    ensures r.Some? ==> |r.value.1| < |s|
    decreases |s|, 1
  {
    var t := SkipWhitespace(s);
    if t != [] && t[0] == '}' then Some(([], t[1..])) else ParseMembers(t, [])
  }

  /** The elements of an array from its first element up to and including the closing bracket; `done` holds the elements already read. */
  function ParseElements(s: string, done: seq<Value>): (r: Option<(seq<Value>, string)>)
    ensures r.Some? ==> |r.value.1| < |s|
    decreases |s|, 1
  {
    match ParseValue(s)
    case None => None
    case Some((v, afterValue)) =>
      var next := SkipWhitespace(afterValue);
      if next == [] then None
      else if next[0] == ',' then ParseElements(next[1..], done + [v])
      else if next[0] == ']' then Some((done + [v], next[1..]))
      else None
  }

  /** The elements of an array whose opening bracket has been read, and the text after its closing bracket. */
  function ParseArray(s: string): (r: Option<(seq<Value>, string)>)
    ensures r.Some? ==> |r.value.1| < |s|
    decreases |s|, 2
  {
    var t := SkipWhitespace(s);
    if t != [] && t[0] == ']' then Some(([], t[1..])) else ParseElements(t, [])
  }

  /** `JSON.parse(text)`; None where JSON.parse throws a SyntaxError. */
  function Parse(text: string): Option<Value> {
    match ParseValue(text)
    case None => None
    case Some((v, rest)) => if SkipWhitespace(rest) == [] then Some(v) else None
  }

  // ---------------------------------------------------------------------------
  // Stringifying (ECMAScript QuoteJSONString)
  // ---------------------------------------------------------------------------

  /** How `JSON.stringify` writes one character inside a string literal. */
  function EscapeChar(c: char): (r: string)
    ensures forall i :: 0 <= i < |r| ==> 0x20 <= r[i] as int
  {
    if c == '"' then "\\\""
    else if c == '\\' then "\\\\"
    else if c as int == 8 then "\\b"
    else if c == '\t' then "\\t"
    else if c == '\n' then "\\n"
    else if c as int == 12 then "\\f"
    else if c == '\r' then "\\r"
    else if (c as int) < 0x20 then "\\u00" + [HexDigit(c as int / 16), HexDigit(c as int % 16)]
    else [c]
  }

  /** The body of the string literal `JSON.stringify` writes for `s`: no control character survives. */
  function Escape(s: string): (r: string)
    ensures forall i :: 0 <= i < |r| ==> 0x20 <= r[i] as int
  {
    if s == [] then "" else EscapeChar(s[0]) + Escape(s[1..])
  }

  /** `JSON.stringify(s)` for a string `s`. */
  function Quote(s: string): string {
    "\"" + Escape(s) + "\""
  }

  /** One member `"name":"value"` as `JSON.stringify` writes it. */
  function MemberText(member: (string, string)): string {
    Quote(member.0) + ":" + Quote(member.1)
  }

  /** The members of an object, separated by commas. */
  function MembersText(members: seq<(string, string)>): string {
    if members == [] then ""
    else if |members| == 1 then MemberText(members[0])
    else MemberText(members[0]) + "," + MembersText(members[1..])
  }

  /**
   * `JSON.stringify` of an object whose members, in order, hold strings (a member
   * whose value is `undefined` is omitted by the caller). Its text holds no control
   * character, so no line break.
   */
  function StringifyObject(members: seq<(string, string)>): (r: string)
    ensures forall i :: 0 <= i < |r| ==> 0x20 <= r[i] as int
  {
    StringifyHasNoControl(members);
    "{" + MembersText(members) + "}"
  }

  lemma {:induction false} StringifyHasNoControl(members: seq<(string, string)>)
    ensures forall i :: 0 <= i < |MembersText(members)| ==> 0x20 <= MembersText(members)[i] as int
  {
    if members != [] {
      var first := MemberText(members[0]);
      MemberHasNoControl(members[0]);
      if |members| > 1 {
        StringifyHasNoControl(members[1..]);
        assert NoControl(MembersText(members[1..]));
        NoControlJoin(first, ",");
        NoControlJoin(first + ",", MembersText(members[1..]));
        assert MembersText(members) == first + "," + MembersText(members[1..]);
      }
    }
  }

  /** One member's text has no control character. */
  lemma MemberHasNoControl(member: (string, string))
    ensures NoControl(MemberText(member))
  {
    NoControlJoin(Quote(member.0), ":");
    NoControlJoin(Quote(member.0) + ":", Quote(member.1));
  }

  /** No character of `s` is a control character. */
  predicate NoControl(s: string) {
    forall i :: 0 <= i < |s| ==> 0x20 <= s[i] as int
  }

  /** Joining two texts without control characters gives one without. */
  lemma NoControlJoin(a: string, b: string)
    requires NoControl(a) && NoControl(b)
    ensures NoControl(a + b)
  {
    assert forall i :: |a| <= i < |a + b| ==> (a + b)[i] == b[i - |a|];
  }


  /** The parsed form of string members. */
  function StringMembers(members: seq<(string, string)>): (r: seq<(string, Value)>)
    ensures |r| == |members|
  {
    if members == [] then [] else [(members[0].0, Str(members[0].1))] + StringMembers(members[1..])
  }

  // ---------------------------------------------------------------------------
  // Reading parsed values the way JavaScript does
  // ---------------------------------------------------------------------------

  /** The value of the last member called `key` (JSON.parse keeps the last of duplicate names). */
  function Lookup(members: seq<(string, Value)>, key: string): (r: Option<Value>)
    ensures r.Some? ==> exists i :: 0 <= i < |members| && members[i] == (key, r.value)
                                    && forall j :: i < j < |members| ==> members[j].0 != key
    ensures r.None? <==> forall i :: 0 <= i < |members| ==> members[i].0 != key
  {
    if members == [] then None
    else
      var last := |members| - 1;
      if members[last].0 == key then
        assert members[last] == (key, members[last].1);
        Some(members[last].1)
      else
        var r := Lookup(members[..last], key);
        assert forall i :: 0 <= i < last ==> members[..last][i] == members[i];
        r
  }

  /** The outcome of the property read `data[key]`. */
  datatype Property =
    | Undefined            // the value has no such property
    | Defined(value: Value)
    | NullAccess           // reading a property of `null` throws a TypeError

  /** `v[key]` for a key that is neither an array index nor a built-in property name. */
  function Get(v: Value, key: string): (r: Property)
    ensures r.NullAccess? <==> v == Null
    ensures r.Defined? <==> v.Obj? && exists i :: 0 <= i < |v.members| && v.members[i].0 == key
    ensures r.Defined? ==> exists i :: 0 <= i < |v.members| && v.members[i] == (key, r.value)
                                       && forall j :: i < j < |v.members| ==> v.members[j].0 != key
  {
    match v
    case Null => NullAccess
    case Obj(members) =>
      (match Lookup(members, key)
       case None => Undefined
       case Some(value) => Defined(value))
    case _ => Undefined
  }

  /** The literal of a number that denotes zero: no digit of its mantissa differs from `0`. */
  predicate ZeroLiteral(literal: string) {
    literal == [] || literal[0] == 'e' || literal[0] == 'E'
    || (!('1' <= literal[0] <= '9') && ZeroLiteral(literal[1..]))
  }

  /** Where the mantissa of a number literal ends: at its first exponent marker, or at its end. */
  function MantissaEnd(literal: string): (n: nat)
    ensures n <= |literal|
    ensures forall i :: 0 <= i < n ==> literal[i] != 'e' && literal[i] != 'E'
    ensures n < |literal| ==> literal[n] == 'e' || literal[n] == 'E'
  {
    if literal == [] || literal[0] == 'e' || literal[0] == 'E' then 0
    else 1 + MantissaEnd(literal[1..])
  }

  /** A number literal denotes zero exactly when no digit of its mantissa is `1` to `9`. */
  lemma {:induction false} ZeroLiteralMantissa(literal: string)
    ensures ZeroLiteral(literal) <==> forall i :: 0 <= i < MantissaEnd(literal) ==> !('1' <= literal[i] <= '9')
  {
    if literal != [] && literal[0] != 'e' && literal[0] != 'E' {
      ZeroLiteralMantissa(literal[1..]);
      assert forall i :: 1 <= i < MantissaEnd(literal) ==> literal[i] == literal[1..][i - 1];
    }
  }

  /** JavaScript truthiness of a parsed value. */
  predicate Truthy(v: Value) {
    match v
    case Null => false
    case Bool(b) => b
    case Num(literal) => !ZeroLiteral(literal)
    case Str(s) => s != ""
    case _ => true
  }

  /** A property read that yields a truthy value. */
  predicate IsTruthy(p: Property) {
    p.Defined? && Truthy(p.value)
  }

  /**
   * `String(v)`, as `acc += v` converts it, or `None` when the conversion throws:
   * an object with its own `toString` member, which JSON can only make a
   * non-function, leaves the conversion no method to call.
   */
  function ToJsString(v: Value): Option<string>
    decreases v, 1
  {
    match v
    case Null => Some("null")
    case Bool(b) => Some(if b then "true" else "false")
    case Num(literal) => Some(literal)
    case Str(s) => Some(s)
    case Arr(items) => JoinItems(items)
    case Obj(members) => if Lookup(members, "toString").Some? then None else Some("[object Object]")
  }

  /** `Array.prototype.join(",")` as `String` applies it to an array: `null` elements give empty text. */
  function JoinItems(items: seq<Value>): Option<string>
    decreases items, 0
  {
    if items == [] then Some("")
    else
      var first := if items[0] == Null then Some("") else ToJsString(items[0]);
      if first.None? || |items| == 1 then first
      else
        match JoinItems(items[1..])
        case None => None
        case Some(rest) => Some(first.value + "," + rest)
  }

  /** A value whose conversion to a string reaches an object with its own `toString` member. */
  predicate Unconvertible(v: Value) {
    match v
    case Obj(members) => exists i :: 0 <= i < |members| && members[i].0 == "toString"
    case Arr(items) => exists i :: 0 <= i < |items| && items[i] != Null && Unconvertible(items[i])
    case _ => false
  }

  /** The conversion throws exactly on the values that reach an object with its own `toString`. */
  lemma {:induction false} ToJsStringFails(v: Value)
    ensures ToJsString(v).None? <==> Unconvertible(v)
    decreases v, 1
  {
    match v
    case Arr(items) => JoinItemsFail(items);
    case _ =>
  }

  /** Joining throws exactly when a non-null element's conversion does. */
  lemma {:induction false} JoinItemsFail(items: seq<Value>)
    ensures JoinItems(items).None? <==> exists i :: 0 <= i < |items| && items[i] != Null && Unconvertible(items[i])
    decreases items, 0
  {
    if items != [] {
      if items[0] != Null {
        ToJsStringFails(items[0]);
      }
      if |items| > 1 {
        JoinItemsFail(items[1..]);
        assert forall i :: 1 <= i < |items| ==> items[i] == items[1..][i - 1];
      }
    }
  }

  // ---------------------------------------------------------------------------
  // Round trip: JSON.parse undoes JSON.stringify
  // ---------------------------------------------------------------------------

  /** What `ParseChars` gives for a literal body that starts with the character `c`. */
  function Prepend(c: char, r: Option<(string, string)>): Option<(string, string)> {
    match r
    case None => None
    case Some((t, after)) => Some(([c] + t, after))
  }

  /** Reading the escape of one character gives that character back and reads on after it. */
  lemma ParseEscapedChar(c: char, tail: string)
    ensures ParseChars(EscapeChar(c) + tail) == Prepend(c, ParseChars(tail))
  {
    var e := EscapeChar(c);
    var s := e + tail;
    if |e| == 1 {
      assert s[0] == c && s[1..] == tail;
    } else {
      assert s[0] == '\\' && s[1..] == e[1..] + tail;
      var n := c as int;
      if n < 0x20 && c != '\n' && c != '\r' && c != '\t' && n != 8 && n != 12 {
        ParseUnicodeEscape(c, tail);
      } else {
        assert s[1..][1..] == tail;
        assert ParseEscape(s[1..]) == Some((c, tail));
      }
    }
  }

  /** A control character written as `\u00XX` reads back as itself. */
  lemma ParseUnicodeEscape(c: char, tail: string)
    requires c as int < 0x20 && c != '\n' && c != '\r' && c != '\t' && c as int != 8 && c as int != 12
    ensures |EscapeChar(c)| > 1 && ParseEscape(EscapeChar(c)[1..] + tail) == Some((c, tail))
  {
    var n := c as int;
    var u := EscapeChar(c)[1..] + tail;
    assert u[0] == 'u' && u[1..5] == ['0', '0', HexDigit(n / 16), HexDigit(n % 16)];
    assert Hex4(u[1..5]) == Some(n);
    assert u[5..] == tail;
  }

  /** Reading the literal body `JSON.stringify` wrote for `s` gives `s` back and stops after the closing quote. */
  lemma {:induction false} ParseEscaped(s: string, rest: string)
    ensures ParseChars(Escape(s) + "\"" + rest) == Some((s, rest))
  {
    if s == [] {
      assert Escape(s) + "\"" + rest == ['"'] + rest;
      assert (['"'] + rest)[1..] == rest;
    } else {
      var tail := Escape(s[1..]) + "\"" + rest;
      assert Escape(s) + "\"" + rest == EscapeChar(s[0]) + tail;
      assert [s[0]] + s[1..] == s;
      ParseEscaped(s[1..], rest);
      ParseEscapedChar(s[0], tail);
    }
  }

  /** A string literal written by `JSON.stringify` reads back as that string. */
  lemma ParseQuoted(s: string, rest: string)
    ensures ParseValue(Quote(s) + rest) == Some((Str(s), rest))
  {
    var t := Quote(s) + rest;
    assert t[0] == '"' && t[1..] == Escape(s) + "\"" + rest;
    ParseEscaped(s, rest);
  }

  /** A member name written by `JSON.stringify`, followed by `rest`. */
  lemma ParseQuotedName(key: string, rest: string)
    ensures (Quote(key) + rest)[0] == '"'
    ensures ParseChars((Quote(key) + rest)[1..]) == Some((key, rest))
  {
    assert (Quote(key) + rest)[1..] == Escape(key) + "\"" + rest;
    ParseEscaped(key, rest);
  }

  /** One step of `ParseMembers` over a member followed directly by `,` or `}`. */
  lemma ParseMemberStep(s: string, done: seq<(string, Value)>, name: string, afterName: string, v: Value, afterValue: string)
    requires s != [] && s[0] == '"'
    requires ParseChars(s[1..]) == Some((name, afterName))
    requires afterName != [] && afterName[0] == ':'
    requires ParseValue(afterName[1..]) == Some((v, afterValue))
    requires afterValue != [] && (afterValue[0] == ',' || afterValue[0] == '}')
    ensures afterValue[0] == ',' ==>
      ParseMembers(s, done) == ParseMembers(SkipWhitespace(afterValue[1..]), done + [(name, v)])
    ensures afterValue[0] == '}' ==> ParseMembers(s, done) == Some((done + [(name, v)], afterValue[1..]))
  {
    assert SkipWhitespace(afterName) == afterName;
    assert SkipWhitespace(afterValue) == afterValue;
  }

  /** A member written by `JSON.stringify`, followed by `,` or `}`. */
  lemma ParseMemberText(key: string, value: string, tail: string, done: seq<(string, Value)>)
    requires tail != [] && (tail[0] == ',' || tail[0] == '}')
    ensures tail[0] == ',' ==>
      ParseMembers(MemberText((key, value)) + tail, done)
      == ParseMembers(SkipWhitespace(tail[1..]), done + [(key, Str(value))])
    ensures tail[0] == '}' ==>
      ParseMembers(MemberText((key, value)) + tail, done) == Some((done + [(key, Str(value))], tail[1..]))
  {
    var afterName := ":" + Quote(value) + tail;
    MemberTextThen(key, value, tail);
    ParseMemberParts(key, value, tail);
    ParseMemberStep(Quote(key) + afterName, done, key, afterName, Str(value), tail);
  }

  /** A member's text followed by more text is its quoted name, then the rest. */
  lemma MemberTextThen(key: string, value: string, tail: string)
    ensures MemberText((key, value)) + tail == Quote(key) + (":" + Quote(value) + tail)
  {
  }

  /** The name and the value of a member's text parse back, each as the string it was. */
  lemma ParseMemberParts(key: string, value: string, tail: string)
    ensures var afterName := ":" + Quote(value) + tail;
      var s := Quote(key) + afterName;
      && s != [] && s[0] == '"' && ParseChars(s[1..]) == Some((key, afterName))
      && ParseValue(afterName[1..]) == Some((Str(value), tail))
  {
    var afterName := ":" + Quote(value) + tail;
    ParseQuotedName(key, afterName);
    ParseValueAfterColon(value, tail);
  }

  /** After the colon of a member's text comes its value, which parses back. */
  lemma ParseValueAfterColon(value: string, tail: string)
    ensures var afterName := ":" + Quote(value) + tail;
      ParseValue(afterName[1..]) == Some((Str(value), tail))
  {
    var afterName := ":" + Quote(value) + tail;
    assert afterName[1..] == Quote(value) + tail;
    ParseQuoted(value, tail);
  }

  /** The text `JSON.stringify` writes for some members starts with the quote of the first name. */
  lemma MembersTextStart(members: seq<(string, string)>, rest: string)
    requires members != []
    ensures (MembersText(members) + rest) != [] && (MembersText(members) + rest)[0] == '"'
  {
    assert MembersText(members)[0] == Quote(members[0].0)[0];
  }

  /** Reading past the first of several members written by `JSON.stringify`. */
  lemma ParseFirstMember(members: seq<(string, string)>, done: seq<(string, Value)>, rest: string)
    requires |members| > 1
    ensures ParseMembers(MembersText(members) + "}" + rest, done)
         == ParseMembers(MembersText(members[1..]) + "}" + rest, done + [(members[0].0, Str(members[0].1))])
  {
    var next := MembersText(members[1..]) + "}" + rest;
    assert MembersText(members) + "}" + rest == MemberText(members[0]) + ("," + next);
    assert ("," + next)[1..] == next;
    MembersTextStart(members[1..], "}" + rest);
    assert SkipWhitespace(next) == next;
    ParseMemberText(members[0].0, members[0].1, "," + next, done);
  }

  /** Reading the only, or last, member written by `JSON.stringify`. */
  lemma ParseOnlyMember(member: (string, string), done: seq<(string, Value)>, rest: string)
    ensures ParseMembers(MembersText([member]) + "}" + rest, done) == Some((done + StringMembers([member]), rest))
  {
    assert MembersText([member]) + "}" + rest == MemberText(member) + ("}" + rest);
    assert StringMembers([member]) == [(member.0, Str(member.1))];
    ParseMemberText(member.0, member.1, "}" + rest, done);
  }

  /** The members `JSON.stringify` wrote, then the closing brace, read back. */
  lemma {:induction false} ParseMembersText(members: seq<(string, string)>, done: seq<(string, Value)>, rest: string)
    requires members != []
    ensures ParseMembers(MembersText(members) + "}" + rest, done) == Some((done + StringMembers(members), rest))
  {
    if |members| == 1 {
      assert members == [members[0]];
      ParseOnlyMember(members[0], done, rest);
    } else {
      var first := [(members[0].0, Str(members[0].1))];
      ParseFirstMember(members, done, rest);
      ParseMembersText(members[1..], done + first, rest);
      assert done + first + StringMembers(members[1..]) == done + StringMembers(members);
    }
  }

  /** The text after the opening brace of an object `JSON.stringify` wrote, read back. */
  lemma ParseObjectText(members: seq<(string, string)>, rest: string)
    ensures ParseObject(MembersText(members) + "}" + rest) == Some((StringMembers(members), rest))
  {
    var body := MembersText(members) + "}" + rest;
    if members == [] {
      assert body == "}" + rest;
      assert SkipWhitespace(body) == body;
      assert body[1..] == rest;
    } else {
      MembersTextStart(members, "}" + rest);
      assert MembersText(members) + "}" + rest == MembersText(members) + ("}" + rest);
      assert SkipWhitespace(body) == body;
      ParseMembersText(members, [], rest);
      assert [] + StringMembers(members) == StringMembers(members);
    }
  }

  /** `JSON.parse(JSON.stringify(o))` gives back the members of `o`, in order, for an object `o` of strings. */
  lemma ParseStringifiedObject(members: seq<(string, string)>)
    ensures Parse(StringifyObject(members)) == Some(Obj(StringMembers(members)))
  {
    ParseObjectText(members, "");
    ParseStringifiedValue(members);
  }

  /** The text of an object parses as a value from its opening brace on. */
  lemma ParseStringifiedValue(members: seq<(string, string)>)
    requires ParseObject(MembersText(members) + "}" + "") == Some((StringMembers(members), ""))
    ensures ParseValue(StringifyObject(members)) == Some((Obj(StringMembers(members)), ""))
  {
    var text := StringifyObject(members);
    assert text[0] == '{' && text[1..] == MembersText(members) + "}" + "";
    assert SkipWhitespace(text) == text;
  }
}
