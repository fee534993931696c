/** JavaScript values as `JSON.parse` produces them, the truthiness that the
    `||` and `? :` operators test, and the `JSON.stringify` / `JSON.parse`
    pair restricted to arrays of strings, which is how recipes store their
    ingredient, instruction and tag lists. */
module Json {
  import opened Wrappers
  import opened Text

  /** A parsed JSON value. Numbers are integers in this model. */
  datatype Json =
    | JNull
    | JBool(b: bool)
    | JNumber(n: int)
    | JString(s: string)
    | JArray(items: seq<Json>)
    | JObject(fields: map<string, Json>)

  /** JavaScript truthiness, where `None` stands for `undefined`: `undefined`,
      `null`, `false`, `0` and `""` are falsy, everything else (including an
      empty array or object) is truthy. */
  predicate Truthy(v: Option<Json>) {
    match v
    case None => false
    case Some(JNull) => false
    case Some(JBool(b)) => b
    case Some(JNumber(n)) => n != 0
    case Some(JString(s)) => s != ""
    case Some(_) => true
  }

  /** JavaScript's `v || fallback`. */
  function Or(v: Option<Json>, fallback: Json): Json {
    if Truthy(v) then v.value else fallback
  }

  /** The property `key` of `v`: an object's own field, `undefined` (`None`)
      for any other key and for every non-object value other than `null`. */
  function Lookup(v: Json, key: string): Option<Json> {
    if v.JObject? && key in v.fields then Some(v.fields[key]) else None
  }

  /** `v` is an array whose every element is a string. */
  predicate IsStringArray(v: Json) {
    v.JArray? && forall i :: 0 <= i < |v.items| ==> v.items[i].JString?
  }

  /** The strings of an array of strings. */
  function Strings(v: Json): (r: seq<string>)
    requires IsStringArray(v)
    ensures |r| == |v.items|
    ensures forall i :: 0 <= i < |r| ==> v.items[i] == JString(r[i])
  {
    seq(|v.items|, i requires 0 <= i < |v.items| => v.items[i].s)
  }

  /** The array of strings holding `xs`. */
  function StringArray(xs: seq<string>): (v: Json)
    ensures IsStringArray(v) && |v.items| == |xs|
    ensures forall i :: 0 <= i < |xs| ==> v.items[i] == JString(xs[i])
  {
    JArray(seq(|xs|, i requires 0 <= i < |xs| => JString(xs[i])))
  }

  // ---------------------------------------------------------------------
  // JSON.stringify for strings and arrays of strings

  function HexDigit(d: nat): char
    requires d < 16
  {
    if d < 10 then DigitChar(d) else ('a' as int + d - 10) as char
  }

  /** How `JSON.stringify` writes one character inside a string literal: the
      quote and the backslash are escaped, the control characters below
      U+0020 use their short escape or `\u00xx`, all others stand for
      themselves. */
  function EscapeChar(c: char): string {
    if c == '"' then "\\\""
    else if c == '\\' then "\\\\"
    else if c as int == 8 then "\\b"
    else if c == '\t' then "\\t"
    else if c == '\n' then "\\n"
    else if c as int == 12 then "\\f"
    else if c == '\r' then "\\r"
    else if c as int < 0x20 then "\\u00" + [HexDigit(c as int / 16), HexDigit(c as int % 16)]
    else [c]
  }

  function EscapeString(s: string): string {
    if s == [] then "" else EscapeChar(s[0]) + EscapeString(s[1..])
  }

  /** `JSON.stringify(s)` for a string. */
  function EncodeString(s: string): string {
    "\"" + EscapeString(s) + "\""
  }

  function EncodeItems(xs: seq<string>): string {
    if xs == [] then ""
    else if |xs| == 1 then EncodeString(xs[0])
    else EncodeString(xs[0]) + "," + EncodeItems(xs[1..])
  }

  /** `JSON.stringify(xs)` for an array of strings: no spaces, comma separated. */
  function EncodeStringArray(xs: seq<string>): (r: string)
    ensures |r| >= 2 && r[0] == '[' && r[|r| - 1] == ']'
  {
    "[" + EncodeItems(xs) + "]"
  }

  // ---------------------------------------------------------------------
  // JSON.parse for arrays of strings

  /** The whitespace JSON allows between tokens. */
  predicate IsJsonSpace(c: char) {
    c == ' ' || c == '\t' || c == '\n' || c == '\r'
  }

  function SkipSpace(s: string): (r: string)
    ensures |r| <= |s|
    ensures r == [] || !IsJsonSpace(r[0])
  {
    if s != [] && IsJsonSpace(s[0]) then SkipSpace(s[1..]) else s
  }

  function HexValue(c: char): Option<nat> {
    if '0' <= c <= '9' then Some(c as int - '0' as int)
    else if 'a' <= c <= 'f' then Some(c as int - 'a' as int + 10)
    else if 'A' <= c <= 'F' then Some(c as int - 'A' as int + 10)
    else None
  }

  /** The value of four hexadecimal digits. */
  function Hex4(s: string): (r: Option<nat>)
    requires |s| >= 4
    ensures r.Some? ==> r.value < 0x10000
  {
    match (HexValue(s[0]), HexValue(s[1]), HexValue(s[2]), HexValue(s[3]))
    case (Some(a), Some(b), Some(c), Some(d)) =>
      if a < 16 && b < 16 && c < 16 && d < 16 then Some(((a * 16 + b) * 16 + c) * 16 + d) else None
    case _ => None
  }

  /** The character that the escape sequence after a backslash stands for,
      and how many characters of `s` the sequence takes. */
  function Unescape(s: string): (r: Option<(char, nat)>)
    ensures r.Some? ==> 1 <= r.value.1 <= |s|
  {
    if s == [] then None
    else if s[0] == '"' then Some(('"', 1))
    else if s[0] == '\\' then Some(('\\', 1))
    else if s[0] == '/' then Some(('/', 1))
    else if s[0] == 'b' then Some((8 as char, 1))
    else if s[0] == 'f' then Some((12 as char, 1))
    else if s[0] == 'n' then Some(('\n', 1))
    else if s[0] == 'r' then Some(('\r', 1))
    else if s[0] == 't' then Some(('\t', 1))
    else if s[0] == 'u' then HexEscape(s)
    else None
  }

  /** A `\u` escape, `s` starting at the `u`: four hexadecimal digits give
      the character, except that a high-surrogate value must be followed by
      a low-surrogate escape, the pair standing for the one character it
      encodes in UTF-16, and a low-surrogate value on its own stands for no
      character a string here can hold. */
  function HexEscape(s: string): (r: Option<(char, nat)>)
    requires s != [] && s[0] == 'u'
    ensures r.Some? ==> 5 <= r.value.1 <= |s|
  {
    if |s| < 5 then None
    else
      match Hex4(s[1..5])
      case None => None
      case Some(v) =>
        if 0xD800 <= v < 0xDC00 then LowSurrogate(s[5..], v)
        else if 0xDC00 <= v < 0xE000 then None
        else Some((v as char, 5))
  }

  /** The character a UTF-16 surrogate pair encodes: the high half carries
      its upper ten bits, the low half its lower ten. */
  function PairChar(high: nat, low: nat): (c: char)
    requires 0xD800 <= high < 0xDC00 && 0xDC00 <= low < 0xE000
    ensures 0x10000 <= c as int < 0x110000
    ensures (c as int - 0x10000) / 0x400 == high - 0xD800
    ensures (c as int - 0x10000) % 0x400 == low - 0xDC00
  {
    (0x10000 + (high - 0xD800) * 0x400 + (low - 0xDC00)) as char
  }

  /** After a high-surrogate escape with value `high`: the low-surrogate
      escape `\uDC00`-`\uDFFF` that completes the pair, and the character of
      the pair with the length of both escapes, counted from the `u` of the
      first. */
  function LowSurrogate(s: string, high: nat): (r: Option<(char, nat)>)
    requires 0xD800 <= high < 0xDC00
    ensures r.Some? <==>
      |s| >= 6 && s[0] == '\\' && s[1] == 'u' && Hex4(s[2..6]).Some? && 0xDC00 <= Hex4(s[2..6]).value < 0xE000
    ensures r.Some? ==> r.value == (PairChar(high, Hex4(s[2..6]).value), 11)
  {
    if |s| >= 6 && s[0] == '\\' && s[1] == 'u' then
      match Hex4(s[2..6])
      case Some(low) =>
        if 0xDC00 <= low < 0xE000 then Some((PairChar(high, low), 11))
        else None
      case None => None
    else None
  }

  /** The rest of a string literal after its opening quote: the decoded text
      and whatever follows the closing quote. */
  function ParseChars(s: string): (r: Option<(string, string)>)
    ensures r.Some? ==> |r.value.1| < |s|
    decreases |s|
  {
    if s == [] then None
    else if s[0] == '"' then Some(("", s[1..]))
    else if s[0] == '\\' then
      match Unescape(s[1..])
      case None => None
      case Some((c, n)) =>
        match ParseChars(s[1 + n..])
        case None => None
        case Some((body, rest)) => Some(([c] + body, rest))
    else if s[0] as int < 0x20 then None
    else
      match ParseChars(s[1..])
      case None => None
      case Some((body, rest)) => Some(([s[0]] + body, rest))
  }

  /** One or more string literals separated by commas and closed by `]`: the
      decoded strings and what follows the bracket. */
  function ParseItems(s: string): (r: Option<(seq<string>, string)>)
    ensures r.Some? ==> |r.value.1| < |s|
    decreases |s|
  {
    var t := SkipSpace(s);
    if t == [] || t[0] != '"' then None
    else
      match ParseChars(t[1..])
      case None => None
      case Some((x, rest)) =>
        var u := SkipSpace(rest);
        if u != [] && u[0] == ']' then Some(([x], u[1..]))
        else if u != [] && u[0] == ',' then
          match ParseItems(u[1..])
          case None => None
          case Some((xs, rest')) => Some(([x] + xs, rest'))
        else None
  }

  /** After any leading whitespace, `s` opens an array. */
  predicate OpensArray(s: string) {
    SkipSpace(s) != [] && SkipSpace(s)[0] == '['
  }

  /** `JSON.parse(s)` where it yields an array of strings; `None` where
      `JSON.parse` throws, where it would yield any other value, and where a
      string holds an unpaired surrogate escape. */
  function DecodeStringArray(s: string): (r: Option<seq<string>>)
    ensures r.Some? ==> OpensArray(s)
  {
    var t := SkipSpace(s);
    if t == [] || t[0] != '[' then None
    else
      var u := SkipSpace(t[1..]);
      if u != [] && u[0] == ']' then
        if SkipSpace(u[1..]) == [] then Some([]) else None
      else
        match ParseItems(u)
        case None => None
        case Some((xs, rest)) => if SkipSpace(rest) == [] then Some(xs) else None
  }

  // ---------------------------------------------------------------------
  // The round trip

  lemma HexDigitValue(d: nat)
    requires d < 16
    ensures HexValue(HexDigit(d)) == Some(d)
  {
  }

  /** What `ParseChars` gives for a text once `c` is put before the text
      it decoded. */
  function Prepended(c: char, r: Option<(string, string)>): Option<(string, string)> {
    match r
    case None => None
    case Some((body, rest)) => Some(([c] + body, rest))
  }

  /** A character with a two-character escape. */
  predicate ShortEscaped(c: char) {
    c == '"' || c == '\\' || c as int == 8 || c == '\t' || c == '\n' || c as int == 12 || c == '\r'
  }

  lemma ShortEscapeParses(c: char, tail: string)
    requires ShortEscaped(c)
    ensures ParseChars(EscapeChar(c) + tail) == Prepended(c, ParseChars(tail))
  {
    var s := EscapeChar(c) + tail;
    assert s[0] == '\\' && s[1..] == [EscapeChar(c)[1]] + tail;
    assert Unescape(s[1..]) == Some((c, 1));
    assert s[2..] == tail;
  }

  /** Four hexadecimal digits `00hl` read back as the value of one byte. */
  lemma Hex4OfByte(v: nat)
    requires v < 0x100
    ensures Hex4("00" + [HexDigit(v / 16), HexDigit(v % 16)]) == Some(v)
  {
    HexDigitValue(v / 16);
    HexDigitValue(v % 16);
  }

  lemma UnicodeEscapeParses(c: char, tail: string)
    requires c as int < 0x20 && !ShortEscaped(c)
    ensures ParseChars(EscapeChar(c) + tail) == Prepended(c, ParseChars(tail))
  {
    var hex := "00" + [HexDigit(c as int / 16), HexDigit(c as int % 16)];
    var s := EscapeChar(c) + tail;
    assert EscapeChar(c) == "\\u" + hex;
    assert s[1..] == "u" + hex + tail;
    assert s[1..][1..5] == hex;
    Hex4OfByte(c as int);
    assert s[1..][0] == 'u' && |s[1..]| >= 5 && !(0xD800 <= c as int < 0xE000);
    assert HexEscape(s[1..]) == Some((c, 5));
    assert Unescape(s[1..]) == Some((c, 5));
    assert s[6..] == tail;
  }

  /** One escaped character decodes back to itself, whatever follows it. */
  lemma EscapeCharParses(c: char, tail: string)
    ensures ParseChars(EscapeChar(c) + tail) == Prepended(c, ParseChars(tail))
  {
    if ShortEscaped(c) {
      ShortEscapeParses(c, tail);
    } else if c as int < 0x20 {
      UnicodeEscapeParses(c, tail);
    } else {
      var s := EscapeChar(c) + tail;
      assert s[1..] == tail;
    }
  }

  /** An escaped string followed by the closing quote decodes back to the
      string, leaving what follows. */
  lemma {:induction false} EscapeStringParses(x: string, rest: string)
    ensures ParseChars(EscapeString(x) + "\"" + rest) == Some((x, rest))
  {
    if x == [] {
      assert EscapeString(x) + "\"" + rest == "\"" + rest;
    } else {
      var tail := EscapeString(x[1..]) + "\"" + rest;
      EscapeStringParses(x[1..], rest);
      EscapeCharParses(x[0], tail);
      assert EscapeString(x) + "\"" + rest == EscapeChar(x[0]) + tail;
      assert [x[0]] + x[1..] == x;
    }
  }

  /** The opening quote of a literal followed by a comma or a closing
      bracket: the literal is read and the separator is next. */
  lemma LiteralParses(x: string, after: string)
    requires after != [] && (after[0] == ',' || after[0] == ']')
    ensures var t := SkipSpace(EncodeString(x) + after);
      t != [] && t[0] == '"' && ParseChars(t[1..]) == Some((x, after)) && SkipSpace(after) == after
  {
    var s := EncodeString(x) + after;
    assert s == "\"" + (EscapeString(x) + "\"" + after);
    assert s[0] == '"' && !IsJsonSpace(s[0]);
    assert SkipSpace(s) == s;
    assert !IsJsonSpace(after[0]);
    assert s[1..] == EscapeString(x) + "\"" + after;
    EscapeStringParses(x, after);
  }

  /** A literal followed by `]`: the array ends after it. */
  lemma LastItemParses(x: string, rest: string)
    ensures ParseItems(EncodeString(x) + "]" + rest) == Some(([x], rest))
  {
    var after := "]" + rest;
    assert EncodeString(x) + "]" + rest == EncodeString(x) + after;
    LiteralParses(x, after);
    assert after[1..] == rest;
  }

  /** A literal followed by `,`: the array goes on with the items after it. */
  lemma NextItemParses(x: string, tail: string)
    ensures ParseItems(EncodeString(x) + "," + tail) ==
      match ParseItems(tail)
      case None => None
      case Some((xs, rest)) => Some(([x] + xs, rest))
  {
    var after := "," + tail;
    assert EncodeString(x) + "," + tail == EncodeString(x) + after;
    LiteralParses(x, after);
    assert after[1..] == tail;
  }

  lemma {:induction false} EncodeItemsParse(xs: seq<string>, rest: string)
    requires xs != []
    ensures ParseItems(EncodeItems(xs) + "]" + rest) == Some((xs, rest))
    decreases |xs|
  {
    if |xs| == 1 {
      LastItemParses(xs[0], rest);
      assert EncodeItems(xs) == EncodeString(xs[0]);
      assert [xs[0]] == xs;
    } else {
      var tail := EncodeItems(xs[1..]) + "]" + rest;
      assert EncodeItems(xs) + "]" + rest == EncodeString(xs[0]) + "," + tail;
      NextItemParses(xs[0], tail);
      EncodeItemsParse(xs[1..], rest);
      assert [xs[0]] + xs[1..] == xs;
    }
  }

  /** `JSON.parse(JSON.stringify(xs))` gives back `xs` for every array of
      strings. */
  lemma EncodeDecode(xs: seq<string>)
    ensures DecodeStringArray(EncodeStringArray(xs)) == Some(xs)
  {
    var s := EncodeStringArray(xs);
    assert SkipSpace(s) == s;
    if xs == [] {
      assert s[1..] == "]";
    } else {
      var items := EncodeItems(xs);
      assert s[1..] == items + "]" + "";
      assert items[0] == '"';
      assert SkipSpace(s[1..]) == s[1..];
      EncodeItemsParse(xs, "");
    }
  }

  /** A high-surrogate escape followed by a low-surrogate escape decodes to
      the one character of the pair, whatever follows. */
  lemma SurrogatePairParses(esc: string, tail: string)
    requires |esc| == 12 && esc[0] == '\\' && esc[1] == 'u' && esc[6] == '\\' && esc[7] == 'u'
    requires Hex4(esc[2..6]).Some? && 0xD800 <= Hex4(esc[2..6]).value < 0xDC00
    requires Hex4(esc[8..12]).Some? && 0xDC00 <= Hex4(esc[8..12]).value < 0xE000
    ensures ParseChars(esc + tail) ==
      Prepended(PairChar(Hex4(esc[2..6]).value, Hex4(esc[8..12]).value), ParseChars(tail))
  {
    var s := esc + tail;
    var u := s[1..];
    assert u[1..5] == esc[2..6];
    assert u[5..][2..6] == esc[8..12];
    assert u[5..][0] == '\\' && u[5..][1] == 'u';
    var c := PairChar(Hex4(esc[2..6]).value, Hex4(esc[8..12]).value);
    assert HexEscape(u) == Some((c, 11));
    assert s[12..] == tail;
  }

  /** An array of one literal whose text after the opening quote reads as
      `x` up to the closing bracket. */
  lemma SingleLiteralArray(body: string, x: string)
    requires ParseChars(body) == Some((x, "]"))
    ensures DecodeStringArray("[\"" + body) == Some([x])
  {
    var s := "[\"" + body;
    assert s[0] == '[' && s[1..] == "\"" + body;
    assert s[1..][0] == '"' && s[1..][1..] == body;
    assert SkipSpace("]") == "]" && "]"[1..] == "";
  }

  /** An array holding one string written as a surrogate pair of escapes
      decodes to the one character of the pair. */
  lemma SurrogatePairArray(esc: string)
    requires |esc| == 12 && esc[0] == '\\' && esc[1] == 'u' && esc[6] == '\\' && esc[7] == 'u'
    requires Hex4(esc[2..6]).Some? && 0xD800 <= Hex4(esc[2..6]).value < 0xDC00
    requires Hex4(esc[8..12]).Some? && 0xDC00 <= Hex4(esc[8..12]).value < 0xE000
    ensures DecodeStringArray("[\"" + esc + "\"]") ==
      Some([[PairChar(Hex4(esc[2..6]).value, Hex4(esc[8..12]).value)]])
  {
    var c := PairChar(Hex4(esc[2..6]).value, Hex4(esc[8..12]).value);
    SurrogatePairParses(esc, "\"]");
    assert ParseChars("\"]") == Some(("", "]"));
    assert [c] + "" == [c];
    SingleLiteralArray(esc + "\"]", [c]);
    assert "[\"" + esc + "\"]" == "[\"" + (esc + "\"]");
  }

  /** The stored text ["\ud83c\udf45"] decodes to the one-character string
      U+1F345, as `JSON.parse` reads it. */
  lemma SurrogatePairDecodes(esc: string)
    requires esc == "\\ud83c\\udf45"
    ensures DecodeStringArray("[\"" + esc + "\"]") == Some([[0x1F345 as char]])
  {
    assert esc[2..6] == "d83c" && esc[8..12] == "df45";
    assert Hex4("d83c") == Some(0xD83C) && Hex4("df45") == Some(0xDF45);
    assert PairChar(0xD83C, 0xDF45) == 0x1F345 as char;
    SurrogatePairArray(esc);
  }
}
