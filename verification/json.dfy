/**
 * The part of `JSON.stringify` the request runner relies on: a flat object
 * whose members are strings, integers or booleans, written as RFC 8259 text.
 * String contents are escaped the way ECMAScript's QuoteJSONString does it
 * (short escapes for the quote, the backslash and five control characters,
 * `\u00xx` with lower-case hex digits for the other controls).
 */
module Json {
  import opened Wrappers
  import Text

  /** What a reader took off the front of a text: the value read and the length it took. */
  datatype Read<T> = Fail | Took(value: T, len: nat)

  /** A member value of a request's parameter object. */
  datatype Scalar = JStr(s: string) | JInt(n: int) | JBool(b: bool)

  /** U+0008 and U+000C, which JSON writes as `\b` and `\f`. */
  const Backspace: char := 8 as char
  const FormFeed: char := 12 as char

  function HexDigit(d: nat): (c: char)
    requires d < 16
  {
    "0123456789abcdef"[d]
  }

  function HexValue(c: char): (d: Option<nat>)
  {
    if '0' <= c <= '9' then Some(c as int - '0' as int)
    else if 'a' <= c <= 'f' then Some(c as int - 'a' as int + 10)
    else if 'A' <= c <= 'F' then Some(c as int - 'A' as int + 10)
    else None
  }

  /** The escaped form of one character inside a JSON string. */
  function EscapeChar(c: char): (t: string)
    ensures |t| >= 1
  {
    if c == '"' then "\\\""
    else if c == '\\' then "\\\\"
    else if c == Backspace then "\\b"
    else if c == '\t' then "\\t"
    else if c == '\n' then "\\n"
    else if c == FormFeed then "\\f"
    else if c == '\r' then "\\r"
    else if c < ' ' then "\\u00" + [HexDigit(c as int / 16), HexDigit(c as int % 16)]
    else [c]
  }

  function Escape(s: string): (t: string)
    ensures |t| >= |s|
  {
    if s == [] then "" else EscapeChar(s[0]) + Escape(s[1..])
  }

  /** `JSON.stringify` of a string: the escaped text between double quotes. */
  function Quote(s: string): (q: string)
    ensures |q| >= 2 && q[0] == '"' && q[|q| - 1] == '"'
  {
    "\"" + Escape(s) + "\""
  }

  function Prepend(c: char, rest: Option<string>): (r: Option<string>)
  {
    match rest
    case None => None
    case Some(r) => Some([c] + r)
  }

  /**
   * One character of string contents at the front of `t`, decoded, and the
   * length of its text: an escape the writer above produces or one of the
   * other short escapes of RFC 8259, or a plain character. Fails on a bare
   * quote, a bare control character, a malformed escape or an escaped
   * surrogate code unit (so an escaped surrogate pair is refused).
   */
  function DecodeOne(t: string): (r: Read<char>)
    ensures r.Took? ==> 1 <= r.len <= |t|
  {
    if t == [] || t[0] == '"' || t[0] < ' ' then Fail
    else if t[0] != '\\' then Took(t[0], 1)
    else if |t| < 2 then Fail
    else if t[1] == 'u' then
      if |t| < 6 then Fail
      else
        var h := [HexValue(t[2]), HexValue(t[3]), HexValue(t[4]), HexValue(t[5])];
        if h[0].None? || h[1].None? || h[2].None? || h[3].None? then Fail
        else
          var code := ((h[0].value * 16 + h[1].value) * 16 + h[2].value) * 16 + h[3].value;
          if 0xD800 <= code < 0xE000 then Fail else Took(code as char, 6)
    else if t[1] == '"' then Took('"', 2)
    else if t[1] == '\\' then Took('\\', 2)
    else if t[1] == '/' then Took('/', 2)
    else if t[1] == 'b' then Took(Backspace, 2)
    else if t[1] == 't' then Took('\t', 2)
    else if t[1] == 'n' then Took('\n', 2)
    else if t[1] == 'f' then Took(FormFeed, 2)
    else if t[1] == 'r' then Took('\r', 2)
    else Fail
  }

  /** The string contents `t` (what lies between the quotes), decoded; None when some character does not decode. */
  function Unescape(t: string): (r: Option<string>)
    decreases |t|
  {
    if t == [] then Some("")
    else
      var c := DecodeOne(t);
      if c.Fail? then None else Prepend(c.value, Unescape(t[c.len..]))
  }

  lemma HexRoundTrip(d: nat)
    requires d < 16
    ensures HexValue(HexDigit(d)) == Some(d)
  {
  }

  /** The escape of one character decodes to that character, whatever follows. */
  lemma DecodeEscapeChar(c: char, rest: string)
    ensures DecodeOne(EscapeChar(c) + rest) == Took(c, |EscapeChar(c)|)
  {
    var t := EscapeChar(c) + rest;
    if c < ' ' && c != Backspace && c != '\t' && c != '\n' && c != FormFeed && c != '\r' {
      var hi, lo := c as int / 16, c as int % 16;
      HexRoundTrip(hi);
      HexRoundTrip(lo);
      assert t[2] == '0' && t[3] == '0' && t[4] == HexDigit(hi) && t[5] == HexDigit(lo);
    }
  }

  /** Reading the escape of one character gives that character, whatever follows. */
  lemma UnescapeChar(c: char, rest: string)
    ensures Unescape(EscapeChar(c) + rest) == Prepend(c, Unescape(rest))
  {
    DecodeEscapeChar(c, rest);
    assert (EscapeChar(c) + rest)[|EscapeChar(c)|..] == rest;
  }

  /** Every string survives `JSON.stringify` and `Unescape`, the reader of the escapes it writes, unchanged. */
  lemma {:induction false} EscapeRoundTrip(s: string)
    ensures Unescape(Escape(s)) == Some(s)
  {
    if s != [] {
      UnescapeChar(s[0], Escape(s[1..]));
      EscapeRoundTrip(s[1..]);
      assert [s[0]] + s[1..] == s;
    }
  }

  /** The JSON text of one member value. */
  function ScalarText(v: Scalar): (text: string)
  {
    match v
    case JStr(s) => Quote(s)
    case JInt(n) => Text.IntToString(n)
    case JBool(b) => if b then "true" else "false"
  }

  /** The JSON text of one member: the quoted key, a colon and the value. */
  function MemberText(m: (string, Scalar)): (text: string)
    ensures |text| >= 3 && text[0] == '"'
  {
    Quote(m.0) + ":" + ScalarText(m.1)
  }

  function MemberTexts(members: seq<(string, Scalar)>): (ts: seq<string>)
    ensures |ts| == |members|
  {
    if members == [] then []
    else [MemberText(members[0])] + MemberTexts(members[1..])
  }

  /** `JSON.stringify` of a flat object whose members are listed in order. */
  function Stringify(members: seq<(string, Scalar)>): (text: string)
    ensures |text| >= 2 && text[0] == '{' && text[|text| - 1] == '}'
    ensures members == [] ==> text == "{}"
  {
    "{" + Text.Join(MemberTexts(members), ',') + "}"
  }

  /*
   * A reader of flat objects in the form the writer above produces: no
   * white space, member values that are strings, decimal integers or
   * booleans. `StringifyRoundTrip` pairs it with `Stringify`.
   */

  /** String contents up to and including the closing quote, decoded, and the length they take. */
  function ReadChars(t: string): (r: Read<string>)
    ensures r.Took? ==> 1 <= r.len <= |t|
    decreases |t|
  {
    if t == [] then Fail
    else if t[0] == '"' then Took("", 1)
    else
      var c := DecodeOne(t);
      if c.Fail? then Fail
      else
        var rest := ReadChars(t[c.len..]);
        if rest.Fail? then Fail else Took([c.value] + rest.value, c.len + rest.len)
  }

  /** A string literal at the front of `t`: its contents and the length it takes, quotes included. */
  function ReadString(t: string): (r: Read<string>)
    ensures r.Took? ==> 2 <= r.len <= |t|
  {
    if t == [] || t[0] != '"' then Fail
    else
      var s := ReadChars(t[1..]);
      if s.Fail? then Fail else Took(s.value, s.len + 1)
  }

  /** Position of the first `,` or `}` in `t`, or `|t|`: where a bare value ends. */
  function TokenEnd(t: string): (k: nat)
    ensures k <= |t|
  {
    if t == [] || t[0] == ',' || t[0] == '}' then 0 else 1 + TokenEnd(t[1..])
  }

  predicate AllDigits(t: string)
    decreases |t|
  {
    t == [] || ('0' <= t[0] <= '9' && AllDigits(t[1..]))
  }

  /** A bare value: `true`, `false`, or an optional minus sign and decimal digits. */
  function ParseToken(tok: string): (r: Option<Scalar>)
    ensures r.Some? ==> tok != []
  {
    if tok == "true" then Some(JBool(true))
    else if tok == "false" then Some(JBool(false))
    else if |tok| >= 2 && tok[0] == '-' && AllDigits(tok[1..]) then Some(JInt(-(Text.DigitsValue(tok[1..]) as int)))
    else if tok != [] && AllDigits(tok) then Some(JInt(Text.DigitsValue(tok)))
    else None
  }

  /** A member value at the front of `t` and the length it takes. */
  function ReadValue(t: string): (r: Read<Scalar>)
  {
    if t != [] && t[0] == '"' then
      var s := ReadString(t);
      if s.Fail? then Fail else Took(JStr(s.value), s.len)
    else
      var k := TokenEnd(t);
      var v := ParseToken(t[..k]);
      if v.None? then Fail else Took(v.value, k)
  }

  /** `first`, then the character `sep`, then `second`, at the front of `t`. */
  function ReadPair<A, B>(first: string -> Read<A>, sep: char, second: string -> Read<B>, t: string): (r: Read<(A, B)>)
  {
    var a := first(t);
    if a.Fail? || a.len >= |t| || t[a.len] != sep then Fail
    else
      var b := second(t[a.len + 1..]);
      if b.Fail? then Fail else Took((a.value, b.value), a.len + 1 + b.len)
  }

  /** A member `"key":value` at the front of `t` and the length it takes. */
  function ReadMember(t: string): (r: Read<(string, Scalar)>)
  {
    ReadPair(ReadString, ':', ReadValue, t)
  }

  /**
   * Items read by `item`, each followed by `,` except the last, which the
   * closing `}` ends; None when the text does not have that form (an item
   * that takes nothing ends the reading).
   */
  function SepBy<T>(item: string -> Read<T>, t: string): (r: Option<seq<T>>)
    ensures r.Some? ==> r.value != []
    decreases |t|
  {
    var first := item(t);
    if first.Fail? || first.len == 0 || first.len >= |t| then None
    else if t[first.len] == ',' then
      var rest := SepBy(item, t[first.len + 1..]);
      if rest.None? then None else Some([first.value] + rest.value)
    else if t[first.len] == '}' && first.len + 1 == |t| then Some([first.value])
    else None
  }

  /** The members of a flat object text, or None when the text is not one. */
  function ParseObject(text: string): (r: Option<seq<(string, Scalar)>>)
    ensures r.Some? ==> text != [] && text[0] == '{'
  {
    if text == "{}" then Some([])
    else if text == [] || text[0] != '{' then None
    else SepBy(ReadMember, text[1..])
  }

  /** The escaped text of a string and a closing quote read back as the string. */
  lemma {:induction false} ReadCharsEscape(s: string, rest: string)
    ensures ReadChars(Escape(s) + "\"" + rest) == Took(s, |Escape(s)| + 1)
  {
    if s == [] {
      assert Escape(s) + "\"" + rest == "\"" + rest;
    } else {
      var e := EscapeChar(s[0]);
      var tail := Escape(s[1..]) + "\"" + rest;
      assert Escape(s) + "\"" + rest == e + tail;
      DecodeEscapeChar(s[0], tail);
      assert (e + tail)[|e|..] == tail;
      ReadCharsEscape(s[1..], rest);
      assert [s[0]] + s[1..] == s;
    }
  }

  /** A quoted string reads back as the string, and the reader stops after its closing quote. */
  lemma ReadStringQuote(s: string, rest: string)
    ensures ReadString(Quote(s) + rest) == Took(s, |Quote(s)|)
  {
    var t := Quote(s) + rest;
    assert t[1..] == Escape(s) + "\"" + rest;
    ReadCharsEscape(s, rest);
  }

  /** A bare value followed by `,` or `}` ends at that character. */
  lemma {:induction false} TokenEndPlain(x: string, d: char, rest: string)
    requires forall i :: 0 <= i < |x| ==> x[i] != ',' && x[i] != '}'
    requires d == ',' || d == '}'
    ensures TokenEnd(x + [d] + rest) == |x|
  {
    if x == [] {
      assert x + [d] + rest == [d] + rest;
    } else {
      assert (x + [d] + rest)[1..] == x[1..] + [d] + rest;
      TokenEndPlain(x[1..], d, rest);
    }
  }

  lemma {:induction false} DigitsAreDigits(t: string)
    requires forall i :: 0 <= i < |t| ==> '0' <= t[i] <= '9'
    ensures AllDigits(t)
  {
    if t != [] {
      DigitsAreDigits(t[1..]);
    }
  }

  lemma ParseDigits(tok: string)
    requires tok != [] && '0' <= tok[0] <= '9' && AllDigits(tok)
    ensures ParseToken(tok) == Some(JInt(Text.DigitsValue(tok)))
  {
    assert tok[0] != "true"[0] && tok[0] != "false"[0];
  }

  lemma ParseNegative(tok: string)
    requires |tok| >= 2 && tok[0] == '-' && AllDigits(tok[1..])
    ensures ParseToken(tok) == Some(JInt(-(Text.DigitsValue(tok[1..]) as int)))
  {
    assert tok[0] != "true"[0] && tok[0] != "false"[0];
  }

  /** Every integer's decimal text reads back as that integer. */
  lemma IntTokenRoundTrip(n: int)
    ensures ParseToken(Text.IntToString(n)) == Some(JInt(n))
  {
    if n < 0 {
      NegativeTokenRoundTrip(-n);
    } else {
      NaturalTokenRoundTrip(n);
    }
  }

  lemma NaturalTokenRoundTrip(n: nat)
    ensures ParseToken(Text.NatToString(n)) == Some(JInt(n))
  {
    var tok := Text.NatToString(n);
    DigitsAreDigits(tok);
    ParseDigits(tok);
    Text.NatToStringRoundTrip(n);
  }

  lemma NegativeTokenRoundTrip(k: nat)
    requires k > 0
    ensures ParseToken("-" + Text.NatToString(k)) == Some(JInt(-(k as int)))
  {
    var digits := Text.NatToString(k);
    var tok := "-" + digits;
    assert tok[1..] == digits;
    DigitsAreDigits(digits);
    ParseNegative(tok);
    Text.NatToStringRoundTrip(k);
  }

  /** A bare value that holds no `"`, `,` or `}` is read up to the `,` or `}` after it. */
  lemma ReadValueToken(tok: string, v: Scalar, d: char, rest: string)
    requires tok != [] && tok[0] != '"'
    requires forall i :: 0 <= i < |tok| ==> tok[i] != ',' && tok[i] != '}'
    requires ParseToken(tok) == Some(v)
    requires d == ',' || d == '}'
    ensures ReadValue(tok + [d] + rest) == Took(v, |tok|)
  {
    TokenEndPlain(tok, d, rest);
    assert (tok + [d] + rest)[..|tok|] == tok;
  }

  /** A member value followed by `,` or `}` reads back, taking exactly its own text. */
  lemma ReadValueScalar(v: Scalar, d: char, rest: string)
    requires d == ',' || d == '}'
    ensures ReadValue(ScalarText(v) + [d] + rest) == Took(v, |ScalarText(v)|)
  {
    match v
    case JStr(s) =>
      assert Quote(s) + [d] + rest == Quote(s) + ([d] + rest);
      ReadStringQuote(s, [d] + rest);
    case JInt(n) =>
      IntTokenRoundTrip(n);
      ReadValueToken(Text.IntToString(n), v, d, rest);
    case JBool(b) =>
      ReadValueToken(if b then "true" else "false", v, d, rest);
  }

  /** How `ReadPair` combines what its two readers take. */
  lemma ReadPairStep<A, B>(first: string -> Read<A>, sep: char, second: string -> Read<B>, t: string, a: A, n: nat, b: B, m: nat)
    requires first(t) == Took(a, n)
    requires n < |t| && t[n] == sep
    requires second(t[n + 1..]) == Took(b, m)
    ensures ReadPair(first, sep, second, t) == Took((a, b), n + 1 + m)
  {
  }

  /** `first` taking exactly `x`, the separator, and `second` taking exactly `y`: the pair takes all three. */
  lemma ReadPairText<A, B>(first: string -> Read<A>, sep: char, second: string -> Read<B>, x: string, y: string, tail: string, a: A, b: B)
    requires first(x + ([sep] + y + tail)) == Took(a, |x|)
    requires second(y + tail) == Took(b, |y|)
    ensures ReadPair(first, sep, second, x + ([sep] + y + tail)) == Took((a, b), |x| + 1 + |y|)
  {
    var t := x + ([sep] + y + tail);
    assert t[|x|] == sep;
    assert t[|x| + 1..] == y + tail;
    ReadPairStep(first, sep, second, t, a, |x|, b, |y|);
  }

  /** A member followed by `,` or `}` reads back, taking exactly its own text. */
  lemma ReadMemberText(m: (string, Scalar), d: char, rest: string)
    requires d == ',' || d == '}'
    ensures ReadMember(MemberText(m) + [d] + rest) == Took(m, |MemberText(m)|)
  {
    var key, value := Quote(m.0), ScalarText(m.1);
    MemberTextParts(key, value, d, rest);
    ReadStringQuote(m.0, [':'] + value + ([d] + rest));
    ReadValueScalar(m.1, d, rest);
    ReadPairText(ReadString, ':', ReadValue, key, value, [d] + rest, m.0, m.1);
  }

  lemma MemberTextParts(key: string, value: string, d: char, rest: string)
    ensures key + ":" + value + [d] + rest == key + ([':'] + value + ([d] + rest))
    ensures value + [d] + rest == value + ([d] + rest)
  {
  }

  /** How `SepBy` continues after an item and a comma. */
  lemma SepByComma<T>(item: string -> Read<T>, t: string, x: T, n: nat, xs: seq<T>)
    requires item(t) == Took(x, n) && 1 <= n < |t| && t[n] == ','
    requires SepBy(item, t[n + 1..]) == Some(xs)
    ensures SepBy(item, t) == Some([x] + xs)
  {
  }

  /** How `SepBy` ends after the last item and the closing brace. */
  lemma SepByLast<T>(item: string -> Read<T>, t: string, x: T, n: nat)
    requires item(t) == Took(x, n) && 1 <= n && n + 1 == |t| && t[n] == '}'
    ensures SepBy(item, t) == Some([x])
  {
  }

  /** An item taking exactly `piece`, then a comma and what reads back as `xs`. */
  lemma SepByPiece<T>(item: string -> Read<T>, piece: string, tail: string, x: T, xs: seq<T>)
    requires item(piece + [','] + tail) == Took(x, |piece|) && piece != []
    requires SepBy(item, tail) == Some(xs)
    ensures SepBy(item, piece + [','] + tail) == Some([x] + xs)
  {
    var t := piece + [','] + tail;
    assert t[|piece| + 1..] == tail;
    SepByComma(item, t, x, |piece|, xs);
  }

  /** An item taking exactly `piece`, then the closing brace. */
  lemma SepByLastPiece<T>(item: string -> Read<T>, piece: string, x: T)
    requires item(piece + ['}'] + "") == Took(x, |piece|) && piece != []
    ensures SepBy(item, piece + ['}'] + "") == Some([x])
  {
    SepByLast(item, piece + ['}'] + "", x, |piece|);
  }

  /** Two or more joined texts and the closing brace: the first, a comma, the rest closed. */
  lemma JoinClose(texts: seq<string>)
    requires |texts| >= 2
    ensures Text.Join(texts, ',') + "}" == texts[0] + [','] + (Text.Join(texts[1..], ',') + "}")
  {
    Text.JoinCons(texts, ',');
    CloseAfterJoin(texts[0], Text.Join(texts[1..], ','));
  }

  lemma CloseAfterJoin(head: string, others: string)
    ensures head + [','] + others + "}" == head + [','] + (others + "}")
  {
  }

  /** The member texts of a non-empty list: the first member's text, then the others'. */
  lemma MemberTextsCons(members: seq<(string, Scalar)>)
    requires members != []
    ensures MemberTexts(members)[0] == MemberText(members[0])
    ensures MemberTexts(members)[1..] == MemberTexts(members[1..])
    ensures [members[0]] + members[1..] == members
  {
  }

  /** The text of a single member and the closing brace. */
  lemma JoinOne(members: seq<(string, Scalar)>)
    requires |members| == 1
    ensures Text.Join(MemberTexts(members), ',') + "}" == MemberText(members[0]) + ['}'] + ""
    ensures [members[0]] == members
  {
    assert MemberTexts(members) == [MemberText(members[0])];
  }

  /** The comma-joined members and the closing brace read back as the members. */
  lemma {:induction false} ParseMembersJoin(members: seq<(string, Scalar)>)
    requires members != []
    ensures SepBy(ReadMember, Text.Join(MemberTexts(members), ',') + "}") == Some(members)
  {
    if |members| == 1 {
      JoinOne(members);
      ReadMemberText(members[0], '}', "");
      SepByLastPiece(ReadMember, MemberText(members[0]), members[0]);
    } else {
      var tail := Text.Join(MemberTexts(members[1..]), ',') + "}";
      ParseMembersJoin(members[1..]);
      MemberTextsCons(members);
      JoinClose(MemberTexts(members));
      ReadMemberText(members[0], ',', tail);
      SepByPiece(ReadMember, MemberText(members[0]), tail, members[0], members[1..]);
    }
  }

  /** An object text: where its body starts. */
  lemma BraceParts(body: string)
    requires |body| >= 1
    ensures |"{" + body + "}"| != |"{}"| && ("{" + body + "}")[0] == '{'
    ensures ("{" + body + "}")[1..] == body + "}"
  {
    assert ("{" + body + "}")[1..] == body + "}";
  }

  /** `JSON.stringify` of a flat object is read back as exactly its members, in order. */
  lemma StringifyRoundTrip(members: seq<(string, Scalar)>)
    ensures ParseObject(Stringify(members)) == Some(members)
  {
    if members != [] {
      var texts := MemberTexts(members);
      assert |texts[0]| >= 3;
      BraceParts(Text.Join(texts, ','));
      ParseMembersJoin(members);
    }
  }
}
