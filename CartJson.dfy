/**
 * The text a cart is stored as: `JSON.stringify` of the array of cart lines,
 * each an object with the keys `_id`, `name`, `price` and `quantity` in that
 * order, and the reader `JSON.parse` applies to it. Strings are escaped as
 * section 25.5.2.3 (QuoteJSONString) of ECMA-262 prescribes.
 */
module CartJson {
  import opened Wrappers
  import opened Decimal
  import opened CartReducer

  /** `JSON.parse` throws a SyntaxError on text it cannot read. */
  datatype JsonError = SyntaxError

  const Backspace: char := 8 as char
  const FormFeed: char := 12 as char

  function HexChar(d: nat): (c: char)
    requires d < 16
  {
    "0123456789abcdef"[d]
  }

  function HexValue(c: char): (r: Option<nat>)
    ensures r.Some? ==> r.value < 16
  {
    if '0' <= c <= '9' then Some(c as int - '0' as int)
    else if 'a' <= c <= 'f' then Some(c as int - 'a' as int + 10)
    else if 'A' <= c <= 'F' then Some(c as int - 'A' as int + 10)
    else None
  }

  /** How `JSON.stringify` writes one character inside a string literal. */
  function EscapeChar(c: char): (e: string)
    ensures |e| >= 1
  {
    if c == '"' then "\\\""
    else if c == '\\' then "\\\\"
    else if c == Backspace then "\\b"
    else if c == FormFeed then "\\f"
    else if c == '\n' then "\\n"
    else if c == '\r' then "\\r"
    else if c == '\t' then "\\t"
    else if (c as int) < 0x20 then "\\u00" + [HexChar(c as int / 16), HexChar(c as int % 16)]
    else [c]
  }

  function Escape(s: string): string
  {
    if s == [] then [] else EscapeChar(s[0]) + Escape(s[1..])
  }

  function EncodeString(s: string): string
  {
    "\"" + Escape(s) + "\""
  }

  function EncodeItem(line: CartItem): string
  {
    "{\"_id\":" + EncodeString(line.id)
    + ",\"name\":" + EncodeString(line.name)
    + ",\"price\":" + IntToString(line.price)
    + ",\"quantity\":" + IntToString(line.quantity) + "}"
  }

  function EncodeItems(cart: Cart): string
  {
    if cart == [] then ""
    else if |cart| == 1 then EncodeItem(cart[0])
    else EncodeItem(cart[0]) + "," + EncodeItems(cart[1..])
  }

  /** `JSON.stringify(cart)`. */
  function EncodeCart(cart: Cart): (s: string)
    ensures |s| >= 2 && s[0] == '[' && s[|s| - 1] == ']'
  {
    "[" + EncodeItems(cart) + "]"
  }

  /** Consumes the literal `lit` at the front of `s`. */
  function Expect(lit: string, s: string): (r: Option<string>)
    ensures r.Some? ==> |lit| <= |s| && r.value == s[|lit|..] && |r.value| == |s| - |lit|
  {
    if |lit| <= |s| && s[..|lit|] == lit then Some(s[|lit|..]) else None
  }

  /** Four hexadecimal digits naming a code unit that is a character (not a surrogate). */
  function ParseHex4(s: string): (r: Option<(char, string)>)
    ensures r.Some? ==> |r.value.1| < |s|
  {
    if |s| < 4 then None
    else
      var h0 :- HexValue(s[0]);
      var h1 :- HexValue(s[1]);
      var h2 :- HexValue(s[2]);
      var h3 :- HexValue(s[3]);
      var v := h0 * 4096 + h1 * 256 + h2 * 16 + h3;
      if 0xD800 <= v < 0xE000 then None else Some((v as char, s[4..]))
  }

  /** The character an escape sequence stands for; `s` follows the backslash. */
  function ParseEscape(s: string): (r: Option<(char, string)>)
    ensures r.Some? ==> |r.value.1| < |s|
  {
    if s == [] then None
    else if s[0] == '"' then Some(('"', s[1..]))
    else if s[0] == '\\' then Some(('\\', s[1..]))
    else if s[0] == '/' then Some(('/', s[1..]))
    else if s[0] == 'b' then Some((Backspace, s[1..]))
    else if s[0] == 'f' then Some((FormFeed, s[1..]))
    else if s[0] == 'n' then Some(('\n', s[1..]))
    else if s[0] == 'r' then Some(('\r', s[1..]))
    else if s[0] == 't' then Some(('\t', s[1..]))
    else if s[0] == 'u' then ParseHex4(s[1..])
    else None
  }

  function Prepend(c: char, r: Option<(string, string)>): Option<(string, string)>
  {
    match r
    case None => None
    case Some((body, rest)) => Some(([c] + body, rest))
  }

  /** Reads the characters of a string literal up to and including its closing quote. */
  function ParseStringBody(s: string): (r: Option<(string, string)>)
    ensures r.Some? ==> |r.value.1| < |s|
    decreases |s|
  {
    if s == [] then None
    else if s[0] == '"' then Some(([], s[1..]))
    else if s[0] == '\\' then
      match ParseEscape(s[1..])
      case None => None
      case Some((c, rest)) => Prepend(c, ParseStringBody(rest))
    else if (s[0] as int) < 0x20 then None
    else Prepend(s[0], ParseStringBody(s[1..]))
  }

  function ParseString(s: string): (r: Option<(string, string)>)
    ensures r.Some? ==> |r.value.1| < |s|
  {
    var s1 :- Expect("\"", s);
    ParseStringBody(s1)
  }

  /** A key literal (with its punctuation) followed by a string value. */
  function ParseStringField(key: string, s: string): (r: Option<(string, string)>)
    ensures r.Some? ==> |r.value.1| < |s|
  {
    var s1 :- Expect(key, s);
    ParseString(s1)
  }

  /** A key literal (with its punctuation) followed by a number. */
  function ParseIntField(key: string, s: string): (r: Option<(int, string)>)
    ensures r.Some? ==> |r.value.1| < |s|
  {
    var s1 :- Expect(key, s);
    ParseInt(s1)
  }

  function ParseItem(s: string): (r: Option<(CartItem, string)>)
    ensures r.Some? ==> |r.value.1| < |s|
  {
    var id :- ParseStringField("{\"_id\":", s);
    var name :- ParseStringField(",\"name\":", id.1);
    var price :- ParseIntField(",\"price\":", name.1);
    var quantity :- ParseIntField(",\"quantity\":", price.1);
    var rest :- Expect("}", quantity.1);
    Some((CartItem(id.0, name.0, price.0, quantity.0), rest))
  }

  /** Reads one or more comma-separated cart lines and the closing bracket, which must end the text. */
  function ParseItems(s: string): Option<Cart>
    decreases |s|
  {
    var item :- ParseItem(s);
    var rest := item.1;
    if rest == "]" then Some([item.0])
    else if rest != [] && rest[0] == ',' then
      var tail :- ParseItems(rest[1..]);
      Some([item.0] + tail)
    else None
  }

  function ParseCart(s: string): Option<Cart>
  {
    var s1 :- Expect("[", s);
    if s1 == "]" then Some([]) else ParseItems(s1)
  }

  /** `JSON.parse(text)` read as a cart. */
  function DecodeCart(text: string): Result<Cart, JsonError>
  {
    match ParseCart(text)
    case Some(cart) => Success(cart)
    case None => Failure(SyntaxError)
  }

  lemma ExpectLiteral(lit: string, t: string)
    ensures Expect(lit, lit + t) == Some(t)
  {
    assert (lit + t)[..|lit|] == lit;
    assert (lit + t)[|lit|..] == t;
  }

  /** A control character written as `\u00XX` reads back as itself. */
  lemma UnicodeEscapeStep(c: char, t: string)
    requires (c as int) < 0x20
    ensures ParseStringBody("\\u00" + [HexChar(c as int / 16), HexChar(c as int % 16)] + t) == Prepend(c, ParseStringBody(t))
  {
    var n := c as int;
    var hex := ['0', '0', HexChar(n / 16), HexChar(n % 16)];
    var s := "\\u00" + [HexChar(n / 16), HexChar(n % 16)] + t;
    assert s == ['\\', 'u'] + (hex + t);
    assert s[1..][1..] == hex + t;
    assert HexValue(HexChar(n / 16)) == Some(n / 16);
    assert HexValue(HexChar(n % 16)) == Some(n % 16);
    assert (hex + t)[4..] == t;
    assert ParseHex4(hex + t) == Some((c, t));
  }

  /** A two-character escape `\x` reads back as the character it stands for. */
  lemma ShortEscapeStep(c: char, x: char, t: string)
    requires ParseEscape([x] + t) == Some((c, t))
    ensures ParseStringBody(['\\', x] + t) == Prepend(c, ParseStringBody(t))
  {
    assert (['\\', x] + t)[1..] == [x] + t;
  }

  lemma EscapeCharStep(c: char, t: string)
    ensures ParseStringBody(EscapeChar(c) + t) == Prepend(c, ParseStringBody(t))
  {
    if c == '"' {
      assert ([c] + t)[1..] == t;
      ShortEscapeStep(c, c, t);
    } else if c == '\\' {
      assert ([c] + t)[1..] == t;
      ShortEscapeStep(c, c, t);
    } else if c == Backspace {
      assert (['b'] + t)[1..] == t;
      ShortEscapeStep(c, 'b', t);
    } else if c == FormFeed {
      assert (['f'] + t)[1..] == t;
      ShortEscapeStep(c, 'f', t);
    } else if c == '\n' {
      assert (['n'] + t)[1..] == t;
      ShortEscapeStep(c, 'n', t);
    } else if c == '\r' {
      assert (['r'] + t)[1..] == t;
      ShortEscapeStep(c, 'r', t);
    } else if c == '\t' {
      assert (['t'] + t)[1..] == t;
      ShortEscapeStep(c, 't', t);
    } else if (c as int) < 0x20 {
      UnicodeEscapeStep(c, t);
    } else {
      assert ([c] + t)[1..] == t;
    }
  }

  lemma {:induction false} EscapeRoundTrip(x: string, t: string)
    ensures ParseStringBody(Escape(x) + "\"" + t) == Some((x, t))
  {
    if x == [] {
      assert Escape(x) + "\"" + t == "\"" + t;
      assert ("\"" + t)[1..] == t;
    } else {
      var tail := Escape(x[1..]) + "\"" + t;
      assert Escape(x) + "\"" + t == EscapeChar(x[0]) + tail;
      EscapeCharStep(x[0], tail);
      EscapeRoundTrip(x[1..], t);
      assert [x[0]] + x[1..] == x;
    }
  }

  /** Reading back an encoded string literal yields the string and what followed it. */
  lemma StringRoundTrip(x: string, t: string)
    ensures ParseString(EncodeString(x) + t) == Some((x, t))
  {
    assert EncodeString(x) + t == "\"" + (Escape(x) + "\"" + t);
    ExpectLiteral("\"", Escape(x) + "\"" + t);
    EscapeRoundTrip(x, t);
  }

  lemma StringFieldRoundTrip(key: string, x: string, t: string)
    ensures ParseStringField(key, key + EncodeString(x) + t) == Some((x, t))
  {
    assert key + EncodeString(x) + t == key + (EncodeString(x) + t);
    ExpectLiteral(key, EncodeString(x) + t);
    StringRoundTrip(x, t);
  }

  lemma IntFieldRoundTrip(key: string, n: int, t: string)
    requires t == [] || !IsDigit(t[0])
    ensures ParseIntField(key, key + IntToString(n) + t) == Some((n, t))
  {
    assert key + IntToString(n) + t == key + (IntToString(n) + t);
    ExpectLiteral(key, IntToString(n) + t);
    IntToStringRoundTrip(n, t);
  }

  /** ParseItem succeeds when each of its fields, read in turn, does. */
  lemma ParseItemFields(s: string, line: CartItem, s1: string, s2: string, s3: string, s4: string, t: string)
    requires ParseStringField("{\"_id\":", s) == Some((line.id, s1))
    requires ParseStringField(",\"name\":", s1) == Some((line.name, s2))
    requires ParseIntField(",\"price\":", s2) == Some((line.price, s3))
    requires ParseIntField(",\"quantity\":", s3) == Some((line.quantity, s4))
    requires Expect("}", s4) == Some(t)
    ensures ParseItem(s) == Some((line, t))
  {
  }

  /** Regrouping the nine pieces of an encoded line and what follows it. */
  lemma Regroup(a: string, b: string, c: string, d: string, e: string, f: string,
                g: string, h: string, i: string, t: string)
    ensures a + b + c + d + e + f + g + h + i + t == a + b + (c + d + (e + f + (g + h + (i + t))))
  {
  }

  lemma ItemRoundTrip(line: CartItem, t: string)
    ensures ParseItem(EncodeItem(line) + t) == Some((line, t))
  {
    var k1, k2, k3, k4 := "{\"_id\":", ",\"name\":", ",\"price\":", ",\"quantity\":";
    var close := "}" + t;
    var q := k4 + IntToString(line.quantity) + close;
    var p := k3 + IntToString(line.price) + q;
    var n := k2 + EncodeString(line.name) + p;
    Regroup(k1, EncodeString(line.id), k2, EncodeString(line.name), k3, IntToString(line.price),
            k4, IntToString(line.quantity), "}", t);
    assert EncodeItem(line) + t == k1 + EncodeString(line.id) + n;
    StringFieldRoundTrip(k1, line.id, n);
    StringFieldRoundTrip(k2, line.name, p);
    IntFieldRoundTrip(k3, line.price, q);
    IntFieldRoundTrip(k4, line.quantity, close);
    ExpectLiteral("}", t);
    ParseItemFields(EncodeItem(line) + t, line, n, p, q, close, t);
  }

  lemma SeqAssoc3(a: string, b: string, c: string, d: string)
    ensures a + b + c + d == a + (b + (c + d))
  {
  }

  lemma ParseLastItem(s: string, line: CartItem)
    requires ParseItem(s) == Some((line, "]"))
    ensures ParseItems(s) == Some([line])
  {
  }

  lemma ParseNextItem(line: CartItem, rest: string, tail: Cart)
    requires ParseItems(rest) == Some(tail)
    ensures ParseItems(EncodeItem(line) + ("," + rest)) == Some([line] + tail)
  {
    ItemRoundTrip(line, "," + rest);
    assert ("," + rest)[1..] == rest;
  }

  /** The encoded lines of a non-empty cart and the closing bracket, built line by line. */
  function EncodeRest(cart: Cart): string
    requires cart != []
  {
    if |cart| == 1 then EncodeItem(cart[0]) + "]"
    else EncodeItem(cart[0]) + ("," + EncodeRest(cart[1..]))
  }

  lemma {:induction false} EncodeRestIsItems(cart: Cart)
    requires cart != []
    ensures EncodeRest(cart) == EncodeItems(cart) + "]"
  {
    if |cart| > 1 {
      EncodeRestIsItems(cart[1..]);
      SeqAssoc3(EncodeItem(cart[0]), ",", EncodeItems(cart[1..]), "]");
    }
  }

  lemma ParseSingleItem(line: CartItem)
    ensures ParseItems(EncodeItem(line) + "]") == Some([line])
  {
    ItemRoundTrip(line, "]");
    ParseLastItem(EncodeItem(line) + "]", line);
  }

  lemma {:induction false} ItemsRoundTrip(cart: Cart)
    requires cart != []
    ensures ParseItems(EncodeRest(cart)) == Some(cart)
  {
    if |cart| == 1 {
      ParseSingleItem(cart[0]);
      assert [cart[0]] == cart;
    } else {
      ItemsRoundTrip(cart[1..]);
      ParseNextItem(cart[0], EncodeRest(cart[1..]), cart[1..]);
      assert [cart[0]] + cart[1..] == cart;
    }
  }

  /** Decoding the stored text of any cart gives the same cart: lines, order and quantities. */
  lemma CartRoundTrip(cart: Cart)
    ensures DecodeCart(EncodeCart(cart)) == Success(cart)
  {
    ExpectLiteral("[", EncodeItems(cart) + "]");
    assert EncodeCart(cart) == "[" + (EncodeItems(cart) + "]");
    if cart != [] {
      ItemsRoundTrip(cart);
      EncodeRestIsItems(cart);
      assert EncodeItems(cart) + "]" != "]" by {
        assert |EncodeItems(cart)| > 0 by {
          assert |EncodeItem(cart[0])| > 0;
        }
      }
    }
  }
}
