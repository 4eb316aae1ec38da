/** Percent-encoding of text (sections 2.1 and 2.3 of RFC 3986) over its UTF-8 octets (section 3 of RFC 3629). */
module PercentEncoding {
  import opened Schema

  type Octet = x: int | 0 <= x < 256

  // ---- UTF-8 ----------------------------------------------------------------------------------

  function CharOctets(c: char): (r: seq<Octet>)
    ensures r != []
  {
    var x := c as int;
    if x < 0x80 then [x]
    else if x < 0x800 then [0xC0 + x / 0x40, 0x80 + x % 0x40]
    else if x < 0x10000 then [0xE0 + x / 0x1000, 0x80 + x / 0x40 % 0x40, 0x80 + x % 0x40]
    else [0xF0 + x / 0x40000, 0x80 + x / 0x1000 % 0x40, 0x80 + x / 0x40 % 0x40, 0x80 + x % 0x40]
  }

  function Octets(s: string): seq<Octet> {
    if s == "" then [] else CharOctets(s[0]) + Octets(s[1..])
  }

  /** How many octets a character starting with `lead` takes. */
  function Width(lead: Octet): nat {
    if lead < 0x80 then 1 else if lead < 0xE0 then 2 else if lead < 0xF0 then 3 else 4
  }

  /** The bits of an octet above `marker`. */
  function Bits(x: Octet, marker: int): int { x - marker }

  function CodePoint(b: seq<Octet>): int
    requires b != [] && |b| == Width(b[0])
  {
    if |b| == 1 then Bits(b[0], 0)
    else if |b| == 2 then Bits(b[0], 0xC0) * 0x40 + Bits(b[1], 0x80)
    else if |b| == 3 then (Bits(b[0], 0xE0) * 0x40 + Bits(b[1], 0x80)) * 0x40 + Bits(b[2], 0x80)
    else ((Bits(b[0], 0xF0) * 0x40 + Bits(b[1], 0x80)) * 0x40 + Bits(b[2], 0x80)) * 0x40 + Bits(b[3], 0x80)
  }

  predicate Scalar(x: int) { 0 <= x < 0xD800 || 0xE000 <= x < 0x110000 }

  function Text(b: seq<Octet>): Option<string> {
    if b == [] then Some("")
    else
      var n := Width(b[0]);
      if n > |b| || !Scalar(CodePoint(b[..n])) then None
      else
        var rest := Text(b[n..]);
        if rest.None? then None else Some([CodePoint(b[..n]) as char] + rest.value)
  }

  lemma Quotients(x: nat)
    ensures x / 0x1000 == x / 0x40 / 0x40 && x / 0x40000 == x / 0x1000 / 0x40
  {
  }

  lemma CharRoundTrip(c: char)
    ensures Width(CharOctets(c)[0]) == |CharOctets(c)|
    ensures CodePoint(CharOctets(c)) == c as int
  {
    var x := c as int;
    Quotients(x);
    assert x == x / 0x40 * 0x40 + x % 0x40;
    assert x / 0x40 == x / 0x1000 * 0x40 + x / 0x40 % 0x40;
    assert x / 0x1000 == x / 0x40000 * 0x40 + x / 0x1000 % 0x40;
  }

  lemma {:induction false} TextOfOctets(s: string)
    ensures Text(Octets(s)) == Some(s)
  {
    if s != "" {
      var head, rest := CharOctets(s[0]), Octets(s[1..]);
      CharRoundTrip(s[0]);
      TextOfOctets(s[1..]);
      assert (head + rest)[..|head|] == head && (head + rest)[|head|..] == rest;
      assert [s[0]] + s[1..] == s;
    }
  }

  // ---- octets as characters -------------------------------------------------------------------

  /** The unreserved characters: letters, digits and four marks. */
  predicate Unreserved(x: int) {
    0x61 <= x <= 0x7A || 0x41 <= x <= 0x5A || 0x30 <= x <= 0x39 || x == 0x5F || x == 0x2E || x == 0x2D || x == 0x7E
  }

  function HexDigit(d: int): (c: char)
    requires 0 <= d < 16
    ensures Unreserved(c as int)
  {
    if d < 10 then (0x30 + d) as char else (0x41 + d - 10) as char
  }

  function HexValue(c: char): int {
    if '0' <= c <= '9' then c as int - 0x30 else if 'A' <= c <= 'F' then c as int - 0x41 + 10 else -1
  }

  function QuoteOctet(x: Octet): string {
    if Unreserved(x) then [x as char] else ['%', HexDigit(x / 16), HexDigit(x % 16)]
  }

  function QuoteOctets(b: seq<Octet>): string {
    if b == [] then "" else QuoteOctet(b[0]) + QuoteOctets(b[1..])
  }

  function UnquoteOctets(s: string): Option<seq<Octet>> {
    if s == "" then Some([])
    else if s[0] != '%' then
      if !Unreserved(s[0] as int) then None
      else
        var rest := UnquoteOctets(s[1..]);
        if rest.None? then None else Some([s[0] as int] + rest.value)
    else if |s| < 3 || HexValue(s[1]) < 0 || HexValue(s[2]) < 0 then None
    else
      var rest := UnquoteOctets(s[3..]);
      if rest.None? then None else Some([HexValue(s[1]) * 16 + HexValue(s[2])] + rest.value)
  }

  lemma {:induction false} UnquoteOfQuote(b: seq<Octet>)
    ensures UnquoteOctets(QuoteOctets(b)) == Some(b)
  {
    if b != [] {
      var head, rest := QuoteOctet(b[0]), QuoteOctets(b[1..]);
      UnquoteOfQuote(b[1..]);
      assert (head + rest)[|head|..] == rest;
      assert [b[0]] + b[1..] == b;
    }
  }

  predicate QuotedChar(c: char) { c == '%' || Unreserved(c as int) }

  lemma {:induction false} QuotedChars(b: seq<Octet>)
    ensures forall c | c in QuoteOctets(b) :: QuotedChar(c)
  {
    if b != [] {
      QuotedChars(b[1..]);
    }
  }

  // ---- text -----------------------------------------------------------------------------------

  /** `urllib.parse.quote(text, safe="")`. */
  function Quote(s: string): string { QuoteOctets(Octets(s)) }

  function Unquote(s: string): Option<string> {
    var b := UnquoteOctets(s);
    if b.None? then None else Text(b.value)
  }

  /** Every text can be read back from its encoding, which holds nothing but unreserved characters and '%'. */
  lemma QuoteRoundTrip(s: string)
    ensures Unquote(Quote(s)) == Some(s)
    ensures forall c | c in Quote(s) :: QuotedChar(c)
  {
    UnquoteOfQuote(Octets(s));
    TextOfOctets(s);
    QuotedChars(Octets(s));
  }
}
