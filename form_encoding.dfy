/**
 * `java.net.URLEncoder.encode(s, "UTF-8")`, the application/x-www-form-urlencoded
 * encoding the generator applies to e-mail subjects and bodies and to geo
 * labels: ASCII letters and digits and the characters `.`, `-`, `*` and `_`
 * are kept, a space becomes `+`, and every other character becomes the
 * `%XX` escapes (upper-case hexadecimal) of its UTF-8 bytes.
 */
module FormEncoding {

  predicate IsAsciiAlphanumeric(c: char) {
    ('a' <= c <= 'z') || ('A' <= c <= 'Z') || ('0' <= c <= '9')
  }

  /** The characters URLEncoder leaves unchanged. */
  predicate IsUnreserved(c: char) {
    IsAsciiAlphanumeric(c) || c == '.' || c == '-' || c == '*' || c == '_'
  }

  /** The characters URLEncoder can produce. */
  predicate IsEncodedChar(c: char) {
    IsUnreserved(c) || c == '+' || c == '%'
  }

  function HexDigit(n: nat): (c: char)
    requires n < 16
    ensures IsAsciiAlphanumeric(c)
  {
    if n < 10 then ('0' as int + n) as char else ('A' as int + n - 10) as char
  }

  /** The UTF-8 encoding of one Unicode scalar value. */
  function Utf8(c: char): (bytes: seq<nat>)
    ensures 1 <= |bytes| <= 4
    ensures forall i :: 0 <= i < |bytes| ==> bytes[i] < 256
  {
    var cp := c as int;
    if cp < 0x80 then [cp]
    else if cp < 0x800 then [0xC0 + cp / 0x40, 0x80 + cp % 0x40]
    else if cp < 0x10000 then
      [0xE0 + cp / 0x1000, 0x80 + (cp / 0x40) % 0x40, 0x80 + cp % 0x40]
    else
      [0xF0 + cp / 0x40000, 0x80 + (cp / 0x1000) % 0x40,
       0x80 + (cp / 0x40) % 0x40, 0x80 + cp % 0x40]
  }

  /** `%XX` for every byte. */
  function PercentEscapes(bytes: seq<nat>): (r: string)
    requires forall i :: 0 <= i < |bytes| ==> bytes[i] < 256
    ensures |r| == 3 * |bytes|
    ensures forall i :: 0 <= i < |r| ==> IsEncodedChar(r[i])
  {
    if |bytes| == 0 then ""
    else
      var b := bytes[0];
      ['%', HexDigit(b / 16), HexDigit(b % 16)] + PercentEscapes(bytes[1..])
  }

  function EncodeChar(c: char): string {
    if IsUnreserved(c) then [c]
    else if c == ' ' then "+"
    else PercentEscapes(Utf8(c))
  }

  /** `URLEncoder.encode(s, "UTF-8")`. */
  function Encode(s: string): string
    decreases |s|
  {
    if |s| == 0 then "" else EncodeChar(s[0]) + Encode(s[1..])
  }

  /** Every character of the encoding is a letter, a digit, or one of
      `. - * _ + %`: in particular it holds no `?`, `&`, `=`, `;`, `:`,
      `(`, `)`, no whitespace and no line break. */
  lemma {:induction false} EncodedAlphabet(s: string)
    ensures forall i :: 0 <= i < |Encode(s)| ==> IsEncodedChar(Encode(s)[i])
    decreases |s|
  {
    if |s| > 0 {
      EncodedAlphabet(s[1..]);
      var head := EncodeChar(s[0]);
      assert forall i :: 0 <= i < |head| ==> IsEncodedChar(head[i]);
      var e := Encode(s);
      assert e == head + Encode(s[1..]);
      forall i | 0 <= i < |e| ensures IsEncodedChar(e[i]) {
        if i >= |head| { assert e[i] == Encode(s[1..])[i - |head|]; }
      }
    }
  }

  /** A character the encoder cannot produce does not occur in an
      encoding. */
  lemma EncodedLacks(s: string, c: char)
    requires !IsEncodedChar(c)
    ensures c !in Encode(s)
  {
    EncodedAlphabet(s);
  }

  /** The encoding of a non-empty string is non-empty. */
  lemma EncodeNonEmpty(s: string)
    requires s != ""
    ensures Encode(s) != ""
  {
    assert |EncodeChar(s[0])| >= 1;
  }

  /** Encoding "a b&c" gives "a+b%26c". */
  lemma EncodeExample()
    ensures Encode("a b&c") == "a+b%26c"
  {
    assert EncodeChar('&') == "%26";
  }
}
