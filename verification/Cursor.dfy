/** The page cursor of calls/service.py: JSON bytes in base64url without padding (sections 3.2 and 5
    of RFC 4648). JSON and the date format are parameters with a left inverse. */
module Cursor {
  import opened Base
  import opened Paging

  type Byte = n: nat | n < 256
  type Sextet = n: nat | n < 64

  /** The base64url alphabet. */
  function Digit(n: Sextet): char {
    if n < 26 then ('A' as int + n) as char
    else if n < 52 then ('a' as int + n - 26) as char
    else if n < 62 then ('0' as int + n - 52) as char
    else if n == 62 then '-' else '_'
  }

  function ValueOf(c: char): Option<Sextet> {
    if 'A' <= c <= 'Z' then Some(c as int - 'A' as int)
    else if 'a' <= c <= 'z' then Some(c as int - 'a' as int + 26)
    else if '0' <= c <= '9' then Some(c as int - '0' as int + 52)
    else if c == '-' then Some(62)
    else if c == '_' then Some(63)
    else None
  }

  lemma DigitRoundTrip(n: Sextet)
    ensures ValueOf(Digit(n)) == Some(n) && Digit(n) != '='
  {
  }

  // Three bytes are four sextets: how to cut, and how to join.
  function Cut0(x: Byte): Sextet { x / 4 }
  function Cut1(x: Byte, y: Byte): Sextet { x % 4 * 16 + y / 16 }
  function Cut2(y: Byte, z: Byte): Sextet { y % 16 * 4 + z / 64 }
  function Cut3(z: Byte): Sextet { z % 64 }
  function Join0(a: Sextet, b: Sextet): Byte { a * 4 + b / 16 }
  function Join1(b: Sextet, c: Sextet): Byte { b % 16 * 16 + c / 4 }
  function Join2(c: Sextet, d: Sextet): Byte { c % 4 * 64 + d }

  lemma JoinCut(x: Byte, y: Byte, z: Byte)
    ensures Join0(Cut0(x), Cut1(x, y)) == x
    ensures Join1(Cut1(x, y), Cut2(y, z)) == y
    ensures Join2(Cut2(y, z), Cut3(z)) == z
  {
  }

  function Triple(x: Byte, y: Byte, z: Byte): string {
    [Digit(Cut0(x)), Digit(Cut1(x, y)), Digit(Cut2(y, z)), Digit(Cut3(z))]
  }

  /** `base64.urlsafe_b64encode` */
  function Encode(b: seq<Byte>): string {
    if b == [] then ""
    else if |b| == 1 then [Digit(Cut0(b[0])), Digit(Cut1(b[0], 0)), '=', '=']
    else if |b| == 2 then [Digit(Cut0(b[0])), Digit(Cut1(b[0], b[1])), Digit(Cut2(b[1], 0)), '=']
    else Triple(b[0], b[1], b[2]) + Encode(b[3..])
  }

  /** The base64url alphabet (section 5 of RFC 4648): three runs of successive characters, and two more. */
  lemma Alphabet(n: Sextet)
    ensures Digit(0) == 'A' && Digit(25) == 'Z' && Digit(26) == 'a' && Digit(51) == 'z' && Digit(52) == '0'
    ensures Digit(61) == '9' && Digit(62) == '-' && Digit(63) == '_'
    ensures n < 62 && n !in {25, 51, 61} ==> Digit(n + 1) as int == Digit(n) as int + 1
  {
  }

  function Nth(b: seq<Byte>, i: nat): int {
    if i < |b| then b[i] else 0
  }

  /** The four digits to the base 64 of a number of 24 bits, most significant first. */
  function FourDigits(n: int): string {
    if 0 <= n / 64 / 64 / 64 < 64
    then [Digit(n / 64 / 64 / 64), Digit(n / 64 / 64 % 64), Digit(n / 64 % 64), Digit(n % 64)] else "===="
  }

  /** Three bytes are written as the four digits of the number they make; a last group of one or two bytes
      is filled with zeros, and the digits that hold no bits are written as `=` (section 4 of RFC 4648). */
  lemma EncodeIsBase64(b: seq<Byte>)
    requires b != []
    ensures var digits := FourDigits(b[0] * 0x1_0000 + Nth(b, 1) * 0x100 + Nth(b, 2));
            && |digits| == 4
            && Encode(b) == if |b| == 1 then digits[..2] + "==" else if |b| == 2 then digits[..3] + "="
                            else digits + Encode(b[3..])
  {
    FourDigitsAre(b[0], Nth(b, 1), Nth(b, 2));
    hide FourDigits, Digit, Cut0, Cut1, Cut2, Cut3;
  }

  lemma FourDigitsAre(x: Byte, y: Byte, z: Byte)
    ensures FourDigits(x * 0x1_0000 + y * 0x100 + z) == Triple(x, y, z)
  {
    SixBitDigits(x, y, z);
    hide Digit;
  }

  lemma SixBitDigits(x: Byte, y: Byte, z: Byte)
    ensures var n: int := x * 0x1_0000 + y * 0x100 + z;
            && n / 64 / 64 / 64 == Cut0(x) && n / 64 / 64 % 64 == Cut1(x, y)
            && n / 64 % 64 == Cut2(y, z) && n % 64 == Cut3(z)
  {
    var n: int := x * 0x1_0000 + y * 0x100 + z;
    var m: int := x * 1024 + y * 4 + z / 64;
    var k: int := x * 16 + y / 16;
    assert n == 64 * m + z % 64 && m == 64 * k + (y % 16 * 4 + z / 64) && k == 64 * (x / 4) + (x % 4 * 16 + y / 16);
    assert n / 64 == m && m / 64 == k && k / 64 == x / 4;
  }

  /** One group of four characters; padding is allowed in the last group only. */
  function DecodeGroup(c: string, last: bool): Option<seq<Byte>>
    requires |c| == 4
  {
    var v0, v1, v2, v3 := ValueOf(c[0]), ValueOf(c[1]), ValueOf(c[2]), ValueOf(c[3]);
    if v0.None? || v1.None? then None
    else if last && c[2] == '=' && c[3] == '=' then Some([Join0(v0.value, v1.value)])
    else if v2.None? then None
    else if last && c[3] == '=' then Some([Join0(v0.value, v1.value), Join1(v1.value, v2.value)])
    else if v3.None? then None
    else Some([Join0(v0.value, v1.value), Join1(v1.value, v2.value), Join2(v2.value, v3.value)])
  }

  /** `base64.urlsafe_b64decode` on text made of whole groups. */
  function Decode(s: string): Option<seq<Byte>> {
    if s == "" then Some([])
    else if |s| < 4 then None
    else
      var group := DecodeGroup(s[..4], |s| == 4);
      var rest := Decode(s[4..]);
      if group.None? || rest.None? then None else Some(group.value + rest.value)
  }

  /** `rstrip("=")` */
  function Unpad(s: string): string {
    if s != "" && s[|s| - 1] == '=' then Unpad(s[..|s| - 1]) else s
  }

  lemma {:induction false} UnpadEnds(s: string)
    ensures Unpad(s) == "" || Unpad(s)[|Unpad(s)| - 1] != '='
    decreases |s|
  {
    if s != "" && s[|s| - 1] == '=' {
      UnpadEnds(s[..|s| - 1]);
    }
  }

  /** `"=" * (-len % 4)`; Python's `%` of a negative number by 4 is not negative. */
  function Padding(length: nat): string {
    seq((4 - length % 4) % 4, _ => '=')
  }

  lemma GroupOfThree(x: Byte, y: Byte, z: Byte, last: bool)
    ensures DecodeGroup(Triple(x, y, z), last) == Some([x, y, z])
  {
    hide Digit, ValueOf, Cut0, Cut1, Cut2, Cut3, Join0, Join1, Join2;
    DigitRoundTrip(Cut0(x));
    DigitRoundTrip(Cut1(x, y));
    DigitRoundTrip(Cut2(y, z));
    DigitRoundTrip(Cut3(z));
    JoinCut(x, y, z);
  }

  lemma ShortGroup(x: Byte, y: Byte)
    ensures DecodeGroup([Digit(Cut0(x)), Digit(Cut1(x, 0)), '=', '='], true) == Some([x])
    ensures DecodeGroup([Digit(Cut0(x)), Digit(Cut1(x, y)), Digit(Cut2(y, 0)), '='], true) == Some([x, y])
  {
    hide Digit, ValueOf, Cut0, Cut1, Cut2, Cut3, Join0, Join1, Join2;
    DigitRoundTrip(Cut0(x));
    DigitRoundTrip(Cut1(x, 0));
    DigitRoundTrip(Cut1(x, y));
    DigitRoundTrip(Cut2(y, 0));
    JoinCut(x, 0, 0);
    JoinCut(x, y, 0);
  }

  lemma DecodeLast(s: string)
    requires |s| == 4
    ensures Decode(s) == DecodeGroup(s, true)
  {
    assert s[..4] == s && s[4..] == "";
    var group := DecodeGroup(s, true);
    assert group.Some? ==> group.value + [] == group.value;
  }

  lemma {:induction false} DecodeEncode(b: seq<Byte>)
    ensures Decode(Encode(b)) == Some(b)
    ensures |Encode(b)| % 4 == 0
    decreases |b|
  {
    hide Digit, DecodeGroup, Cut0, Cut1, Cut2, Cut3;
    if |b| == 1 || |b| == 2 {
      ShortGroup(b[0], if |b| == 2 then b[1] else 0);
      DecodeLast(Encode(b));
      assert b == if |b| == 1 then [b[0]] else [b[0], b[1]];
    } else if b != [] {
      var head, tail := Triple(b[0], b[1], b[2]), Encode(b[3..]);
      assert (head + tail)[..4] == head && (head + tail)[4..] == tail;
      DecodeEncode(b[3..]);
      GroupOfThree(b[0], b[1], b[2], |head + tail| == 4);
      assert b == [b[0], b[1], b[2]] + b[3..];
    }
  }

  lemma UnpadOnce(s: string)
    requires s != "" && s[|s| - 1] != '='
    ensures Unpad(s + "=") == s && Unpad(s + "==") == s && Unpad(s) == s
  {
    assert (s + "=")[..|s|] == s;
    assert (s + "==")[..|s| + 1] == s + "=";
  }

  /** The shape of an encoding: whole text without `=`, then the padding its length asks for. */
  lemma ShortPadding(b: seq<Byte>)
    requires |b| == 1 || |b| == 2
    ensures Unpad(Encode(b)) + Padding(|Unpad(Encode(b))|) == Encode(b)
  {
    hide Digit, Cut0, Cut1, Cut2, Cut3;
    var text := if |b| == 1 then [Digit(Cut0(b[0])), Digit(Cut1(b[0], 0))]
                else [Digit(Cut0(b[0])), Digit(Cut1(b[0], b[1])), Digit(Cut2(b[1], 0))];
    DigitRoundTrip(Cut1(b[0], 0));
    if |b| == 2 {
      DigitRoundTrip(Cut2(b[1], 0));
    }
    hide Unpad;
    UnpadOnce(text);
    assert Encode(b) == text + Padding(|text|);
    assert Padding(2) == "==" && Padding(3) == "=";
  }

  /** Padding by `-len % 4` restores exactly what was stripped. */
  lemma {:induction false} PaddingRestored(b: seq<Byte>)
    ensures Unpad(Encode(b)) + Padding(|Unpad(Encode(b))|) == Encode(b)
    decreases |b|
  {
    hide Digit, Cut0, Cut1, Cut2, Cut3;
    if |b| == 1 || |b| == 2 {
      ShortPadding(b);
    } else if b != [] {
      var head, tail := Triple(b[0], b[1], b[2]), Encode(b[3..]);
      DigitRoundTrip(Cut3(b[2]));
      PaddingRestored(b[3..]);
      UnpadConcat(head, tail);
      PaddingAfterGroup(head, Unpad(tail), tail);
    }
  }

  lemma PaddingAfterGroup(head: string, text: string, tail: string)
    requires |head| == 4 && text + Padding(|text|) == tail
    ensures head + text + Padding(|head + text|) == head + tail
  {
    assert Padding(|head + text|) == Padding(|text|);
  }

  lemma {:induction false} UnpadConcat(head: string, tail: string)
    requires head != "" && head[|head| - 1] != '='
    ensures Unpad(head + tail) == head + Unpad(tail)
    decreases |tail|
  {
    if tail == "" {
      assert head + tail == head;
    } else if tail[|tail| - 1] == '=' {
      UnpadConcat(head, tail[..|tail| - 1]);
      assert (head + tail)[..|head + tail| - 1] == head + tail[..|tail| - 1];
    }
  }

  /** Unpadded base64url decoding inverts encoding, for every byte string. */
  lemma UnpaddedRoundTrip(b: seq<Byte>)
    ensures var text := Unpad(Encode(b)); Decode(text + Padding(|text|)) == Some(b)
  {
    PaddingRestored(b);
    DecodeEncode(b);
  }

  // ---- The cursor ----

  function EncodeCursor(key: Key, json: Key -> seq<Byte>): string {
    Unpad(Encode(json(key)))
  }

  /** No cursor, a key, or an error; a decoded id must not be empty. */
  function DecodeCursor(cursor: Option<string>, parse: seq<Byte> -> Option<Key>): Result<Option<Key>> {
    if cursor.None? then Ok(None)
    else
      var bytes := Decode(cursor.value + Padding(|cursor.value|));
      if bytes.None? then Err(InvalidCursor)
      else
        var key := parse(bytes.value);
        if key.None? || key.value.id == "" then Err(InvalidCursor) else Ok(key)
  }

  /** A text is accepted as a cursor exactly when it decodes to bytes that parse to a key with an id,
      and then it is that key; every other text is an invalid cursor. */
  lemma CursorAcceptedIff(text: string, parse: seq<Byte> -> Option<Key>)
    ensures var bytes := Decode(text + Padding(|text|));
            DecodeCursor(Some(text), parse) ==
              if bytes.Some? && parse(bytes.value).Some? && parse(bytes.value).value.id != "" then Ok(parse(bytes.value))
              else Err(InvalidCursor)
  {
  }

  /** The cursor a page hands out is accepted and resumes exactly behind that page's last call. */
  lemma CursorRoundTrip(key: Key, json: Key -> seq<Byte>, parse: seq<Byte> -> Option<Key>)
    requires parse(json(key)) == Some(key) && key.id != ""
    ensures DecodeCursor(Some(EncodeCursor(key, json)), parse) == Ok(Some(key))
  {
    UnpaddedRoundTrip(json(key));
  }

  /** ... and it is the encoding of the key without its padding. */
  lemma CursorIsUnpadded(key: Key, json: Key -> seq<Byte>)
    ensures var text := EncodeCursor(key, json);
            (text == "" || text[|text| - 1] != '=') && text + Padding(|text|) == Encode(json(key))
  {
    hide Encode, Unpad, Padding;
    PaddingRestored(json(key));
    UnpadEnds(Encode(json(key)));
  }
}
