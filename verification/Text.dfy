/** Rust text as the characters it holds and the UTF-8 bytes it is made of, and hexadecimal digests. */
module Text {
  import opened Types

  function Utf8Char(c: char): (b: seq<byte>)
    ensures 1 <= |b| <= 4 && (c < '\U{80}' <==> |b| == 1)
  {
    var n := c as int;
    if n < 0x80 then [n]
    else if n < 0x800 then [0xC0 + n / 0x40, 0x80 + n % 0x40]
    else if n < 0x1_0000 then [0xE0 + n / 0x40 / 0x40, 0x80 + n / 0x40 % 0x40, 0x80 + n % 0x40]
    else [0xF0 + n / 0x40 / 0x40 / 0x40, 0x80 + n / 0x40 / 0x40 % 0x40, 0x80 + n / 0x40 % 0x40, 0x80 + n % 0x40]
  }

  function Utf8(s: string): (b: seq<byte>)
    ensures |b| >= |s|
  {
    if s == [] then [] else Utf8Char(s[0]) + Utf8(s[1..])
  }

  /** One character of each length. */
  lemma Utf8Sample()
    ensures Utf8("A\U{E9}\U{20AC}\U{1F600}") == [0x41, 0xC3, 0xA9, 0xE2, 0x82, 0xAC, 0xF0, 0x9F, 0x98, 0x80]
  {
  }

  predicate IsAscii(s: string) { forall i :: 0 <= i < |s| ==> s[i] < '\U{80}' }

  lemma {:induction false} Utf8OfAscii(s: string)
    requires IsAscii(s)
    ensures |Utf8(s)| == |s| && forall i :: 0 <= i < |s| ==> Utf8(s)[i] == s[i] as int
  {
    if s != [] { Utf8OfAscii(s[1..]); }
  }

  // ----- UTF-8, as the standard decoder accepts it

  predicate Continues(b: byte) { 0x80 <= b < 0xC0 }

  /** How many bytes the first character takes, or nothing when it is malformed. */
  function FirstWidth(b: seq<byte>): (r: Option<nat>)
    ensures r.Some? ==> 1 <= r.value <= |b|
  {
    if b == [] then None
    else if b[0] < 0x80 then Some(1)
    else if |b| >= 2 && 0xC2 <= b[0] < 0xE0 && Continues(b[1]) then Some(2)
    else if && |b| >= 3 && 0xE0 <= b[0] < 0xF0 && Continues(b[1]) && Continues(b[2])
            && (b[0] == 0xE0 ==> b[1] >= 0xA0) && (b[0] == 0xED ==> b[1] < 0xA0) then Some(3)
    else if && |b| >= 4 && 0xF0 <= b[0] < 0xF5 && Continues(b[1]) && Continues(b[2]) && Continues(b[3])
            && (b[0] == 0xF0 ==> b[1] >= 0x90) && (b[0] == 0xF4 ==> b[1] < 0x90) then Some(4)
    else None
  }

  predicate ValidUtf8(b: seq<byte>) {
    b == [] || (FirstWidth(b).Some? && ValidUtf8(b[FirstWidth(b).value..]))
  }

  lemma CharIsValid(c: char, rest: seq<byte>)
    ensures FirstWidth(Utf8Char(c) + rest) == Some(|Utf8Char(c)|)
  {
  }

  /** The accepted bytes are the encodings of texts, and nothing else. */
  lemma {:induction false} Utf8IsValid(s: string)
    ensures ValidUtf8(Utf8(s))
  {
    hide Utf8Char, FirstWidth;
    if s != [] {
      CharIsValid(s[0], Utf8(s[1..]));
      Utf8IsValid(s[1..]);
      assert Utf8(s)[|Utf8Char(s[0])|..] == Utf8(s[1..]);
    }
  }

  lemma ValidIsChar(b: seq<byte>) returns (c: char)
    requires FirstWidth(b).Some?
    ensures Utf8Char(c) == b[..FirstWidth(b).value]
  {
    match FirstWidth(b).value
    case 1 => c := b[0] as char;
    case 2 =>
      SixBits(b[0] - 0xC0, b[1] - 0x80);
      c := ((b[0] - 0xC0) as int * 0x40 + (b[1] - 0x80) as int) as char;
    case 3 => c := ThreeBytes(b);
    case _ => c := FourBytes(b);
  }

  lemma ThreeBytes(b: seq<byte>) returns (c: char)
    requires FirstWidth(b) == Some(3)
    ensures Utf8Char(c) == b[..3]
  {
    var p: int, q: int, r: int := b[0] - 0xE0, b[1] - 0x80, b[2] - 0x80;
    SixBits(p, q);
    SixBits(p * 0x40 + q, r);
    c := ((p * 0x40 + q) * 0x40 + r) as char;
  }

  lemma FourBytes(b: seq<byte>) returns (c: char)
    requires FirstWidth(b) == Some(4)
    ensures Utf8Char(c) == b[..4]
  {
    var p: int, q: int, r: int, s: int := b[0] - 0xF0, b[1] - 0x80, b[2] - 0x80, b[3] - 0x80;
    SixBits(p, q);
    SixBits(p * 0x40 + q, r);
    SixBits((p * 0x40 + q) * 0x40 + r, s);
    c := (((p * 0x40 + q) * 0x40 + r) * 0x40 + s) as char;
  }

  lemma SixBits(high: nat, low: nat)
    requires low < 0x40
    ensures (high * 0x40 + low) / 0x40 == high && (high * 0x40 + low) % 0x40 == low
  {
  }

  lemma {:induction false} ValidIsUtf8(b: seq<byte>) returns (s: string)
    requires ValidUtf8(b)
    ensures Utf8(s) == b
  {
    hide Utf8Char, FirstWidth;
    s := [];
    if b != [] {
      var n := FirstWidth(b).value;
      var c := ValidIsChar(b);
      var rest := ValidIsUtf8(b[n..]);
      s := [c] + rest;
      assert b == b[..n] + b[n..];
    }
  }

  // ----- hexadecimal digests

  function Digit(n: nat): (c: char)
    requires n < 16
    ensures '0' <= c <= '9' || 'a' <= c <= 'f'
  {
    if n < 10 then '0' + n as char else 'a' + (n - 10) as char
  }

  /** Two lowercase digits for each byte. */
  function HexText(d: seq<byte>): (s: string)
    ensures |s| == 2 * |d|
    ensures forall i :: 0 <= i < |d| ==> s[2 * i] == Digit(d[i] / 16) && s[2 * i + 1] == Digit(d[i] % 16)
    ensures forall j :: 0 <= j < |s| ==> '0' <= s[j] <= '9' || 'a' <= s[j] <= 'f'
  {
    if d == [] then []
    else
      var n := |d| - 1;
      HexText(d[..n]) + [Digit(d[n] / 16), Digit(d[n] % 16)]
  }

  /** The digits in their order. */
  lemma DigitsInOrder(n: nat)
    requires n < 16
    ensures Digit(n) == "0123456789abcdef"[n]
  {
  }

  /** The high digit of a byte comes first, and the bytes stay in order. */
  lemma HexSample(d: seq<byte>)
    requires d == [0x1f, 0xa0]
    ensures HexText(d) == "1fa0"
  {
    hide HexText;
    var s := HexText(d);
    assert s[2 * 0] == '1' && s[2 * 0 + 1] == 'f' && s[2 * 1] == 'a' && s[2 * 1 + 1] == '0';
  }

  method Hex(d: seq<byte>) returns (text: string)
    ensures text == HexText(d)
  {
    text := "";
    for i := 0 to |d|
      invariant text == HexText(d[..i])
    {
      assert d[..i + 1][..i] == d[..i];
      text := text + [Digit(d[i] / 16)];
      text := text + [Digit(d[i] % 16)];
    }
    assert d[..|d|] == d;
  }

  datatype IdentityError = BadHexLength(expected: nat, actual: nat) | NotHex

  function HexDigit(b: byte): (r: Result<nat, IdentityError>)
    ensures r.Ok? ==> r.value < 16
  {
    if '0' as int <= b <= '9' as int then Ok(b - '0' as int)
    else if 'a' as int <= b <= 'f' as int then Ok(b - 'a' as int + 10)
    else if 'A' as int <= b <= 'F' as int then Ok(b - 'A' as int + 10)
    else Err(NotHex)
  }

  method ParseSha256Hex(hex: string) returns (r: Result<seq<byte>, IdentityError>)
    ensures |Utf8(hex)| != 64 ==> r == Err(BadHexLength(64, |Utf8(hex)|))
    ensures |Utf8(hex)| == 64 && r.Err? ==>
              r.error == NotHex && exists i :: 0 <= i < 64 && HexDigit(Utf8(hex)[i]).Err?
    ensures r.Ok? ==> |Utf8(hex)| == 64 && Denotes(Utf8(hex), r.value)
  {
    hide Utf8;
    var source := Utf8(hex);
    if |source| != 64 { return Err(BadHexLength(64, |source|)); }
    var digest: seq<byte> := [];
    for index := 0 to 32
      invariant |digest| == index
      invariant Denotes(source[..2 * index], digest)
    {
      var high := HexDigit(source[index * 2]);
      if high.Err? { return Err(high.error); }
      var low := HexDigit(source[index * 2 + 1]);
      if low.Err? { return Err(low.error); }
      ghost var before := digest;
      digest := digest + [high.value * 16 + low.value];
      ghost var digits := source[..2 * (index + 1)];
      forall i | 0 <= i < index ensures PairDenotes(digits, digest, i) {
        assert PairDenotes(source[..2 * index], before, i);
      }
    }
    assert source[..64] == source;
    return Ok(digest);
  }

  /** Each byte is the number that its two digits of either case denote. */
  ghost predicate Denotes(digits: seq<byte>, d: seq<byte>) {
    && |digits| == 2 * |d|
    && forall i :: 0 <= i < |d| ==> PairDenotes(digits, d, i)
  }

  function Lower(b: byte): byte { if 'A' as int <= b <= 'Z' as int then b + 32 else b }

  /** A byte is a digit of a value exactly when its lowercase form is the digit that `hex` writes. */
  lemma DigitIff(b: byte, n: nat)
    requires n < 16
    ensures HexDigit(b) == Ok(n) <==> Lower(b) == Digit(n) as int
  {
  }

  ghost predicate PairDenotes(digits: seq<byte>, d: seq<byte>, i: nat)
    requires |digits| == 2 * |d| && i < |d|
  {
    HexDigit(digits[2 * i]) == Ok(d[i] / 16) && HexDigit(digits[2 * i + 1]) == Ok(d[i] % 16)
  }

  lemma PairIff(digits: seq<byte>, d: seq<byte>, i: nat)
    requires |digits| == 2 * |d| && i < |d|
    ensures var text := HexText(d);
      PairDenotes(digits, d, i)
      <==> Lower(digits[2 * i]) == text[2 * i] as int && Lower(digits[2 * i + 1]) == text[2 * i + 1] as int
  {
    hide HexText;
    DigitIff(digits[2 * i], d[i] / 16);
    DigitIff(digits[2 * i + 1], d[i] % 16);
  }

  function Lowered(digits: seq<byte>): seq<byte> {
    seq(|digits|, i requires 0 <= i < |digits| => Lower(digits[i]))
  }

  /** The digests that a text denotes: exactly the one whose `hex` form is the text in lowercase. */
  lemma DenotesIff(digits: seq<byte>, d: seq<byte>)
    ensures Denotes(digits, d) <==> Lowered(digits) == Utf8(HexText(d))
  {
    Utf8OfAscii(HexText(d));
    hide Utf8, HexText, Lower, HexDigit, Digit, PairDenotes;
    if Denotes(digits, d) { DenotedIsLower(digits, d); }
    if Lowered(digits) == Utf8(HexText(d)) {
      forall i | 0 <= i < |d| ensures PairDenotes(digits, d, i) {
        assert Lowered(digits)[2 * i] == HexText(d)[2 * i] as int
          && Lowered(digits)[2 * i + 1] == HexText(d)[2 * i + 1] as int;
        PairIff(digits, d, i);
      }
    }
  }

  lemma DenotedIsLower(digits: seq<byte>, d: seq<byte>)
    requires Denotes(digits, d)
    ensures Lowered(digits) == Utf8(HexText(d))
  {
    Utf8OfAscii(HexText(d));
    hide Utf8, HexText, Lower, HexDigit, Digit, PairDenotes;
    forall j | 0 <= j < |digits| ensures Lowered(digits)[j] == HexText(d)[j] as int {
      var i := j / 2;
      assert PairDenotes(digits, d, i) && (j == 2 * i || j == 2 * i + 1);
      PairIff(digits, d, i);
    }
  }

  /** What `hex` writes for a digest parses to that digest and to no other. */
  lemma HexRoundTrip(d: seq<byte>, d': seq<byte>)
    ensures Denotes(Utf8(HexText(d)), d') <==> d == d'
  {
    var text := HexText(d);
    Utf8OfAscii(text);
    forall i | 0 <= i < |d|
      ensures PairDenotes(Utf8(text), d, i)
    {
      DigitIff(text[2 * i] as int, d[i] / 16);
      DigitIff(text[2 * i + 1] as int, d[i] % 16);
    }
    if Denotes(Utf8(text), d') {
      forall i | 0 <= i < |d| ensures d[i] == d'[i] {
        assert PairDenotes(Utf8(text), d, i) && PairDenotes(Utf8(text), d', i);
        var high: Result<nat, IdentityError>, low: Result<nat, IdentityError> := Ok(d[i] / 16), Ok(d[i] % 16);
        assert high == Ok(d'[i] / 16) && low == Ok(d'[i] % 16);
      }
    }
  }
}
