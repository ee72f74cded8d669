/**
 Guarded constants from end to end: what a build states, what the macro emits, what a start resolves
 and what a read returns, over an arbitrary block function in place of SHA-256.
 */
module Guarded {
  import opened Types
  import opened Text
  import opened Cipher
  import opened Bytes

  // ----- what a build states about code identity

  datatype Material = AppleTeam | WindowsCertificate | AndroidCertificate {
    function Name(): string {
      match this
      case AppleTeam => "apple"
      case WindowsCertificate => "windows"
      case AndroidCertificate => "android"
    }
  }

  datatype Binding = Absent | Present(material: Material, value: string)

  datatype Refusal =
    | Unnamed
    | UnknownKind(name: string)
    | NoMaterial(name: string)
    | Unusable(material: Material)
    | WrongTarget(material: Material)

  /** The characters with the Unicode property White_Space. */
  predicate IsWhitespace(c: char) {
    || '\U{9}' <= c <= '\U{D}' || c in {' ', '\U{85}', '\U{A0}', '\U{1680}'}
    || '\U{2000}' <= c <= '\U{200A}' || c in {'\U{2028}', '\U{2029}', '\U{202F}', '\U{205F}', '\U{3000}'}
  }

  /** The characters of the Unicode category Cc. */
  predicate IsControl(c: char) { c < ' ' || '\U{7F}' <= c <= '\U{9F}' }

  predicate IsLowerHex(c: char) { '0' <= c <= '9' || 'a' <= c <= 'f' }

  predicate Refuses(material: Material, value: string) {
    if material.AppleTeam? then
      exists i :: 0 <= i < |value| && (IsWhitespace(value[i]) || IsControl(value[i]))
    else
      !(|Utf8(value)| == 64 && forall i :: 0 <= i < |value| ==> IsLowerHex(value[i]))
  }

  /** The two sides of the first separator. */
  function SplitOnce(s: string, separator: char): (r: Option<(string, string)>)
    ensures r.Some? ==> s == r.value.0 + [separator] + r.value.1 && separator !in r.value.0
    ensures r.None? <==> separator !in s
  {
    if s == [] then None
    else if s[0] == separator then Some(("", s[1..]))
    else match SplitOnce(s[1..], separator)
      case None => None
      case Some((name, value)) => Some(([s[0]] + name, value))
  }

  function KindOf(name: string): (r: Option<Material>)
    ensures forall m: Material :: r == Some(m) <==> m.Name() == name
  {
    if name == "apple" then Some(AppleTeam)
    else if name == "windows" then Some(WindowsCertificate)
    else if name == "android" then Some(AndroidCertificate)
    else None
  }

  function Parse(stated: string): (r: Result<Binding, Refusal>) {
    if stated == "none" then Ok(Absent)
    else match SplitOnce(stated, ':')
      case None => Err(Unnamed)
      case Some((name, value)) =>
        match KindOf(name)
        case None => Err(UnknownKind(name))
        case Some(material) =>
          if value == "" then Err(NoMaterial(name))
          else if Refuses(material, value) then Err(Unusable(material))
          else Ok(Present(material, value))
  }

  /** The stated forms that a build can use, and no others. */
  lemma ParseAcceptsExactly(stated: string, material: Material, value: string)
    ensures Parse(stated) == Ok(Absent) <==> stated == "none"
    ensures Parse(stated) == Ok(Present(material, value))
       <==> stated == material.Name() + ":" + value && value != "" && !Refuses(material, value)
  {
    hide Refuses, SplitOnce, KindOf;
    if stated == material.Name() + ":" + value { NamedParses(material, value); }
    if Parse(stated) == Ok(Present(material, value)) {
      var (name, rest) := SplitOnce(stated, ':').value;
      assert name == material.Name() && rest == value;
    }
  }

  /** A kind, a separator and material take the last two tests of the parser. */
  lemma NamedParses(material: Material, value: string)
    ensures Parse(material.Name() + ":" + value)
      == if value == "" then Err(NoMaterial(material.Name()))
         else if Refuses(material, value) then Err(Unusable(material))
         else Ok(Present(material, value))
  {
    hide Refuses, SplitOnce, KindOf;
    var stated := material.Name() + ":" + value;
    assert ':' in stated && ':' !in "none" && ':' !in material.Name();
    SplitAt(material.Name(), value, ':');
    assert KindOf(material.Name()) == Some(material);
  }

  lemma {:induction false} SplitAt(name: string, value: string, separator: char)
    requires separator !in name
    ensures SplitOnce(name + [separator] + value, separator) == Some((name, value))
  {
    var s := name + [separator] + value;
    if name != "" {
      assert s[1..] == name[1..] + [separator] + value;
      SplitAt(name[1..], value, separator);
      assert s[0] == name[0] && [name[0]] + name[1..] == name;
    } else {
      assert s[1..] == value;
    }
  }

  /** A digest that a probe reports as text is material that a build can state, under both digest kinds. */
  lemma HexIsAccepted(d: digest, material: Material)
    requires !material.AppleTeam?
    ensures Parse(material.Name() + ":" + HexText(d)) == Ok(Present(material, HexText(d)))
  {
    Utf8OfAscii(HexText(d));
    ParseAcceptsExactly(material.Name() + ":" + HexText(d), material, HexText(d));
  }

  predicate IsLetterOrDigit(c: char) { '0' <= c <= '9' || 'A' <= c <= 'Z' || 'a' <= c <= 'z' }

  /** Any letters and digits are material for an Apple build, a team identifier of ten of them among these. */
  lemma TeamIsUsable(value: string)
    requires value != "" && forall i :: 0 <= i < |value| ==> IsLetterOrDigit(value[i])
    ensures Parse("apple:" + value) == Ok(Present(AppleTeam, value))
  {
    NamedParses(AppleTeam, value);
    assert "apple" + ":" == "apple:";
  }

  /** A blank or a line break anywhere in the material is refused. */
  lemma BlankIsRefused(value: string, i: nat)
    requires i < |value| && value[i] in {' ', '\t', '\n', '\r', '\0'}
    ensures Parse("apple:" + value) == Err(Unusable(AppleTeam))
  {
    NamedParses(AppleTeam, value);
    assert "apple" + ":" == "apple:";
    assert IsWhitespace(value[i]) || IsControl(value[i]);
  }

  /** A digest of another length, or with a character that is no lowercase digit, is refused under both digest kinds. */
  lemma OtherDigestIsRefused(material: Material, value: string)
    requires !material.AppleTeam? && value != ""
    requires (forall i :: 0 <= i < |value| ==> '0' <= value[i] <= '9' || 'a' <= value[i] <= 'f') ==> |value| != 64
    ensures Parse(material.Name() + ":" + value) == Err(Unusable(material))
  {
    hide Utf8;
    NamedParses(material, value);
    if forall i :: 0 <= i < |value| ==> IsLowerHex(value[i]) { Utf8OfAscii(value); }
  }

  function MaterialOfTarget(targetOs: string): Option<Material> {
    if targetOs == "macos" || targetOs == "ios" then Some(AppleTeam)
    else if targetOs == "windows" then Some(WindowsCertificate)
    else if targetOs == "android" then Some(AndroidCertificate)
    else None
  }

  /** Whether the runtime crate binds to an identity, or why its build stops. */
  function BindsIdentity(stated: string, targetOs: string): Result<bool, Refusal> {
    if stated == "" then Ok(false)
    else match Parse(stated)
      case Ok(Absent) => Ok(false)
      case Ok(Present(material, _)) =>
        if MaterialOfTarget(targetOs) == Some(material) then Ok(true) else Err(WrongTarget(material))
      case Err(reason) => Err(reason)
  }

  // ----- what the macro emits

  const MIN_BYTES: nat := 8

  datatype LiteralKind = TextLiteral | ByteLiteral

  datatype ExpandError = TooShort | OutsideAlphabet | NoSeed | NoUsableIdentity(reason: Refusal)

  datatype Emitted = Emitted(kind: LiteralKind, salt: seq<byte>, value: seq<byte>, bound: bool)

  function Expand(H: BlockFunction, kind: LiteralKind, plain: seq<byte>, seed: Option<string>, stated: string):
    (r: Result<Emitted, ExpandError>)
    ensures r.Ok? ==> r.value.kind == kind && |r.value.value| == |plain| >= 8
    ensures r.Ok? && kind.TextLiteral? ==> InAlphabet(r.value.value)
  {
    if |plain| < MIN_BYTES then Err(TooShort)
    else if kind.TextLiteral? && !InAlphabet(plain) then Err(OutsideAlphabet)
    else if seed.None? then Err(NoSeed)
    else match Parse(stated)
      case Err(reason) => Err(NoUsableIdentity(reason))
      case Ok(binding) =>
        var bound := binding.Present?;
        var material := if binding.Present? then Utf8(binding.value) else [];
        var salt := DeriveSalt(H, Utf8(seed.value), plain);
        var key := Key(H, salt, material);
        var value := if kind.TextLiteral? then Stepped(H, key, plain, Forward) else Streamed(H, key, plain);
        Ok(Emitted(kind, salt, value, bound))
  }

  // ----- what a start resolves

  /** What the platform says about the signer of the running image. */
  datatype Observation = Fact(signer: Option<seq<byte>>) | Unavailable | Failed

  datatype NoSigner = ImageUnsigned | NoPlatformIdentity | IdentityUnreadable

  function SignerMaterial(observed: Observation): Result<seq<byte>, NoSigner> {
    match observed
    case Fact(Some(material)) => if material != [] then Ok(material) else Err(ImageUnsigned)
    case Fact(None) => Err(ImageUnsigned)
    case Unavailable => Err(NoPlatformIdentity)
    case Failed => Err(IdentityUnreadable)
  }

  function ResolveMaterial(binds: bool, material: Result<seq<byte>, NoSigner>): Result<seq<byte>, NoSigner> {
    match material
    case Ok(bytes) => Ok(bytes)
    case Err(reason) => if binds then Err(reason) else Ok([])
  }

  // ----- what a read returns

  function ReadValue(H: BlockFunction, emitted: Emitted, identity: seq<byte>): (r: seq<byte>)
    requires emitted.kind.TextLiteral? ==> InAlphabet(emitted.value)
    ensures |r| == |emitted.value| && (emitted.kind.TextLiteral? ==> InAlphabet(r))
  {
    var key := Key(H, emitted.salt, if emitted.bound then identity else []);
    if emitted.kind.TextLiteral? then Stepped(H, key, emitted.value, Backward) else Streamed(H, key, emitted.value)
  }

  /** The read at a call site, which decrypts a copy of the emitted bytes in place. */
  method ReadGuarded(H: BlockFunction, emitted: Emitted, identity: seq<byte>) returns (secret: seq<byte>)
    requires emitted.kind.TextLiteral? ==> InAlphabet(emitted.value)
    ensures secret == ReadValue(H, emitted, identity)
  {
    var part := if emitted.bound then identity else [];
    var key := DeriveKey(H, emitted.salt, part);
    var bytes := new byte[|emitted.value|](i requires 0 <= i < |emitted.value| => emitted.value[i]);
    assert bytes[..] == emitted.value;
    if emitted.kind.TextLiteral? {
      Step(H, key, bytes, Backward);
    } else {
      ByteStream(H, key, bytes);
    }
    secret := bytes[..];
  }

  // ----- the end-to-end results

  /** The identity that the build derived each key from. */
  function StatedMaterial(binding: Binding): seq<byte> {
    if binding.Present? then Utf8(binding.value) else []
  }

  lemma ReadsBackUnderStatedMaterial(H: BlockFunction, kind: LiteralKind, plain: seq<byte>, seed: Option<string>,
                                     stated: string, identity: seq<byte>)
    requires Expand(H, kind, plain, seed, stated).Ok?
    requires Parse(stated).value.Present? ==> identity == Utf8(Parse(stated).value.value)
    ensures ReadValue(H, Expand(H, kind, plain, seed, stated).value, identity) == plain
  {
    hide Parse, DeriveSalt, Key, Utf8, Stepped, Streamed;
    var key := Key(H, DeriveSalt(H, Utf8(seed.value), plain), StatedMaterial(Parse(stated).value));
    if kind.TextLiteral? { DecryptInverts(H, key, plain); } else { StreamIsItsOwnInverse(H, key, plain); }
  }

  /**
   A bound build: when the started image reports the stated material, the start resolves it and every read
   returns the literal. Without any material the start fails, so no read happens.
   */
  lemma BoundBuildReadsBack(H: BlockFunction, kind: LiteralKind, plain: seq<byte>, seed: Option<string>,
                            stated: string, targetOs: string, observed: Observation)
    requires Expand(H, kind, plain, seed, stated).Ok? && BindsIdentity(stated, targetOs) == Ok(true)
    ensures var emitted := Expand(H, kind, plain, seed, stated).value;
      var resolved := ResolveMaterial(true, SignerMaterial(observed));
      && emitted.bound
      && Parse(stated).value.Present?
      && (resolved.Ok? <==> observed.Fact? && observed.signer.Some? && observed.signer.value != [])
      && (observed == Fact(Some(Utf8(Parse(stated).value.value))) ==>
            resolved.Ok? && ReadValue(H, emitted, resolved.value) == plain)
  {
    var binding := Parse(stated).value;
    assert binding.Present? && |Utf8(binding.value)| >= 1 by {
      ParseAcceptsExactly(stated, binding.material, binding.value);
    }
    if observed == Fact(Some(Utf8(binding.value))) {
      ReadsBackUnderStatedMaterial(H, kind, plain, seed, stated, Utf8(binding.value));
    }
  }

  /** An unbound build: the start always resolves, and every read returns the literal whatever the image reports. */
  lemma UnboundBuildReadsBack(H: BlockFunction, kind: LiteralKind, plain: seq<byte>, seed: Option<string>,
                              stated: string, targetOs: string, observed: Observation)
    requires Expand(H, kind, plain, seed, stated).Ok? && BindsIdentity(stated, targetOs) == Ok(false)
    ensures var emitted := Expand(H, kind, plain, seed, stated).value;
      var resolved := ResolveMaterial(false, SignerMaterial(observed));
      !emitted.bound && resolved.Ok? && ReadValue(H, emitted, resolved.value) == plain
  {
    assert Parse("") == Err(Unnamed);
    var resolved := ResolveMaterial(false, SignerMaterial(observed)).value;
    ReadsBackUnderStatedMaterial(H, kind, plain, seed, stated, resolved);
  }

  /** The macro and the runtime crate read one stated value the same way. */
  lemma CratesAgree(H: BlockFunction, kind: LiteralKind, plain: seq<byte>, seed: Option<string>,
                    stated: string, targetOs: string)
    requires Expand(H, kind, plain, seed, stated).Ok? && BindsIdentity(stated, targetOs).Ok?
    ensures Expand(H, kind, plain, seed, stated).value.bound == BindsIdentity(stated, targetOs).value
  {
    assert Parse("") == Err(Unnamed);
  }

  /**
   Under any other identity the read has the literal's length and stays printable, and it is the literal
   exactly when both identities give every position the same keystream amount.
   */
  lemma OtherIdentityReadsBackIff(H: BlockFunction, plain: seq<byte>, seed: Option<string>, stated: string,
                                  identity: seq<byte>)
    requires Expand(H, TextLiteral, plain, seed, stated).Ok? && Parse(stated).value.Present?
    ensures var emitted := Expand(H, TextLiteral, plain, seed, stated).value;
      var built := Key(H, emitted.salt, StatedMaterial(Parse(stated).value));
      var read := Key(H, emitted.salt, identity);
      ReadValue(H, emitted, identity) == plain
      <==> forall i :: 0 <= i < |plain| ==> Amount(H, built, i) == Amount(H, read, i)
  {
    hide Parse, DeriveSalt, Key, Utf8, Amount, Move;
    var emitted := Expand(H, TextLiteral, plain, seed, stated).value;
    var built := Key(H, emitted.salt, StatedMaterial(Parse(stated).value));
    var read := Key(H, emitted.salt, identity);
    var result := ReadValue(H, emitted, identity);
    forall i | 0 <= i < |plain| ensures result[i] == plain[i] <==> Amount(H, built, i) == Amount(H, read, i) {
      MovesBackIff(plain[i], Amount(H, built, i), Amount(H, read, i));
    }
  }

  /** The same of a byte literal: it reads back exactly when both identities give every position the same byte. */
  lemma OtherIdentityReadsBytesBackIff(H: BlockFunction, plain: seq<byte>, seed: Option<string>, stated: string,
                                       identity: seq<byte>)
    requires Expand(H, ByteLiteral, plain, seed, stated).Ok? && Parse(stated).value.Present?
    ensures var emitted := Expand(H, ByteLiteral, plain, seed, stated).value;
      var built := Key(H, emitted.salt, StatedMaterial(Parse(stated).value));
      var read := Key(H, emitted.salt, identity);
      ReadValue(H, emitted, identity) == plain
      <==> forall i :: 0 <= i < |plain| ==> StreamByte(H, built, i) == StreamByte(H, read, i)
  {
    hide Parse, DeriveSalt, Key, Utf8, StreamByte, Xor;
    var emitted := Expand(H, ByteLiteral, plain, seed, stated).value;
    var built := Key(H, emitted.salt, StatedMaterial(Parse(stated).value));
    var read := Key(H, emitted.salt, identity);
    var result := ReadValue(H, emitted, identity);
    forall i | 0 <= i < |plain| ensures result[i] == plain[i] <==> StreamByte(H, built, i) == StreamByte(H, read, i) {
      XorBackIff(plain[i], StreamByte(H, built, i), StreamByte(H, read, i));
    }
  }

  lemma MovesBackIff(b: byte, there: nat, back: nat)
    requires FIRST <= b <= LAST && there < ALPHABET && back < ALPHABET
    ensures Move(Move(b, there, Forward), back, Backward) == b <==> there == back
  {
    var current: int := b - FIRST;
    Wrap(current + there);
    Wrap((current + there) % ALPHABET + ALPHABET - back);
  }

  // ----- a read under another identity

  function Fill(b: byte): digest { seq(32, _ => b) }

  /** One value for one derivation and for the blocks of the key it gives, and another for everything else. */
  function Splits(x: seq<byte>, z: byte): BlockFunction {
    m => if m == x || (|m| == 36 && m[..32] == Fill(1)) then Fill(1) else Fill(z)
  }

  /** Under that function a derivation of anything else, and every block of its key, is the other value. */
  lemma SplitsElsewhere(x: seq<byte>, z: byte, m: seq<byte>)
    requires z != 1 && m != x && !(|m| == 36 && m[..32] == Fill(1))
    requires |x| >= 8 && x[0] == 16 && z != 16
    ensures Splits(x, z)(m) == Fill(z) && KeyBlock(Splits(x, z), Fill(z), 0) == Fill(z)
    ensures Splits(x, z)(x) == Fill(1) && KeyBlock(Splits(x, z), Fill(1), 0) == Fill(1)
  {
    hide Le;
    var own, other := Fill(z) + Le(0, 4), Fill(1) + Le(0, 4);
    assert own[..32] == Fill(z) && other[..32] == Fill(1);
    assert own[0] == z && Fill(z)[0] == z && Fill(1)[0] == 1;
  }

  /** No frame of two parts looks like a block input of ones. */
  lemma FrameIsNoBlock(a: seq<byte>, b: seq<byte>)
    requires |a| < Span(8)
    ensures !(|Two(a, b)| == 36 && Two(a, b)[..32] == Fill(1))
  {
    Spans();
    hide Span;
    var m := Two(a, b);
    if |m| == 36 && m[..32] == Fill(1) {
      assert m[..8] == Le(|a|, 8) && m[1] == m[..32][1] == 1;
      assert Le(|a|, 8)[1] == |a| / 256 % 256;
    }
  }

  /**
   For every accepted literal, every bound build and every other identity within the cap there is a block function under
   which the read is not the literal: the identity is not ignored.
   */
  lemma OtherIdentityIsToldApart(kind: LiteralKind, plain: seq<byte>, seed: string, stated: string, other: seq<byte>)
    returns (H: BlockFunction)
    requires MIN_BYTES <= |plain| < Span(8) && (kind.TextLiteral? ==> InAlphabet(plain)) && |Utf8(seed)| < Span(8)
    requires Parse(stated).Ok? && Parse(stated).value.Present?
    requires |Utf8(Parse(stated).value.value)| <= 64 && |other| <= 64 && other != Utf8(Parse(stated).value.value)
    ensures Expand(H, kind, plain, Some(seed), stated).Ok?
    ensures ReadValue(H, Expand(H, kind, plain, Some(seed), stated).value, other) != plain
  {
    hide Parse, Utf8, Span, Framed, Le, Stepped, Streamed;
    var built := Utf8(Parse(stated).value.value);
    var z: byte := if Utf8(seed) == seq(16, _ => 0) then 2 else 0;
    var salt := Fill(z)[..16];
    H := Splits(Two(salt, other), z);
    var emitted := Expand(H, kind, plain, Some(seed), stated).value;
    assert salt[0] == z;
    SplitKeys(H, salt, z, Utf8(seed), plain, built, other);
    if kind.TextLiteral? {
      OtherIdentityReadsBackIff(H, plain, Some(seed), stated, other);
      assert Amount(H, Fill(z), 0) == BlockAmount(Fill(z), 0) && Amount(H, Fill(1), 0) == BlockAmount(Fill(1), 0);
    } else {
      OtherIdentityReadsBytesBackIff(H, plain, Some(seed), stated, other);
      assert StreamByte(H, Fill(z), 0) == z && StreamByte(H, Fill(1), 0) == 1;
    }
  }

  lemma SplitKeys(H: BlockFunction, salt: seq<byte>, z: byte, seed: seq<byte>, plain: seq<byte>, built: seq<byte>,
                  other: seq<byte>)
    requires (z == 0 || z == 2) && salt == Fill(z)[..16] && H == Splits(Two(salt, other), z)
    requires z == 2 <==> seed == seq(16, _ => 0)
    requires |seed| < Span(8) && |plain| < Span(8) && |built| <= 64 && |other| <= 64 && built != other
    ensures DeriveSalt(H, seed, plain) == salt && Key(H, salt, built) == Fill(z) && Key(H, salt, other) == Fill(1)
    ensures KeyBlock(H, Fill(z), 0) == Fill(z) && KeyBlock(H, Fill(1), 0) == Fill(1)
  {
    Spans();
    hide Span, Framed;
    var x := Two(salt, other);
    assert x[0] == Le(16, 8)[0] == 16;
    hide Le;
    FramedIsTwo(seed, plain);
    FramedIsTwo(salt, other);
    FramedIsTwo(salt, built);
    DerivationsDigestBothParts(H, seed, plain);
    DerivationsDigestBothParts(H, salt, built);
    DerivationsDigestBothParts(H, salt, other);
    assert salt[0] == z && salt == seq(16, _ => z);
    if Two(seed, plain) == x { SaltInputIsInjective(seed, plain, salt, other); }
    if Two(salt, built) == x { SaltInputIsInjective(salt, built, salt, other); }
    FrameIsNoBlock(seed, plain);
    FrameIsNoBlock(salt, built);
    SplitsElsewhere(x, z, Two(seed, plain));
    SplitsElsewhere(x, z, Two(salt, built));
  }
}
