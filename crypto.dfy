/** Credential encryption (src/utils/crypto.ts): the byte framing of a ciphertext and the hex
    rendering of random ids. Key derivation (PBKDF2), AES-GCM, UTF-8 and base64 are foreign
    primitives and enter the model as the functions of `Primitives`. */
module Crypto {
  import opened Wrappers
  import opened Text

  type byte = x: int | 0 <= x < 256

  /** Length of the PBKDF2 salt at the front of a ciphertext. */
  const SaltLength: nat := 16

  /** Length of the AES-GCM initialisation vector that follows the salt. */
  const IvLength: nat := 12

  const EncryptError := "数据加密失败，请重试"
  const DecryptError := "数据解密失败，密码可能错误"

  /** The foreign primitives. `seal` and `open` are AES-GCM encryption and authenticated
      decryption under a derived key; `None` is an exception. `fromBase64` is `atob` followed by
      taking the character codes, and fails on text that is not base64. */
  datatype Primitives = Primitives(
    deriveKey: (string, seq<byte>) -> seq<byte>,
    seal: (seq<byte>, seq<byte>, seq<byte>) -> Option<seq<byte>>,
    open: (seq<byte>, seq<byte>, seq<byte>) -> Option<seq<byte>>,
    utf8Encode: string -> seq<byte>,
    utf8Decode: seq<byte> -> string,
    toBase64: seq<byte> -> string,
    fromBase64: string -> Option<seq<byte>>)

  /** What the primitives promise each other: authenticated decryption undoes encryption, UTF-8
      decoding undoes encoding, and base64 decoding undoes encoding. */
  ghost predicate Laws(p: Primitives) {
    && (forall key, iv, data :: p.seal(key, iv, data).Some? ==> p.open(key, iv, p.seal(key, iv, data).value) == Some(data))
    && (forall s :: p.utf8Decode(p.utf8Encode(s)) == s)
    && (forall b :: p.fromBase64(p.toBase64(b)) == Some(b))
  }

  /** The framed ciphertext: salt, then iv, then the AES-GCM output. */
  function Frame(salt: seq<byte>, iv: seq<byte>, ct: seq<byte>): seq<byte> {
    salt + iv + ct
  }

  /** `slice(0, 16)`, `slice(16, 28)` and `slice(28)`; a slice past the end is clamped, so a short
      input yields short or empty parts instead of an error. */
  function Split(b: seq<byte>): (r: (seq<byte>, seq<byte>, seq<byte>))
    ensures r.0 + r.1 + r.2 == b
    ensures |r.0| == if |b| < SaltLength then |b| else SaltLength
    ensures |b| >= SaltLength + IvLength ==> |r.1| == IvLength
  {
    var i := if |b| < SaltLength then |b| else SaltLength;
    var j := if |b| < SaltLength + IvLength then |b| else SaltLength + IvLength;
    assert b[..i] + b[i..j] + b[j..] == b;
    (b[..i], b[i..j], b[j..])
  }

  /** Decryption splits at the offsets encryption wrote at. */
  lemma SplitFrame(salt: seq<byte>, iv: seq<byte>, ct: seq<byte>)
    requires |salt| == SaltLength && |iv| == IvLength
    ensures Split(Frame(salt, iv, ct)) == (salt, iv, ct)
  {
    var b := Frame(salt, iv, ct);
    assert b[..16] == salt;
    assert b[16..28] == iv;
    assert b[28..] == ct;
  }

  /** `buf.set(src, offset)`: copies src into buf from offset on, leaving the rest as it was. */
  method SetAt(buf: array<byte>, src: seq<byte>, offset: nat)
    requires offset + |src| <= buf.Length
    modifies buf
    ensures buf[..] == old(buf[..offset]) + src + old(buf[offset + |src|..])
  {
    var k := 0;
    while k < |src|
      invariant 0 <= k <= |src|
      invariant buf[..offset] == old(buf[..offset])
      invariant buf[offset..offset + k] == src[..k]
      invariant buf[offset + |src|..] == old(buf[offset + |src|..])
      invariant buf[offset + k..] == old(buf[offset + k..])
    {
      buf[offset + k] := src[k];
      k := k + 1;
      assert buf[offset..offset + k] == buf[offset..offset + k - 1] + [buf[offset + k - 1]];
    }
    assert buf[..] == buf[..offset] + buf[offset..offset + |src|] + buf[offset + |src|..];
  }

  /** The `combined` buffer of `encrypt`: a zero-filled array of the total length, written with
      salt at 0, iv at the salt's length and the ciphertext after both. */
  method Combine(salt: seq<byte>, iv: seq<byte>, ct: seq<byte>) returns (combined: array<byte>)
    ensures fresh(combined)
    ensures combined[..] == Frame(salt, iv, ct)
  {
    combined := new byte[|salt| + |iv| + |ct|](_ => 0);
    SetAt(combined, salt, 0);
    SetAt(combined, iv, |salt|);
    SetAt(combined, ct, |salt| + |iv|);
  }

  /** What `encrypt` returns for a given salt and iv (the random values are parameters): the
      base64 text of the framed ciphertext, or the fixed error when AES-GCM fails. */
  function Encryption(p: Primitives, plaintext: string, password: string, salt: seq<byte>, iv: seq<byte>): Result<string, string> {
    var key := p.deriveKey(password, salt);
    match p.seal(key, iv, p.utf8Encode(plaintext))
    case None => Failure(EncryptError)
    case Some(ct) => Success(p.toBase64(Frame(salt, iv, ct)))
  }

  /** `encrypt(plaintext, password)` with a 16-byte salt and a 12-byte iv drawn by the caller. */
  method Encrypt(p: Primitives, plaintext: string, password: string, salt: seq<byte>, iv: seq<byte>)
    returns (r: Result<string, string>)
    requires |salt| == SaltLength && |iv| == IvLength
    ensures r == Encryption(p, plaintext, password, salt, iv)
    ensures r.Failure? ==> r.error == EncryptError
  {
    var key := p.deriveKey(password, salt);
    var sealed := p.seal(key, iv, p.utf8Encode(plaintext));
    if sealed.None? {
      return Failure(EncryptError);
    }
    var combined := Combine(salt, iv, sealed.value);
    r := Success(p.toBase64(combined[..]));
  }

  /** `decrypt(ciphertext, password)`: base64-decode, split, derive the key from the stored salt
      and open. Every failure is reported with one fixed message. */
  function Decrypt(p: Primitives, ciphertext: string, password: string): (r: Result<string, string>)
    ensures r.Failure? ==> r.error == DecryptError
  {
    match p.fromBase64(ciphertext)
    case None => Failure(DecryptError)
    case Some(combined) =>
      var (salt, iv, data) := Split(combined);
      match p.open(p.deriveKey(password, salt), iv, data)
      case None => Failure(DecryptError)
      case Some(plain) => Success(p.utf8Decode(plain))
  }

  /** Decrypting what was encrypted with the same password gives the plaintext back. */
  lemma DecryptEncrypt(p: Primitives, plaintext: string, password: string, salt: seq<byte>, iv: seq<byte>)
    requires Laws(p)
    requires |salt| == SaltLength && |iv| == IvLength
    requires Encryption(p, plaintext, password, salt, iv).Success?
    ensures Decrypt(p, Encryption(p, plaintext, password, salt, iv).value, password) == Success(plaintext)
  {
    var key := p.deriveKey(password, salt);
    var ct := p.seal(key, iv, p.utf8Encode(plaintext)).value;
    SplitFrame(salt, iv, ct);
  }

  /** The two characters `byte.toString(16).padStart(2, '0')` prints: the high and the low hex
      digit of the byte. */
  lemma HexDigits(b: byte)
    ensures PadStart(NatToString(b, 16), 2, '0') == [DigitChar(b / 16), DigitChar(b % 16)]
  {
    var t := NatToString(b, 16);
    if b < 16 {
      assert t == [DigitChar(b)];
      assert PadStart(t, 2, '0') == ['0'] + t;
    } else {
      DivMod(b, 16);
      assert NatToString(b / 16, 16) == [DigitChar(b / 16)];
    }
  }

  /** `byte.toString(16).padStart(2, '0')`. */
  function HexByte(b: byte): (s: string)
    ensures s == [DigitChar(b / 16), DigitChar(b % 16)]
  {
    HexDigits(b);
    PadStart(NatToString(b, 16), 2, '0')
  }

  /** `Array.from(bytes, b => HexByte(b)).join('')`. */
  function Hex(bytes: seq<byte>): (s: string)
    ensures |s| == 2 * |bytes|
  {
    if bytes == [] then "" else HexByte(bytes[0]) + Hex(bytes[1..])
  }

  /** Every character is a lower-case hex digit. */
  predicate LowerHexText(s: string) {
    forall i :: 0 <= i < |s| ==> IsLowerHex(s[i])
  }

  lemma LowerHexConcat(a: string, b: string)
    requires LowerHexText(a) && LowerHexText(b)
    ensures LowerHexText(a + b)
  {
    forall i | 0 <= i < |a + b| ensures IsLowerHex((a + b)[i]) {
      if i >= |a| { assert (a + b)[i] == b[i - |a|]; }
    }
  }

  /** Every character of the rendering is a lower-case hex digit. */
  lemma {:induction false} HexLowerHex(bytes: seq<byte>)
    ensures LowerHexText(Hex(bytes))
  {
    if bytes != [] {
      HexLowerHex(bytes[1..]);
      LowerHexConcat(HexByte(bytes[0]), Hex(bytes[1..]));
    }
  }

  /** `generateId()` with its 16 random bytes as a parameter: 32 lower-case hex characters. */
  function GenerateId(random: seq<byte>): (id: string)
    requires |random| == 16
    ensures |id| == 32
    ensures LowerHexText(id)
  {
    HexLowerHex(random);
    Hex(random)
  }

  /** Reads a string of lower-case hex digit pairs back into bytes; a trailing odd character is
      dropped. */
  function Unhex(s: string): seq<byte>
    requires LowerHexText(s)
  {
    if |s| < 2 then [] else
      assert IsLowerHex(s[0]) && IsLowerHex(s[1]);
      assert LowerHexText(s[2..]) by {
        forall i | 0 <= i < |s| - 2 ensures IsLowerHex(s[2..][i]) { assert s[2..][i] == s[i + 2]; }
      }
      [DigitValue(s[0]) * 16 + DigitValue(s[1])] + Unhex(s[2..])
  }

  /** The two digits of a byte give the byte back. */
  lemma PairValue(b: byte)
    ensures DigitValue(DigitChar(b / 16)) * 16 + DigitValue(DigitChar(b % 16)) == b
  {
    DigitRoundTrip(b / 16);
    DigitRoundTrip(b % 16);
    DivMod(b, 16);
  }

  /** Reading a rendered byte in front of more text. */
  lemma UnhexStep(b: byte, rest: string)
    requires LowerHexText(rest)
    ensures LowerHexText(HexByte(b) + rest)
    ensures Unhex(HexByte(b) + rest) == [b] + Unhex(rest)
  {
    var s := HexByte(b) + rest;
    LowerHexConcat(HexByte(b), rest);
    assert s[2..] == rest;
    PairValue(b);
  }

  /** The hex rendering loses nothing: each pair of characters gives back its byte. */
  lemma {:induction false} UnhexHex(bytes: seq<byte>)
    ensures LowerHexText(Hex(bytes))
    ensures Unhex(Hex(bytes)) == bytes
  {
    HexLowerHex(bytes);
    if bytes != [] {
      HexLowerHex(bytes[1..]);
      UnhexStep(bytes[0], Hex(bytes[1..]));
      UnhexHex(bytes[1..]);
      assert bytes == [bytes[0]] + bytes[1..];
    }
  }

  /** Different random bytes give different ids. */
  lemma GenerateIdInjective(a: seq<byte>, b: seq<byte>)
    requires |a| == 16 && |b| == 16
    requires GenerateId(a) == GenerateId(b)
    ensures a == b
  {
    UnhexHex(a);
    UnhexHex(b);
  }
}
