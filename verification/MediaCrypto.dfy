/**
  Encrypted images on the iLink CDN: the key encodings, the padded block encryption, and the size
  guards of sending and receiving.

  Base64 is that of section 4 of RFC 4648 and the padding that of section 6.3 of RFC 5652. AES is
  any permutation of 16-byte blocks for every 16-byte key.
 */
module MediaCrypto {
  import opened Text
  import opened Wrappers

  type Byte = b: int | 0 <= b < 256

  type Bytes = seq<Byte>

  const BLOCK: nat := 16
  const MAX_IMAGE_BYTES: nat := 20 * 1024 * 1024

  // ---------------------------------------------------------------- text helpers

  /** White space to `bytes.fromhex`. */
  predicate IsAsciiSpace(c: char) {
    9 <= c as int <= 13 || c == ' '
  }

  // ---------------------------------------------------------------- hexadecimal

  function HexDigit(n: int): char
    requires 0 <= n < 16
  {
    "0123456789abcdef"[n]
  }

  function HexValue(c: char): Option<int> {
    if '0' <= c <= '9' then Some(c as int - '0' as int)
    else if 'a' <= c <= 'f' then Some(c as int - 'a' as int + 10)
    else if 'A' <= c <= 'F' then Some(c as int - 'A' as int + 10)
    else None
  }

  const HEX_DIGITS := DIGITS + "abcdef"
  const UPPER_HEX_DIGITS := DIGITS + "ABCDEF"

  /** The digits and their values, and the white space between them; all else is refused. */
  lemma HexCharactersAre(c: char, v: int)
    ensures HexValue(c) == Some(v) <==> 0 <= v < 16 && (HEX_DIGITS[v] == c || UPPER_HEX_DIGITS[v] == c)
    ensures IsAsciiSpace(c) <==> c in "\t\n\U{000B}\U{000C}\r "
  {
  }

  /** Printable, not white space, and ASCII. */
  predicate IsPlain(c: char) {
    !IsSpace(c) && !IsAsciiSpace(c) && c as int < 128
  }

  predicate AllPlain(s: string) {
    forall i :: 0 <= i < |s| ==> IsPlain(s[i])
  }

  /** `bytes.hex` */
  function ToHex(bytes: Bytes): (s: string)
    ensures |s| == 2 * |bytes|
    ensures AllPlain(s)
  {
    if bytes == [] then
      ""
    else
      HexDigitRoundTrip(bytes[0] / 16);
      HexDigitRoundTrip(bytes[0] % 16);
      [HexDigit(bytes[0] / 16), HexDigit(bytes[0] % 16)] + ToHex(bytes[1..])
  }

  /** `bytes.fromhex`, which skips white space between pairs of digits. */
  function FromHex(s: string): Option<Bytes> {
    if s == "" then Some([])
    else if IsAsciiSpace(s[0]) then FromHex(s[1..])
    else if |s| == 1 || HexValue(s[0]).None? || HexValue(s[1]).None? then None
    else
      var rest := FromHex(s[2..]);
      if rest.None? then None
      else
        HexPairInRange(s[0], s[1]);
        Some([HexValue(s[0]).value * 16 + HexValue(s[1]).value] + rest.value)
  }

  lemma HexPairInRange(a: char, b: char)
    requires HexValue(a).Some? && HexValue(b).Some?
    ensures 0 <= HexValue(a).value * 16 + HexValue(b).value < 256
  {
  }

  lemma HexDigitRoundTrip(n: int)
    requires 0 <= n < 16
    ensures HexValue(HexDigit(n)) == Some(n)
    ensures IsPlain(HexDigit(n))
  {
  }

  function Upper(s: string): (r: string)
    ensures |r| == |s|
    ensures forall i :: 0 <= i < |s| ==> r[i] == if 'a' <= s[i] <= 'z' then s[i] - 'a' + 'A' else s[i]
  {
    seq(|s|, i requires 0 <= i < |s| => if 'a' <= s[i] <= 'z' then s[i] - 'a' + 'A' else s[i])
  }

  /** The case of hexadecimal digits does not matter. */
  lemma {:induction false} HexIgnoresCase(s: string)
    ensures FromHex(Upper(s)) == FromHex(s)
    decreases |s|
  {
    if s == "" {
    } else if IsAsciiSpace(s[0]) {
      assert Upper(s)[1..] == Upper(s[1..]);
      HexIgnoresCase(s[1..]);
    } else if |s| > 1 {
      assert Upper(s)[2..] == Upper(s[2..]);
      HexIgnoresCase(s[2..]);
    }
  }

  lemma SkipSpace(c: char, s: string)
    requires IsAsciiSpace(c)
    ensures FromHex([c] + s) == FromHex(s)
  {
  }

  lemma ReadPair(n: Byte, s: string)
    requires FromHex(s).Some?
    ensures FromHex([HexDigit(n / 16), HexDigit(n % 16)] + s) == Some([n] + FromHex(s).value)
  {
    HexDigitRoundTrip(n / 16);
    HexDigitRoundTrip(n % 16);
    assert ([HexDigit(n / 16), HexDigit(n % 16)] + s)[2..] == s;
  }

  lemma {:induction false} HexRoundTrip(bytes: Bytes)
    ensures FromHex(ToHex(bytes)) == Some(bytes)
  {
    if bytes == [] {
    } else {
      HexRoundTrip(bytes[1..]);
      ReadPair(bytes[0], ToHex(bytes[1..]));
      assert bytes == [bytes[0]] + bytes[1..];
    }
  }

  function Spaces(s: string): nat {
    if s == "" then 0 else (if IsAsciiSpace(s[0]) then 1 else 0) + Spaces(s[1..])
  }

  lemma {:induction false} HexLength(s: string)
    requires FromHex(s).Some?
    ensures 2 * |FromHex(s).value| + Spaces(s) == |s|
  {
    if s == "" {
    } else {
      if IsAsciiSpace(s[0]) {
        HexLength(s[1..]);
      } else {
        HexLength(s[2..]);
        assert !IsAsciiSpace(s[1]);
        assert Spaces(s) == Spaces(s[1..]) && s[1..][1..] == s[2..];
      }
    }
  }

  // ---------------------------------------------------------------- base64

  function Sextet(n: int): char
    requires 0 <= n < 64
  {
    if n < 26 then 'A' + n as char
    else if n < 52 then 'a' + (n - 26) as char
    else if n < 62 then '0' + (n - 52) as char
    else if n == 62 then '+'
    else '/'
  }

  function SextetValue(c: char): (r: Option<int>)
    ensures r.Some? ==> 0 <= r.value < 64
  {
    if 'A' <= c <= 'Z' then Some(c as int - 'A' as int)
    else if 'a' <= c <= 'z' then Some(c as int - 'a' as int + 26)
    else if '0' <= c <= '9' then Some(c as int - '0' as int + 52)
    else if c == '+' then Some(62)
    else if c == '/' then Some(63)
    else None
  }

  const ALPHABET := UPPER + LOWER + DIGITS + "+/"

  /** The alphabet of section 4 of RFC 4648, and nothing else. */
  lemma AlphabetIs(c: char, v: int)
    ensures SextetValue(c) == Some(v) <==> 0 <= v < 64 && ALPHABET[v] == c
    ensures 0 <= v < 64 ==> Sextet(v) == ALPHABET[v]
  {
    if 0 <= v < 64 {
      SextetAt(v);
      SextetRoundTrip(v);
    }
    if SextetValue(c).Some? { SextetIsOne(c); }
  }

  lemma SextetAt(v: int)
    requires 0 <= v < 64
    ensures Sextet(v) == ALPHABET[v]
  {
    if v < 26 {
      UpperAt(v);
    } else if v < 52 {
      LowerAt(v - 26);
    } else if v < 62 {
      DigitAt(v - 52);
    }
  }

  lemma SextetIsOne(c: char)
    requires SextetValue(c).Some?
    ensures Sextet(SextetValue(c).value) == c
  {
  }

  lemma SextetRoundTrip(n: int)
    requires 0 <= n < 64
    ensures SextetValue(Sextet(n)) == Some(n)
    ensures Sextet(n) != '=' && IsPlain(Sextet(n))
  {
  }

  /** The text of one quantum of one to three bytes, padded to four characters. */
  function QuantumText(bytes: Bytes): (s: string)
    requires 1 <= |bytes| <= 3
    ensures |s| == 4
  {
    if |bytes| == 1 then
      [Sextet(bytes[0] / 4), Sextet(bytes[0] % 4 * 16), '=', '=']
    else if |bytes| == 2 then
      [Sextet(bytes[0] / 4), Sextet(bytes[0] % 4 * 16 + bytes[1] / 16), Sextet(bytes[1] % 16 * 4), '=']
    else
      [Sextet(bytes[0] / 4), Sextet(bytes[0] % 4 * 16 + bytes[1] / 16),
       Sextet(bytes[1] % 16 * 4 + bytes[2] / 64), Sextet(bytes[2] % 64)]
  }

  /** `base64.b64encode` */
  function ToBase64(bytes: Bytes): (s: string) {
    if bytes == [] then ""
    else if |bytes| <= 3 then QuantumText(bytes)
    else QuantumText(bytes[..3]) + ToBase64(bytes[3..])
  }

  /** The bytes of one quantum; padding is allowed in the last one only. */
  function Quantum(s: string, last: bool): (r: Option<Bytes>)
    requires |s| == 4
  {
    var a, b, c, d := SextetValue(s[0]), SextetValue(s[1]), SextetValue(s[2]), SextetValue(s[3]);
    if a.None? || b.None? then None
    else if last && s[2] == '=' && s[3] == '=' then Some([a.value * 4 + b.value / 16])
    else if c.None? then None
    else if last && s[3] == '=' then Some([a.value * 4 + b.value / 16, b.value % 16 * 16 + c.value / 4])
    else if d.None? then None
    else Some([a.value * 4 + b.value / 16, b.value % 16 * 16 + c.value / 4, c.value % 4 * 64 + d.value])
  }

  /** `base64.b64decode(text, validate=True)` */
  function FromBase64(s: string): Option<Bytes> {
    if s == "" then Some([])
    else if |s| < 4 then None
    else
      var head, tail := Quantum(s[..4], |s| == 4), FromBase64(s[4..]);
      if head.None? || tail.None? then None else Some(head.value + tail.value)
  }

  /** The six-bit groups of three bytes give the bytes back. */
  lemma Regroup(a: Byte, b: Byte, c: Byte)
    ensures a / 4 * 4 + (a % 4 * 16 + b / 16) / 16 == a
    ensures (a % 4 * 16 + b / 16) % 16 * 16 + (b % 16 * 4 + c / 64) / 4 == b
    ensures (b % 16 * 4 + c / 64) % 4 * 64 + c % 64 == c
  {
  }

  lemma QuantumOfOne(a: Byte)
    ensures Quantum(QuantumText([a]), true) == Some([a])
    ensures AllPlain(QuantumText([a]))
  {
  }

  lemma QuantumOfTwo(a: Byte, b: Byte)
    ensures Quantum(QuantumText([a, b]), true) == Some([a, b])
    ensures AllPlain(QuantumText([a, b]))
  {
    SextetRoundTrip(a / 4);
    SextetRoundTrip(a % 4 * 16 + b / 16);
    SextetRoundTrip(b % 16 * 4);
    Regroup(a, b, 0);
    hide Sextet, SextetValue, IsPlain;
  }

  lemma QuantumOfThree(a: Byte, b: Byte, c: Byte, last: bool)
    ensures Quantum(QuantumText([a, b, c]), last) == Some([a, b, c])
    ensures AllPlain(QuantumText([a, b, c]))
  {
    hide Sextet, SextetValue, IsPlain;
    SextetRoundTrip(a / 4);
    SextetRoundTrip(a % 4 * 16 + b / 16);
    SextetRoundTrip(b % 16 * 4 + c / 64);
    SextetRoundTrip(c % 64);
    Regroup(a, b, c);
  }

  lemma QuantumRoundTrip(bytes: Bytes, last: bool)
    requires 1 <= |bytes| <= 3 && (|bytes| < 3 ==> last)
    ensures Quantum(QuantumText(bytes), last) == Some(bytes)
    ensures AllPlain(QuantumText(bytes))
  {
    hide *;
    if |bytes| == 1 {
      assert bytes == [bytes[0]];
      QuantumOfOne(bytes[0]);
    } else if |bytes| == 2 {
      assert bytes == [bytes[0], bytes[1]];
      QuantumOfTwo(bytes[0], bytes[1]);
    } else {
      assert bytes == [bytes[0], bytes[1], bytes[2]];
      QuantumOfThree(bytes[0], bytes[1], bytes[2], last);
    }
  }

  lemma DecodeNext(head: string, tail: string)
    requires |head| == 4
    requires Quantum(head, tail == "").Some? && FromBase64(tail).Some?
    ensures FromBase64(head + tail) == Some(Quantum(head, tail == "").value + FromBase64(tail).value)
  {
  }

  lemma {:induction false} Base64RoundTrip(bytes: Bytes)
    ensures FromBase64(ToBase64(bytes)) == Some(bytes)
    ensures |ToBase64(bytes)| == (|bytes| + 2) / 3 * 4
    ensures AllPlain(ToBase64(bytes))
  {
    hide QuantumText, Quantum, IsPlain;
    if bytes == [] {
    } else if |bytes| <= 3 {
      QuantumRoundTrip(bytes, true);
      DecodeNext(QuantumText(bytes), "");
      assert QuantumText(bytes) + "" == QuantumText(bytes) && bytes + [] == bytes;
    } else {
      Base64RoundTrip(bytes[3..]);
      QuantumRoundTrip(bytes[..3], false);
      DecodeNext(QuantumText(bytes[..3]), ToBase64(bytes[3..]));
      assert bytes == bytes[..3] + bytes[3..];
    }
  }

  // ---------------------------------------------------------------- the key parser

  function AsciiText(bytes: Bytes): (s: string)
    ensures |s| == |bytes|
  {
    seq(|bytes|, i requires 0 <= i < |bytes| => bytes[i] as char)
  }

  function AsciiBytes(s: string): (bytes: Bytes)
    requires AllPlain(s)
    ensures |bytes| == |s|
  {
    seq(|s|, i requires 0 <= i < |s| => ByteOf(s[i]))
  }

  function ByteOf(c: char): Byte
    requires c as int < 128
  {
    c as int
  }

  /** `parse_aes_key`; `None` is the error. */
  function ParseAesKey(value: string): Option<Bytes> {
    var text := Strip(value);
    if |text| == 32 && FromHex(text).Some? then
      FromHex(text)
    else
      match FromBase64(text)
      case None => None
      case Some(decoded) =>
        if |decoded| == 16 then Some(decoded)
        else if |decoded| == 32 && (forall b :: b in decoded ==> b < 128) then FromHex(AsciiText(decoded))
        else None
  }

  /** The field `send_image` writes. */
  function KeyField(key: Bytes): string {
    ToBase64(AsciiBytes(ToHex(key)))
  }

  lemma StripOfPlain(before: string, s: string, after: string)
    requires s != "" && AllPlain(s)
    requires forall c :: c in before + after ==> IsSpace(c)
    ensures Strip(before + s + after) == s
  {
    assert IsPlain(s[0]) && IsPlain(s[|s| - 1]);
    StripOf(before, s, after);
  }

  lemma TextOfAscii(s: string)
    requires AllPlain(s)
    ensures AsciiText(AsciiBytes(s)) == s
    ensures forall b :: b in AsciiBytes(s) ==> b < 128
  {
  }

  /** Surrounding white space aside, all three encodings of a 16-byte key are read back. */
  lemma EveryKeyFormIsRead(key: Bytes, before: string, after: string)
    requires |key| == 16
    requires forall c :: c in before + after ==> IsSpace(c)
    ensures ParseAesKey(before + ToHex(key) + after) == Some(key)
    ensures ParseAesKey(before + ToBase64(key) + after) == Some(key)
    ensures ParseAesKey(before + KeyField(key) + after) == Some(key)
  {
    HexRoundTrip(key);
    StripOfPlain(before, ToHex(key), after);
    Base64RoundTrip(key);
    StripOfPlain(before, ToBase64(key), after);
    KeyFieldIsRead(key);
    StripOfPlain(before, KeyField(key), after);
  }

  lemma KeyFieldIsRead(key: Bytes)
    requires |key| == 16
    ensures |KeyField(key)| == 44
    ensures AllPlain(KeyField(key))
    ensures FromBase64(KeyField(key)).Some?
    ensures
      var decoded := FromBase64(KeyField(key)).value;
      && |decoded| == 32
      && (forall b :: b in decoded ==> b < 128)
      && FromHex(AsciiText(decoded)) == Some(key)
  {
    hide ToHex, ToBase64, FromBase64, FromHex, AsciiText, AsciiBytes, AllPlain;
    HexRoundTrip(key);
    TextOfAscii(ToHex(key));
    Base64RoundTrip(AsciiBytes(ToHex(key)));
  }

  /** The hexadecimal text the parser reads the key from, if it reads one. */
  function HexSource(value: string): Option<string> {
    var text := Strip(value);
    if |text| == 32 && FromHex(text).Some? then Some(text)
    else
      match FromBase64(text)
      case None => None
      case Some(decoded) => if |decoded| == 16 then None else Some(AsciiText(decoded))
  }

  /**
    An accepted key never has more than 16 bytes, and it has 16 unless white space stands between
    the digits of its hexadecimal form: `bytes.fromhex` drops the white space, and the length of
    what is left is not looked at.
   */
  lemma ParsedKeyHas16BytesIff(value: string)
    requires ParseAesKey(value).Some?
    ensures |ParseAesKey(value).value| <= 16
    ensures |ParseAesKey(value).value| == 16 <==> HexSource(value).None? || Spaces(HexSource(value).value) == 0
  {
    var text := Strip(value);
    if |text| == 32 && FromHex(text).Some? {
      HexLength(text);
    } else if |FromBase64(text).value| != 16 {
      HexLength(AsciiText(FromBase64(text).value));
    }
  }

  /** Such a short key is indeed accepted. */
  lemma ShortKeyIsAccepted(rest: Bytes)
    requires |rest| == 14
    ensures ParseAesKey("00  " + ToHex(rest)) == Some([0] + rest)
  {
    var hex := ToHex(rest);
    ShortKeyDigits(rest);
    var s := "00  " + hex;
    assert s[|s| - 1] == hex[|hex| - 1] && IsPlain(hex[|hex| - 1]);
    hide ToHex, FromHex;
    NothingToStrip(s);
  }

  lemma ShortKeyDigits(rest: Bytes)
    ensures FromHex("00  " + ToHex(rest)) == Some([0] + rest)
  {
    hide FromHex, ToHex, HexDigit;
    var hex := ToHex(rest);
    HexRoundTrip(rest);
    SkipSpace(' ', hex);
    SkipSpace(' ', [' '] + hex);
    ReadPair(0, [' '] + ([' '] + hex));
    TwoZerosTwoSpaces(hex);
  }

  lemma TwoZerosTwoSpaces(s: string)
    ensures "00  " + s == [HexDigit(0), HexDigit(0)] + ([' '] + ([' '] + s))
  {
    assert HexDigit(0) == '0';
    hide HexDigit;
    assert "00  " + s == ['0', '0'] + ([' '] + ([' '] + s));
  }

  lemma NothingToStrip(s: string)
    requires s != "" && !IsSpace(s[0]) && !IsSpace(s[|s| - 1])
    ensures Strip(s) == s
  {
  }

  // ---------------------------------------------------------------- padding

  function Pad(data: Bytes): Bytes {
    var n: Byte := BLOCK - |data| % BLOCK;
    data + seq(n, _ => n)
  }

  function Unpad(data: Bytes): Option<Bytes> {
    if data == [] || |data| % BLOCK != 0 then None
    else
      var n := data[|data| - 1];
      if n < 1 || n > BLOCK || (exists i :: |data| - n <= i < |data| && data[i] != n) then None
      else Some(data[..|data| - n])
  }

  lemma UnpadPad(data: Bytes)
    ensures |Pad(data)| == (|data| / BLOCK + 1) * BLOCK
    ensures Unpad(Pad(data)) == Some(data)
  {
  }

  lemma PadUnpad(data: Bytes)
    requires Unpad(data).Some?
    ensures Pad(Unpad(data).value) == data
  {
  }

  // ---------------------------------------------------------------- block encryption

  datatype Cipher = Cipher(enc: (Bytes, Bytes) -> Bytes, dec: (Bytes, Bytes) -> Bytes) {
    ghost predicate Valid() {
      forall key, block {:trigger enc(key, block)} {:trigger dec(key, block)} :: |key| == 16 && |block| == BLOCK ==>
        && |enc(key, block)| == BLOCK && |dec(key, block)| == BLOCK
        && dec(key, enc(key, block)) == block && enc(key, dec(key, block)) == block
    }
  }

  function EcbEncrypt(cipher: Cipher, key: Bytes, data: Bytes): Bytes {
    if |data| < BLOCK then [] else cipher.enc(key, data[..BLOCK]) + EcbEncrypt(cipher, key, data[BLOCK..])
  }

  function EcbDecrypt(cipher: Cipher, key: Bytes, data: Bytes): Bytes {
    if |data| < BLOCK then [] else cipher.dec(key, data[..BLOCK]) + EcbDecrypt(cipher, key, data[BLOCK..])
  }

  lemma {:induction false} DecryptEncrypt(cipher: Cipher, key: Bytes, data: Bytes)
    requires cipher.Valid() && |key| == 16 && |data| % BLOCK == 0
    ensures |EcbEncrypt(cipher, key, data)| == |data|
    ensures EcbDecrypt(cipher, key, EcbEncrypt(cipher, key, data)) == data
  {
    if data == [] {
    } else {
      var head, tail := data[..BLOCK], data[BLOCK..];
      DecryptEncrypt(cipher, key, tail);
      var out := EcbEncrypt(cipher, key, data);
      assert out[..BLOCK] == cipher.enc(key, head) && out[BLOCK..] == EcbEncrypt(cipher, key, tail);
      assert data == head + tail;
    }
  }

  lemma {:induction false} EncryptDecrypt(cipher: Cipher, key: Bytes, data: Bytes)
    requires cipher.Valid() && |key| == 16 && |data| % BLOCK == 0
    ensures |EcbDecrypt(cipher, key, data)| == |data|
    ensures EcbEncrypt(cipher, key, EcbDecrypt(cipher, key, data)) == data
  {
    if data == [] {
    } else {
      var head, tail := data[..BLOCK], data[BLOCK..];
      EncryptDecrypt(cipher, key, tail);
      var out := EcbDecrypt(cipher, key, data);
      assert out[..BLOCK] == cipher.dec(key, head) && out[BLOCK..] == EcbDecrypt(cipher, key, tail);
      assert data == head + tail;
    }
  }

  /** `encrypt_cdn_bytes` */
  function EncryptCdn(cipher: Cipher, plain: Bytes, key: Bytes): Option<Bytes> {
    if |key| != 16 then None else Some(EcbEncrypt(cipher, key, Pad(plain)))
  }

  /** `decrypt_cdn_bytes`; a key AES does not take is an error like the others. */
  function DecryptCdn(cipher: Cipher, encrypted: Bytes, aesKey: string): Option<Bytes> {
    match ParseAesKey(aesKey)
    case None => None
    case Some(key) =>
      if encrypted == [] || |encrypted| % BLOCK != 0 || |key| !in {16, 24, 32} then None
      else Unpad(EcbDecrypt(cipher, key, encrypted))
  }

  /**
    Decryption is the exact inverse of encryption: it yields a plaintext iff the key text denotes a
    16-byte key under which that plaintext encrypts to the given bytes.
   */
  lemma DecryptsExactlyWhatWasEncrypted(cipher: Cipher, encrypted: Bytes, aesKey: string, plain: Bytes)
    requires cipher.Valid()
    ensures DecryptCdn(cipher, encrypted, aesKey) == Some(plain)
            <==> ParseAesKey(aesKey).Some? && EncryptCdn(cipher, plain, ParseAesKey(aesKey).value) == Some(encrypted)
  {
    match ParseAesKey(aesKey)
    case None =>
    case Some(key) =>
      ParsedKeyHas16BytesIff(aesKey);
      if |key| == 16 {
        UnpadPad(plain);
        if EcbEncrypt(cipher, key, Pad(plain)) == encrypted {
          DecryptEncrypt(cipher, key, Pad(plain));
        }
        if DecryptCdn(cipher, encrypted, aesKey) == Some(plain) {
          EncryptDecrypt(cipher, key, encrypted);
          PadUnpad(EcbDecrypt(cipher, key, encrypted));
        }
      }
  }

  // ---------------------------------------------------------------- sending and receiving

  datatype Upload = Upload(content: Bytes, aesKey: string)

  /** `send_image`, up to what is uploaded and the key field of the message. */
  function SendImage(cipher: Cipher, image: Bytes, key: Bytes): Option<Upload> {
    if image == [] || |image| > MAX_IMAGE_BYTES then None
    else
      match EncryptCdn(cipher, image, key)
      case None => None
      case Some(content) => Some(Upload(content, KeyField(key)))
  }

  /** `download_image`, from the downloaded content on. */
  function DownloadImage(cipher: Cipher, content: Bytes, aesKey: string): Option<Bytes> {
    if |content| > MAX_IMAGE_BYTES then None else DecryptCdn(cipher, content, aesKey)
  }

  /**
    An image is accepted for sending iff it is not empty and has at most 20 MiB, and what was sent
    can be downloaded again iff it is below that limit: padding takes an image of exactly the limit
    past the limit of the receiver.
   */
  lemma SentImageIsReceivedIff(cipher: Cipher, image: Bytes, key: Bytes)
    requires cipher.Valid() && |key| == 16
    ensures SendImage(cipher, image, key).Some? <==> 0 < |image| <= MAX_IMAGE_BYTES
    ensures SendImage(cipher, image, key).Some? ==>
      var upload := SendImage(cipher, image, key).value;
      && (DownloadImage(cipher, upload.content, upload.aesKey) == Some(image) <==> |image| < MAX_IMAGE_BYTES)
      && (DownloadImage(cipher, upload.content, upload.aesKey) == None <==> |image| == MAX_IMAGE_BYTES)
  {
    hide ParseAesKey, KeyField, EcbEncrypt, EcbDecrypt, Pad, Unpad, DecryptCdn, Cipher.Valid;
    var content := EcbEncrypt(cipher, key, Pad(image));
    EncryptedLength(cipher, image, key);
    KeyFieldDecodes(key);
    DecryptsExactlyWhatWasEncrypted(cipher, content, KeyField(key), image);
  }

  lemma KeyFieldDecodes(key: Bytes)
    requires |key| == 16
    ensures ParseAesKey(KeyField(key)) == Some(key)
  {
    hide ParseAesKey, KeyField, IsSpace;
    EveryKeyFormIsRead(key, "", "");
    assert "" + KeyField(key) + "" == KeyField(key);
  }

  /** Encryption rounds the length up to the next full block, past the original length always. */
  lemma EncryptedLength(cipher: Cipher, image: Bytes, key: Bytes)
    requires cipher.Valid() && |key| == 16
    ensures |EcbEncrypt(cipher, key, Pad(image))| == (|image| / BLOCK + 1) * BLOCK
    ensures |EcbEncrypt(cipher, key, Pad(image))| <= MAX_IMAGE_BYTES <==> |image| < MAX_IMAGE_BYTES
  {
    var padded := Pad(image);
    UnpadPad(image);
    PaddedLength(|image|);
    hide Pad, Unpad, Cipher.Valid;
    DecryptEncrypt(cipher, key, padded);
  }

  lemma PaddedLength(n: nat)
    ensures n + (BLOCK - n % BLOCK) == (n / BLOCK + 1) * BLOCK
    ensures (n / BLOCK + 1) * BLOCK <= MAX_IMAGE_BYTES <==> n < MAX_IMAGE_BYTES
  {
  }
}
