/**
 * UTF-8 encoding and the Mac OS Roman decoding, enough to state what happens
 * to text whose UTF-8 bytes are read back as Mac OS Roman: every character
 * outside ASCII turns into two to four other characters.
 */
module TextEncoding {

  /**
   * The characters Mac OS Roman gives to the bytes 0x80 to 0xFF: row `r`,
   * column `k` holds the character of byte 0x80 + 16 * r + k.
   */
  const MacRomanRows: seq<string> := [
    "\U{C4}\U{C5}\U{C7}\U{C9}\U{D1}\U{D6}\U{DC}\U{E1}\U{E0}\U{E2}\U{E4}\U{E3}\U{E5}\U{E7}\U{E9}\U{E8}",
    "\U{EA}\U{EB}\U{ED}\U{EC}\U{EE}\U{EF}\U{F1}\U{F3}\U{F2}\U{F4}\U{F6}\U{F5}\U{FA}\U{F9}\U{FB}\U{FC}",
    "\U{2020}\U{B0}\U{A2}\U{A3}\U{A7}\U{2022}\U{B6}\U{DF}\U{AE}\U{A9}\U{2122}\U{B4}\U{A8}\U{2260}\U{C6}\U{D8}",
    "\U{221E}\U{B1}\U{2264}\U{2265}\U{A5}\U{B5}\U{2202}\U{2211}\U{220F}\U{3C0}\U{222B}\U{AA}\U{BA}\U{3A9}\U{E6}\U{F8}",
    "\U{BF}\U{A1}\U{AC}\U{221A}\U{192}\U{2248}\U{2206}\U{AB}\U{BB}\U{2026}\U{A0}\U{C0}\U{C3}\U{D5}\U{152}\U{153}",
    "\U{2013}\U{2014}\U{201C}\U{201D}\U{2018}\U{2019}\U{F7}\U{25CA}\U{FF}\U{178}\U{2044}\U{20AC}\U{2039}\U{203A}\U{FB01}\U{FB02}",
    "\U{2021}\U{B7}\U{201A}\U{201E}\U{2030}\U{C2}\U{CA}\U{C1}\U{CB}\U{C8}\U{CD}\U{CE}\U{CF}\U{CC}\U{D3}\U{D4}",
    "\U{F8FF}\U{D2}\U{DA}\U{DB}\U{D9}\U{131}\U{2C6}\U{2DC}\U{AF}\U{2D8}\U{2D9}\U{2DA}\U{B8}\U{2DD}\U{2DB}\U{2C7}"]

  /** The Mac OS Roman character of a byte from 0x80 up. */
  function MacRomanHigh(b: int): char
    requires 0x80 <= b < 0x100
  {
    assert |MacRomanRows| == 8 && forall r :: 0 <= r < 8 ==> |MacRomanRows[r]| == 16;
    MacRomanRows[(b - 0x80) / 16][(b - 0x80) % 16]
  }

  predicate IsByte(b: int)
  {
    0 <= b < 256
  }

  predicate AllBytes(bytes: seq<int>)
  {
    forall i :: 0 <= i < |bytes| ==> IsByte(bytes[i])
  }

  predicate IsAscii(c: char)
  {
    c as int < 0x80
  }

  /** The UTF-8 encoding of one character: one byte for ASCII, two to four otherwise. */
  function Utf8(c: char): (bytes: seq<int>)
    ensures 1 <= |bytes| <= 4 && AllBytes(bytes)
    ensures |bytes| == 1 <==> IsAscii(c)
    ensures IsAscii(c) ==> bytes == [c as int]
  {
    var cp := c as int;
    if cp < 0x80 then [cp]
    else if cp < 0x800 then [0xC0 + cp / 0x40, 0x80 + cp % 0x40]
    else if cp < 0x10000 then [0xE0 + cp / 0x1000, 0x80 + (cp / 0x40) % 0x40, 0x80 + cp % 0x40]
    else [0xF0 + cp / 0x40000, 0x80 + (cp / 0x1000) % 0x40, 0x80 + (cp / 0x40) % 0x40, 0x80 + cp % 0x40]
  }

  /** The UTF-8 encoding of a text: as many bytes as characters exactly when the text is ASCII. */
  function Utf8Encode(s: string): (bytes: seq<int>)
    ensures AllBytes(bytes) && |bytes| >= |s|
    ensures |bytes| == |s| <==> forall i :: 0 <= i < |s| ==> IsAscii(s[i])
  {
    if s == [] then []
    else
      assert forall i :: 1 <= i < |s| ==> s[i] == s[1..][i - 1];
      Utf8(s[0]) + Utf8Encode(s[1..])
  }

  /** The Mac OS Roman character of one byte: ASCII bytes stand for themselves. */
  function MacRomanChar(b: int): char
    requires IsByte(b)
  {
    if b < 0x80 then b as char else MacRomanHigh(b)
  }

  /** Mac OS Roman decoding: one character per byte. */
  function MacRomanDecode(bytes: seq<int>): (s: string)
    requires AllBytes(bytes)
    ensures |s| == |bytes|
  {
    if bytes == [] then [] else [MacRomanChar(bytes[0])] + MacRomanDecode(bytes[1..])
  }

  /** Text saved as UTF-8 and read back as Mac OS Roman. */
  function Misread(s: string): string
  {
    MacRomanDecode(Utf8Encode(s))
  }

  lemma {:induction false} Utf8EncodeConcat(a: string, b: string)
    ensures Utf8Encode(a + b) == Utf8Encode(a) + Utf8Encode(b)
  {
    if a != [] {
      assert (a + b)[1..] == a[1..] + b;
      Utf8EncodeConcat(a[1..], b);
    } else {
      assert a + b == b;
    }
  }

  /** Decoding works byte by byte. */
  lemma {:induction false} MacRomanDecodeEach(bytes: seq<int>)
    requires AllBytes(bytes)
    ensures forall i :: 0 <= i < |bytes| ==> MacRomanDecode(bytes)[i] == MacRomanChar(bytes[i])
  {
    if bytes != [] {
      MacRomanDecodeEach(bytes[1..]);
    }
  }

  lemma MacRomanDecodeConcat(x: seq<int>, y: seq<int>)
    requires AllBytes(x) && AllBytes(y)
    ensures MacRomanDecode(x + y) == MacRomanDecode(x) + MacRomanDecode(y)
  {
    MacRomanDecodeEach(x + y);
    MacRomanDecodeEach(x);
    MacRomanDecodeEach(y);
  }

  /** Misreading works character by character. */
  lemma MisreadConcat(a: string, b: string)
    ensures Misread(a + b) == Misread(a) + Misread(b)
  {
    Utf8EncodeConcat(a, b);
    MacRomanDecodeConcat(Utf8Encode(a), Utf8Encode(b));
  }

  /** One character misread: the Mac OS Roman characters of its UTF-8 bytes. */
  lemma MisreadChar(c: char)
    ensures Misread([c]) == MacRomanDecode(Utf8(c))
  {
    assert Utf8Encode([c]) == Utf8(c) + Utf8Encode([]);
    assert Utf8(c) + [] == Utf8(c);
  }

  /** ASCII text survives the misreading. */
  lemma {:induction false} AsciiUnchanged(s: string)
    requires forall i :: 0 <= i < |s| ==> IsAscii(s[i])
    ensures Misread(s) == s
  {
    if s != [] {
      assert s == [s[0]] + s[1..];
      MisreadConcat([s[0]], s[1..]);
      MisreadChar(s[0]);
      AsciiUnchanged(s[1..]);
    }
  }

  /** Text with any character outside ASCII does not: it comes back longer. */
  lemma NonAsciiAltered(s: string, i: int)
    requires 0 <= i < |s| && !IsAscii(s[i])
    ensures |Misread(s)| > |s|
  {
  }
}
