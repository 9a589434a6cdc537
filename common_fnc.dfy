/**
 * The byte-buffer helpers of the encryption pipeline (cam_app/fsw/src/common_fnc.c):
 * PKCS#7-style padding to 16-byte blocks (section 6.3 of RFC 5652), the unchecked
 * unpadding, and the hex text format the ciphertext is stored in (two lower-case
 * digits per byte when written, decoded with `strtol(..., 16)` two characters at a
 * time when read back).
 *
 * Buffers that the C code reallocates through `byte**` / `size_t*` are arrays here;
 * a method that reallocates returns the new array, whose length is the new size.
 * Text files are sequences of ASCII codes.
 */
module CommonFnc {
  import opened Bytes

  /** BLOCK_SIZE of common_fnc.c. */
  const BlockSize: nat := 16

  // ---------------------------------------------------------------------------
  // Padding
  // ---------------------------------------------------------------------------

  /**
   * Number of bytes `pad_data` appends to a buffer of n bytes: always at least one,
   * and a whole extra block when n is already a multiple of the block size.
   */
  function PadLength(n: nat): (p: nat)
    ensures 1 <= p <= BlockSize
    ensures (n + p) % BlockSize == 0
    ensures p == BlockSize <==> n % BlockSize == 0
  {
    BlockSize - n % BlockSize
  }

  /** Contents of the buffer after a successful `pad_data`. */
  function Pad(s: seq<byte>): (r: seq<byte>)
    ensures |r| == |s| + PadLength(|s|)
    ensures |r| % BlockSize == 0
    ensures r[..|s|] == s
    ensures forall i :: |s| <= i < |r| ==> r[i] as int == PadLength(|s|)
  {
    var p := PadLength(|s|);
    s + seq(p, _ => p as byte)
  }

  /**
   * What `unpad_data` leaves. The last byte is taken as the pad length and that many
   * bytes are dropped, without looking at any other byte.
   * - Shrunk: the buffer reallocated to the smaller size.
   * - NullBuffer: the pad byte exceeds the size, so the `size_t` subtraction wraps
   *   to a nonzero size near SIZE_MAX that `realloc` cannot satisfy; the buffer
   *   pointer becomes null. Nothing undefined has happened yet.
   * - ReadsBeforeBuffer: the buffer is empty and index -1 is read, which is undefined.
   */
  datatype Unpadded = Shrunk(data: seq<byte>) | NullBuffer | ReadsBeforeBuffer

  /** The outcome of `unpad_data` on the contents s. */
  function Unpad(s: seq<byte>): (r: Unpadded)
    ensures r.ReadsBeforeBuffer? <==> |s| == 0
    ensures r.NullBuffer? <==> 0 < |s| && s[|s| - 1] as int > |s|
    ensures r.Shrunk? ==> r.data <= s && |s| - |r.data| == s[|s| - 1] as int
  {
    if |s| == 0 then ReadsBeforeBuffer
    else if s[|s| - 1] as int > |s| then NullBuffer
    else Shrunk(s[..|s| - s[|s| - 1] as int])
  }

  /** Unpadding undoes padding, for every length (0 and exact multiples of 16 included). */
  lemma UnpadPad(s: seq<byte>)
    ensures Unpad(Pad(s)) == Shrunk(s)
  {
    var r := Pad(s);
    assert r[|r| - 1] as int == PadLength(|s|);
  }

  /**
   * Unpadding trusts the last byte alone: any tail whose last byte equals its own
   * length is removed, whatever the other tail bytes are.
   */
  lemma UnpadTrustsLastByte(s: seq<byte>, tail: seq<byte>)
    requires 0 < |tail| && tail[|tail| - 1] as int == |tail|
    ensures Unpad(s + tail) == Shrunk(s)
  {
    var t := s + tail;
    assert t[|t| - 1] == tail[|tail| - 1];
    assert t[..|s|] == s;
  }

  /**
   * `pad_data`: reallocates the buffer to size + p bytes and fills the p new bytes
   * with the value p. When the reallocation fails the buffer pointer becomes null
   * and the size is left as it was.
   */
  method PadData(data: array<byte>, reallocOk: bool) returns (out: array?<byte>, size: nat)
    ensures !reallocOk ==> out == null && size == data.Length
    ensures reallocOk ==> out != null && fresh(out) && size == out.Length && out[..] == Pad(data[..])
  {
    var n := data.Length;
    var p := BlockSize - n % BlockSize;
    if !reallocOk {
      return null, n;
    }
    var buf := new byte[n + p];
    forall i | 0 <= i < n {
      buf[i] := data[i];
    }
    forall i | n <= i < n + p {
      buf[i] := p as byte;
    }
    assert buf[..] == data[..] + seq(p, _ => p as byte);
    out, size := buf, n + p;
  }

  /**
   * `unpad_data`: shrinks the buffer by the value of its last byte. None stands for
   * the empty buffer, on which the C code is undefined; Some(null) for the null
   * pointer the failed `realloc` leaves.
   */
  method UnpadData(data: array<byte>) returns (out: Option<array?<byte>>)
    ensures out.None? <==> Unpad(data[..]).ReadsBeforeBuffer?
    ensures out.Some? && out.value == null <==> Unpad(data[..]).NullBuffer?
    ensures out.Some? && out.value != null ==> fresh(out.value) && Unpad(data[..]) == Shrunk(out.value[..])
  {
    if data.Length == 0 {
      return None;
    }
    var pad := data[data.Length - 1] as int;
    if pad > data.Length {  // *size wraps around; realloc fails
      return Some(null);
    }
    var size := data.Length - pad;
    var buf := new byte[size];
    forall i | 0 <= i < size {
      buf[i] := data[i];
    }
    out := Some(buf);
  }

  // ---------------------------------------------------------------------------
  // Hex text
  // ---------------------------------------------------------------------------

  /** ASCII '0'-'9' and 'a'-'f': what `%02x` prints. */
  predicate IsLowerHexDigit(c: byte) {
    48 <= c <= 57 || 97 <= c <= 102
  }

  /** Value of a hexadecimal digit of either case, as `strtol` reads it in base 16. */
  function DigitValue(c: byte): (d: Option<nat>)
    ensures d.Some? ==> d.value < 16
    ensures IsLowerHexDigit(c) ==> d.Some?
  {
    if 48 <= c <= 57 then Some(c as nat - 48)
    else if 97 <= c <= 102 then Some(c as nat - 87)
    else if 65 <= c <= 70 then Some(c as nat - 55)
    else None
  }

  /** The lower-case digit `%02x` prints for the value v. */
  function HexDigit(v: nat): (c: byte)
    requires v < 16
    ensures IsLowerHexDigit(c) && DigitValue(c) == Some(v)
  {
    if v < 10 then (48 + v) as byte else (87 + v) as byte
  }

  /** `%02x` of one byte: high digit, then low digit. */
  function HexByte(b: byte): (r: seq<byte>)
    ensures |r| == 2 && DigitValue(r[0]) == Some(b as nat / 16) && DigitValue(r[1]) == Some(b as nat % 16)
  {
    [HexDigit(b as nat / 16), HexDigit(b as nat % 16)]
  }

  /** Text of the ciphertext file: `%02x` of every byte in order, no separators. */
  function HexEncode(s: seq<byte>): (r: seq<byte>)
    ensures |r| == 2 * |s|
    ensures forall j :: 0 <= j < |r| ==> IsLowerHexDigit(r[j])
  {
    if |s| == 0 then [] else HexByte(s[0]) + HexEncode(s[1..])
  }

  /** Printing one more byte appends its two digits: the text grows as the `fprintf` loop runs. */
  lemma {:induction false} HexEncodeAppend(s: seq<byte>, b: byte)
    ensures HexEncode(s + [b]) == HexEncode(s) + HexByte(b)
  {
    if |s| == 0 {
      assert s + [b] == [b];
      assert HexEncode([b]) == HexByte(b) + HexEncode([]);
    } else {
      assert (s + [b])[0] == s[0];
      assert (s + [b])[1..] == s[1..] + [b];
      HexEncodeAppend(s[1..], b);
    }
  }

  /** C isspace in the "C" locale: space, \t, \n, \v, \f, \r. */
  predicate IsSpace(c: byte) {
    c == 32 || 9 <= c <= 13
  }

  /**
   * `strtol(buffer, NULL, 16)` on the NUL-terminated two-character string c0 c1 of
   * read_encrypted_data: leading white space is skipped, an optional sign is read,
   * then as many hex digits as follow; no digit at all gives 0.
   */
  function StrtolHex2(c0: byte, c1: byte): (v: int)
    ensures -15 <= v <= 255
  {
    if IsSpace(c0) then
      (match DigitValue(c1) case Some(d) => d case None => 0)
    else if c0 == 43 || c0 == 45 then  // '+' or '-'
      (match DigitValue(c1) case Some(d) => if c0 == 45 then -(d as int) else d as int case None => 0)
    else
      match DigitValue(c0)
      case None => 0
      case Some(d0) => (match DigitValue(c1) case Some(d1) => 16 * d0 + d1 case None => d0)
  }

  /** Two lower-case digits written by `%02x` are read back as the byte they came from. */
  lemma StrtolOfHexByte(b: byte)
    ensures ToByte(StrtolHex2(HexDigit(b as nat / 16), HexDigit(b as nat % 16))) == b
  {
    var hi, lo := HexDigit(b as nat / 16), HexDigit(b as nat % 16);
    assert !IsSpace(hi) && hi != 43 && hi != 45;
    assert StrtolHex2(hi, lo) == 16 * (b as nat / 16) + b as nat % 16;
  }

  /**
   * The bytes read_encrypted_data produces from a file's text: n characters give
   * n div 2 bytes (an odd trailing character is ignored), byte i being the strtol
   * value of characters 2i and 2i+1 converted to `byte`.
   */
  function HexDecode(t: seq<byte>): (r: seq<byte>)
    ensures |r| == |t| / 2
    ensures forall i :: 0 <= i < |r| ==> r[i] == ToByte(StrtolHex2(t[2 * i], t[2 * i + 1]))
    decreases |t|
  {
    if |t| < 2 then [] else [ToByte(StrtolHex2(t[0], t[1]))] + HexDecode(t[2..])
  }

  /** Decoding the text written for a buffer gives the buffer back. */
  lemma {:induction false} HexDecodeEncode(s: seq<byte>)
    ensures HexDecode(HexEncode(s)) == s
  {
    if |s| > 0 {
      var e, h := HexEncode(s), HexByte(s[0]);
      assert e == h + HexEncode(s[1..]);
      assert e[0] == h[0] && e[1] == h[1] && e[2..] == HexEncode(s[1..]);
      StrtolOfHexByte(s[0]);
      HexDecodeEncode(s[1..]);
      assert s == [s[0]] + s[1..];
    }
  }

  /** On the texts %02x can produce (even length, lower-case digits) decoding is undone by encoding. */
  lemma {:induction false} HexEncodeDecode(t: seq<byte>)
    requires |t| % 2 == 0
    requires forall j :: 0 <= j < |t| ==> IsLowerHexDigit(t[j])
    ensures HexEncode(HexDecode(t)) == t
  {
    if |t| >= 2 {
      var rest := t[2..];
      assert forall j :: 0 <= j < |rest| ==> IsLowerHexDigit(rest[j]) by {
        forall j | 0 <= j < |rest| ensures IsLowerHexDigit(rest[j]) {
          assert rest[j] == t[j + 2];
        }
      }
      HexEncodeDecode(rest);
      LowerHexPair(t[0], t[1]);
      var d := HexDecode(t);
      assert d[1..] == HexDecode(rest);
      assert HexEncode(d) == HexByte(d[0]) + HexEncode(d[1..]);
      assert t == [t[0], t[1]] + rest;
    }
  }

  /** A pair of lower-case digits is printed back exactly by `%02x` of its strtol value. */
  lemma LowerHexPair(c0: byte, c1: byte)
    requires IsLowerHexDigit(c0) && IsLowerHexDigit(c1)
    ensures var b := ToByte(StrtolHex2(c0, c1));
      HexDigit(b as nat / 16) == c0 && HexDigit(b as nat % 16) == c1
  {
    var d0, d1 := DigitValue(c0).value, DigitValue(c1).value;
    assert StrtolHex2(c0, c1) == 16 * d0 + d1;
    assert ToByte(16 * d0 + d1) as nat / 16 == d0;
  }

  /**
   * read_encrypted_data with the file abstracted to its contents (None: the file
   * cannot be opened, and the caller's pointer and size are left untouched). The
   * buffer is filled in a loop, two characters per byte.
   */
  method ReadEncryptedData(file: Option<seq<byte>>) returns (data: Option<array<byte>>)
    ensures file.None? ==> data.None?
    ensures file.Some? ==> data.Some? && fresh(data.value) && data.value[..] == HexDecode(file.value)
  {
    if file.None? {
      return None;
    }
    var text := file.value;
    var size := |text| / 2;
    var buf := new byte[size];
    for i := 0 to size
      invariant forall j :: 0 <= j < i ==> buf[j] == HexDecode(text)[j]
    {
      buf[i] := ToByte(StrtolHex2(text[2 * i], text[2 * i + 1]));
    }
    data := Some(buf);
  }
}
