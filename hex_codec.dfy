/** Python's `bytes.hex()`, the encoding of the chunk replies, and the
    `bytes.fromhex()` a client uses to undo it. */
module HexCodec {
  import opened PyValue
  import DfpwmEncoder

  type Byte = DfpwmEncoder.Byte

  const Digits: string := "0123456789abcdef"

  /** `b.hex()`: two lower-case hexadecimal digits per byte, high nibble first. */
  function Hex(b: seq<Byte>): (h: string)
    ensures |h| == 2 * |b|
  {
    if b == [] then [] else HexPair(b[0]) + Hex(b[1..])
  }

  /** The two digits of one byte. */
  function HexPair(x: Byte): (p: string)
    ensures |p| == 2
  {
    [Digits[x / 16], Digits[x % 16]]
  }

  /** The value of one hexadecimal digit, either case. */
  function DigitValue(c: char): Option<int> {
    if '0' <= c <= '9' then Some(c as int - '0' as int)
    else if 'a' <= c <= 'f' then Some(c as int - 'a' as int + 10)
    else if 'A' <= c <= 'F' then Some(c as int - 'A' as int + 10)
    else None
  }

  /** `bytes.fromhex(h)` for a string without spaces: None for an odd
      length or a character that is not a hexadecimal digit. */
  function FromHex(h: string): Option<seq<Byte>>
    decreases |h|
  {
    if h == [] then Some([])
    else if |h| == 1 then None
    else
      var hi := DigitValue(h[0]);
      var lo := DigitValue(h[1]);
      var rest := FromHex(h[2..]);
      if hi.None? || lo.None? || rest.None? then None
      else
        assert 0 <= hi.value < 16 && 0 <= lo.value < 16;
        Some([hi.value * 16 + lo.value] + rest.value)
  }

  /** The two digits of a byte read back as that byte. */
  lemma PairRoundTrip(x: Byte)
    ensures var p := HexPair(x);
      DigitValue(p[0]).Some? && DigitValue(p[1]).Some? && DigitValue(p[0]).value * 16 + DigitValue(p[1]).value == x
  {
    var hi, lo := x / 16, x % 16;
    assert DigitValue(Digits[hi]) == Some(hi);
    assert DigitValue(Digits[lo]) == Some(lo);
  }

  /** Decoding the hex of a byte string gives back the bytes. */
  lemma {:induction false} FromHexHex(b: seq<Byte>)
    ensures FromHex(Hex(b)) == Some(b)
  {
    if b != [] {
      FromHexHex(b[1..]);
      var h := Hex(b);
      var p := HexPair(b[0]);
      PairRoundTrip(b[0]);
      assert h[0] == p[0] && h[1] == p[1];
      assert h[2..] == Hex(b[1..]);
      assert [b[0]] + b[1..] == b;
    }
  }

  /** The hex of a concatenation is the concatenation of the hexes, so a
      client may join chunk replies before decoding them. */
  lemma {:induction false} HexAppend(a: seq<Byte>, b: seq<Byte>)
    ensures Hex(a + b) == Hex(a) + Hex(b)
  {
    if a == [] {
      assert a + b == b;
    } else {
      HexAppend(a[1..], b);
      var pair := HexPair(a[0]);
      assert (a + b)[0] == a[0];
      assert (a + b)[1..] == a[1..] + b;
      assert Hex(a + b) == pair + Hex(a[1..] + b);
      assert pair + (Hex(a[1..]) + Hex(b)) == (pair + Hex(a[1..])) + Hex(b);
    }
  }
}
