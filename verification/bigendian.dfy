/**
 Unsigned big-endian integers of a fixed byte width, as written by Go's
 `binary.BigEndian.PutUint16` and `PutUint32`.
 */
module BigEndian {

  /** A byte, modelled as an integer in 0..255. */
  type byte = b: int | 0 <= b < 256

  /** 256 to the power `k`: the number of distinct values a `k`-byte field holds. */
  function Pow256(k: nat): (r: nat)
    ensures r >= 1
  {
    if k == 0 then 1 else 256 * Pow256(k - 1)
  }

  const TWO_16: nat := 0x1_0000
  const TWO_32: nat := 0x1_0000_0000

  lemma Pow256Widths()
    ensures Pow256(2) == TWO_16
    ensures Pow256(4) == TWO_32
  {
  }

  /** The `width`-byte big-endian representation of `v`, most significant byte first. */
  function Encode(v: nat, width: nat): (s: seq<byte>)
    requires v < Pow256(width)
    ensures |s| == width
  {
    if width == 0 then [] else Encode(v / 256, width - 1) + [v % 256]
  }

  /** The value of a big-endian byte sequence of any width. */
  function Decode(s: seq<byte>): (v: nat)
    ensures v < Pow256(|s|)
  {
    if |s| == 0 then 0 else Decode(s[..|s| - 1]) * 256 + s[|s| - 1]
  }

  /** Decoding an encoded value gives the value back. */
  lemma {:induction false} DecodeEncode(v: nat, width: nat)
    requires v < Pow256(width)
    ensures Decode(Encode(v, width)) == v
  {
    if width > 0 {
      var s := Encode(v, width);
      assert s[..|s| - 1] == Encode(v / 256, width - 1);
      DecodeEncode(v / 256, width - 1);
    }
  }

  /** Every byte sequence is the encoding of its own value: the representation is unique. */
  lemma {:induction false} EncodeDecode(s: seq<byte>)
    ensures Encode(Decode(s), |s|) == s
  {
    if |s| > 0 {
      var init := s[..|s| - 1];
      var v := Decode(s);
      assert v / 256 == Decode(init) && v % 256 == s[|s| - 1];
      EncodeDecode(init);
      assert s == init + [s[|s| - 1]];
    }
  }

  /** Two encodings of the same width are equal only when the values are. */
  lemma EncodeInjective(v: nat, w: nat, width: nat)
    requires v < Pow256(width) && w < Pow256(width)
    ensures Encode(v, width) == Encode(w, width) <==> v == w
  {
    if Encode(v, width) == Encode(w, width) {
      DecodeEncode(v, width);
      DecodeEncode(w, width);
    }
  }
}
