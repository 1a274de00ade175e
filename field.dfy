/**
 * Arithmetic in GF(2^8) as FIPS-197 section 4.2 defines it: bytes are
 * polynomials over GF(2), addition is XOR and multiplication is reduced
 * modulo m(x) = x^8 + x^4 + x^3 + x + 1 (0x11b).
 */
module Field {
  import opened AesTypes

  /** Multiplication by x (section 4.2.1): shift left, and fold bit 8 back with 0x1b. */
  function XTime(b: Byte): Byte
  {
    if b & 0x80 == 0 then b << 1 else (b << 1) ^ 0x1b
  }

  /**
   * The product of the low n bits of a with b (section 4.2.1): bit i of a
   * contributes x^i * b, which is b after i applications of XTime, and the
   * contributions are added (XORed).
   */
  function MulBits(a: Byte, b: Byte, n: nat): Byte
    decreases n
  {
    if n == 0 then 0
    else (if a & 1 == 0 then 0 else b) ^ MulBits(a >> 1, XTime(b), n - 1)
  }

  /** The field product a * b of section 4.2. */
  function FieldMul(a: Byte, b: Byte): Byte
  {
    MulBits(a, b, 8)
  }

  lemma {:induction false} MulBitsZero(b: Byte, n: nat)
    ensures MulBits(0, b, n) == 0
    decreases n
  {
    if n > 0 {
      MulBitsZero(XTime(b), n - 1);
    }
  }

  lemma FieldMulOne(b: Byte)
    ensures FieldMul(0x01, b) == b
  {
    MulBitsZero(XTime(b), 7);
  }

  /** The three coefficients MixColumns uses: {01} is the identity, {02} is XTime, {03} is XTime plus the byte. */
  lemma FieldMulSmall(b: Byte)
    ensures FieldMul(0x01, b) == b
    ensures FieldMul(0x02, b) == XTime(b)
    ensures FieldMul(0x03, b) == XTime(b) ^ b
  {
    MulBitsZero(XTime(b), 7);
    MulBitsZero(XTime(XTime(b)), 6);
  }

  /** XOR of the first k products row[j] * v[j]. */
  function PartialDot(row: Word, v: Word, k: nat): Byte
    requires k <= 4
  {
    if k == 0 then 0 else PartialDot(row, v, k - 1) ^ FieldMul(row[k - 1], v[k - 1])
  }

  /** The GF(2^8) inner product of a matrix row with a column: XOR over k of row[k] * v[k]. */
  function Dot(row: Word, v: Word): Byte
  {
    PartialDot(row, v, 4)
  }

  lemma DotTwo(row: Word, v: Word)
    ensures PartialDot(row, v, 2) == FieldMul(row[0], v[0]) ^ FieldMul(row[1], v[1])
  {
    assert PartialDot(row, v, 1) == FieldMul(row[0], v[0]);
  }

  lemma DotThree(row: Word, v: Word)
    ensures PartialDot(row, v, 3) == FieldMul(row[0], v[0]) ^ FieldMul(row[1], v[1]) ^ FieldMul(row[2], v[2])
  {
    DotTwo(row, v);
  }

  /** The inner product written out as the four-term sum of section 5.1.3. */
  lemma DotExpanded(row: Word, v: Word)
    ensures Dot(row, v) == FieldMul(row[0], v[0]) ^ FieldMul(row[1], v[1]) ^ FieldMul(row[2], v[2]) ^ FieldMul(row[3], v[3])
  {
    DotThree(row, v);
  }
}
