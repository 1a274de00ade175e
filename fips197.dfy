/**
 * The AES-128 cipher as FIPS-197 defines it (sections 5.1 and 5.2), written
 * independently of the implementation so that the implementation can be
 * proved against it.
 */
module Fips197 {
  import opened AesTypes
  import opened Tables
  import opened Field

  /** Section 5.1.1: every byte is replaced by its S-box image. */
  function SubBytes(s: State): State
  {
    seq(4, r requires 0 <= r < 4 => seq(4, c requires 0 <= c < 4 => Sbox(s[r][c])))
  }

  /** Section 5.1.2: row r is rotated left by r positions, s'[r][c] = s[r][(c + r) mod 4]. */
  function ShiftRows(s: State): State
  {
    seq(4, r requires 0 <= r < 4 => seq(4, c requires 0 <= c < 4 => s[r][(c + r) % 4]))
  }

  /** Section 5.1.3, equation 5.6: one column multiplied by the matrix with rows {02,03,01,01} rotated. */
  function MixColumn(w: Word): Word
  {
    [FieldMul(0x02, w[0]) ^ FieldMul(0x03, w[1]) ^ w[2] ^ w[3],
     w[0] ^ FieldMul(0x02, w[1]) ^ FieldMul(0x03, w[2]) ^ w[3],
     w[0] ^ w[1] ^ FieldMul(0x02, w[2]) ^ FieldMul(0x03, w[3]),
     FieldMul(0x03, w[0]) ^ w[1] ^ w[2] ^ FieldMul(0x02, w[3])]
  }

  /** Section 5.1.3: MixColumn applied to each column. */
  function MixColumns(s: State): State
  {
    seq(4, r requires 0 <= r < 4 => seq(4, c requires 0 <= c < 4 => MixColumn(Column(s, c))[r]))
  }

  /** Section 5.1.4: the round key is XORed into the state byte by byte. */
  function AddRoundKey(s: State, k: State): State
  {
    seq(4, r requires 0 <= r < 4 => seq(4, c requires 0 <= c < 4 => s[r][c] ^ k[r][c]))
  }

  /** Section 5.2: [a0, a1, a2, a3] becomes [a1, a2, a3, a0]. */
  function RotWord(w: Word): Word
  {
    [w[1], w[2], w[3], w[0]]
  }

  /** Section 5.2: the S-box applied to each byte of a word. */
  function SubWord(w: Word): Word
  {
    seq(4, i requires 0 <= i < 4 => Sbox(w[i]))
  }

  /** The word XORed into w[i - 4] to give w[i]: w[i - 1], transformed at the start of every round. */
  function ScheduleTemp(prev: Word, i: nat): Word
    requires 4 <= i < 44
  {
    if i % 4 == 0 then XorWord(SubWord(RotWord(prev)), [Rcon[i / 4], 0, 0, 0]) else prev
  }

  /** Word i of the key: bytes 4i to 4i + 3. */
  function KeyWord(key: seq<Byte>, i: nat): Word
    requires |key| == 16 && i < 4
  {
    key[4 * i .. 4 * i + 4]
  }

  /** The first n words of the key schedule, built as the pseudo code of Figure 11 builds them. */
  function ExpandWords(key: seq<Byte>, n: nat): (w: seq<Word>)
    requires |key| == 16 && n <= 44
    ensures |w| == n
  {
    if n == 0 then []
    else
      var p := ExpandWords(key, n - 1);
      p + [if n - 1 < 4 then KeyWord(key, n - 1) else XorWord(p[n - 5], ScheduleTemp(p[n - 2], n - 1))]
  }

  /** One more step of the key schedule appends w[n - 4] XOR the transformed w[n - 1]. */
  lemma ExpandWordsNext(key: seq<Byte>, n: nat)
    requires |key| == 16 && 4 <= n < 44
    ensures ExpandWords(key, n + 1)
         == ExpandWords(key, n) + [XorWord(ExpandWords(key, n)[n - 4], ScheduleTemp(ExpandWords(key, n)[n - 1], n))]
  {
  }

  /** Section 5.2: the 44 words w[0..43] of the AES-128 key schedule. */
  function KeyExpansion(key: seq<Byte>): (w: seq<Word>)
    requires |key| == 16
    ensures |w| == 44
  {
    ExpandWords(key, 44)
  }

  /** Round key r as a state: column c is the word w[4r + c]. */
  function RoundKey(w: seq<Word>, r: nat): State
    requires |w| == 44 && r <= 10
  {
    seq(4, row requires 0 <= row < 4 => seq(4, c requires 0 <= c < 4 => w[4 * r + c][row]))
  }

  /** One of rounds 1 to 9 of Figure 5. */
  function Round(s: State, k: State): State
  {
    AddRoundKey(MixColumns(ShiftRows(SubBytes(s))), k)
  }

  /** Round 10 of Figure 5, which has no MixColumns. */
  function FinalRound(s: State, k: State): State
  {
    AddRoundKey(ShiftRows(SubBytes(s)), k)
  }

  /** Rounds 1 to n applied to s, round i with round key i. */
  function Rounds(s: State, w: seq<Word>, n: nat): State
    requires |w| == 44 && n <= 9
  {
    if n == 0 then s else Round(Rounds(s, w, n - 1), RoundKey(w, n))
  }

  /** Figure 5: the initial AddRoundKey, nine full rounds and the final round. */
  function EncryptState(s: State, w: seq<Word>): State
    requires |w| == 44
  {
    FinalRound(Rounds(AddRoundKey(s, RoundKey(w, 0)), w, 9), RoundKey(w, 10))
  }

  /** Section 5.1: a 16-byte block enciphered under a 16-byte key. */
  function Cipher(input: seq<Byte>, key: seq<Byte>): (output: seq<Byte>)
    requires |input| == 16 && |key| == 16
    ensures |output| == 16
  {
    StoreBlock(EncryptState(LoadBlock(input), KeyExpansion(key)))
  }

  // Properties of the key schedule.

  lemma {:induction false} ExpandWordsPrefix(key: seq<Byte>, m: nat, n: nat)
    requires |key| == 16 && m <= n <= 44
    ensures ExpandWords(key, n)[..m] == ExpandWords(key, m)
    decreases n
  {
    if m < n {
      var p := ExpandWords(key, n - 1);
      assert ExpandWords(key, n)[..n - 1] == p;
      ExpandWordsPrefix(key, m, n - 1);
      assert p[..m] == ExpandWords(key, n)[..m];
    }
  }

  /** The first four words of the schedule are the key itself, four bytes at a time. */
  lemma KeyExpansionHead(key: seq<Byte>, i: nat)
    requires |key| == 16 && i < 4
    ensures KeyExpansion(key)[i] == key[4 * i .. 4 * i + 4]
  {
    ExpandWordsPrefix(key, i + 1, 44);
    assert KeyExpansion(key)[i] == ExpandWords(key, i + 1)[i];
  }

  /** Every later word is w[i - 4] XOR the transformed w[i - 1]. */
  lemma KeyExpansionStep(key: seq<Byte>, i: nat)
    requires |key| == 16 && 4 <= i < 44
    ensures var w := KeyExpansion(key); w[i] == XorWord(w[i - 4], ScheduleTemp(w[i - 1], i))
  {
    var w := KeyExpansion(key);
    ExpandWordsPrefix(key, i, 44);
    ExpandWordsPrefix(key, i + 1, 44);
    var p := ExpandWords(key, i);
    assert w[i] == ExpandWords(key, i + 1)[i];
    assert p[i - 4] == w[i - 4] && p[i - 1] == w[i - 1];
  }

  /**
   * The recurrence byte by byte at the start of a round (i mod 4 = 0): byte j of
   * w[i] is byte j of w[i - 4] XOR the S-box image of byte j + 1 (mod 4) of
   * w[i - 1], and Rcon[i / 4] is XORed into byte 0 only.
   */
  lemma KeyExpansionRoundStart(key: seq<Byte>, i: nat)
    requires |key| == 16 && 4 <= i < 44 && i % 4 == 0
    ensures var w := KeyExpansion(key);
            && w[i][0] == w[i - 4][0] ^ Sbox(w[i - 1][1]) ^ Rcon[i / 4]
            && w[i][1] == w[i - 4][1] ^ Sbox(w[i - 1][2])
            && w[i][2] == w[i - 4][2] ^ Sbox(w[i - 1][3])
            && w[i][3] == w[i - 4][3] ^ Sbox(w[i - 1][0])
  {
    RoundStartByte0(key, i);
    RoundStartByte1(key, i);
    RoundStartByte2(key, i);
    RoundStartByte3(key, i);
  }

  /** Byte 0 of a round-start word: byte 0 of w[i - 4] XOR the round constant and the S-box image of byte 1 of w[i - 1]. */
  lemma RoundStartByte0(key: seq<Byte>, i: nat)
    requires |key| == 16 && 4 <= i < 44 && i % 4 == 0
    ensures var w := KeyExpansion(key); w[i][0] == w[i - 4][0] ^ Sbox(w[i - 1][1]) ^ Rcon[i / 4]
  {
    KeyExpansionStep(key, i);
  }

  /** Byte 1 of a round-start word: byte 1 of w[i - 4] XOR the S-box image of byte 2 of w[i - 1]. */
  lemma RoundStartByte1(key: seq<Byte>, i: nat)
    requires |key| == 16 && 4 <= i < 44 && i % 4 == 0
    ensures var w := KeyExpansion(key); w[i][1] == w[i - 4][1] ^ Sbox(w[i - 1][2])
  {
    KeyExpansionStep(key, i);
  }

  /** Byte 2 of a round-start word: byte 2 of w[i - 4] XOR the S-box image of byte 3 of w[i - 1]. */
  lemma RoundStartByte2(key: seq<Byte>, i: nat)
    requires |key| == 16 && 4 <= i < 44 && i % 4 == 0
    ensures var w := KeyExpansion(key); w[i][2] == w[i - 4][2] ^ Sbox(w[i - 1][3])
  {
    KeyExpansionStep(key, i);
  }

  /** Byte 3 of a round-start word: byte 3 of w[i - 4] XOR the S-box image of byte 0 of w[i - 1]. */
  lemma RoundStartByte3(key: seq<Byte>, i: nat)
    requires |key| == 16 && 4 <= i < 44 && i % 4 == 0
    ensures var w := KeyExpansion(key); w[i][3] == w[i - 4][3] ^ Sbox(w[i - 1][0])
  {
    KeyExpansionStep(key, i);
  }

  /** Inside a round (i mod 4 != 0) every byte of w[i] is the XOR of the same byte of w[i - 4] and w[i - 1]. */
  lemma KeyExpansionInner(key: seq<Byte>, i: nat, j: nat)
    requires |key| == 16 && 4 <= i < 44 && i % 4 != 0 && j < 4
    ensures var w := KeyExpansion(key); w[i][j] == w[i - 4][j] ^ w[i - 1][j]
  {
    KeyExpansionStep(key, i);
  }

  /** Round key 0 is the key laid out column by column. */
  lemma RoundKeyZero(key: seq<Byte>)
    requires |key| == 16
    ensures RoundKey(KeyExpansion(key), 0) == LoadBlock(key)
  {
    var k := RoundKey(KeyExpansion(key), 0);
    forall c | 0 <= c < 4 ensures forall r | 0 <= r < 4 :: k[r][c] == key[r + 4 * c] {
      KeyExpansionHead(key, c);
    }
    SameEntries(k, LoadBlock(key));
  }

  /** Two states with equal bytes everywhere are equal. */
  lemma SameEntries(a: State, b: State)
    requires forall r, c | 0 <= r < 4 && 0 <= c < 4 :: a[r][c] == b[r][c]
    ensures a == b
  {
    forall r | 0 <= r < 4 ensures a[r] == b[r] {
      assert a[r][0] == b[r][0] && a[r][1] == b[r][1] && a[r][2] == b[r][2] && a[r][3] == b[r][3];
    }
  }

  // Properties of the round transformations.

  /** Row r of ShiftRows(s) is row r of s rotated left by r: its tail from r, then its head. */
  lemma ShiftRowsRow(s: State, r: nat)
    requires r < 4
    ensures ShiftRows(s)[r] == s[r][r..] + s[r][..r]
  {
    var t := s[r][r..] + s[r][..r];
    forall c | 0 <= c < 4 ensures ShiftRows(s)[r][c] == t[c] {
      if c + r < 4 { assert t[c] == s[r][r..][c]; } else { assert t[c] == s[r][..r][c + r - 4]; }
    }
  }

  /** ShiftRows leaves row 0 as it is and only permutes the bytes within each row. */
  lemma ShiftRowsPermutesRows(s: State, r: nat)
    requires r < 4
    ensures ShiftRows(s)[0] == s[0]
    ensures multiset(ShiftRows(s)[r]) == multiset(s[r])
  {
    ShiftRowsRow(s, 0);
    ShiftRowsRow(s, r);
    assert s[r] == s[r][..r] + s[r][r..];
  }

  /** Column c of MixColumns(s) is MixColumn of column c of s. */
  lemma MixColumnsColumn(s: State, c: nat)
    requires c < 4
    ensures Column(MixColumns(s), c) == MixColumn(Column(s, c))
  {
  }

  /** Column c of the MixColumns output depends on column c of the input and nothing else. */
  lemma MixColumnsColumnwise(s: State, t: State, c: nat)
    requires c < 4 && Column(s, c) == Column(t, c)
    ensures Column(MixColumns(s), c) == Column(MixColumns(t), c)
  {
    MixColumnsColumn(s, c);
    MixColumnsColumn(t, c);
  }

  /** Row r of the gal table times a column is row r of equation 5.6. */
  lemma GalRow(r: nat, w: Word)
    requires r < 4
    ensures Dot(Gal[r], w) == MixColumn(w)[r]
  {
    if r == 0 { GalRow0(w); } else if r == 1 { GalRow1(w); } else if r == 2 { GalRow2(w); } else { GalRow3(w); }
  }

  lemma GalRow0(w: Word)
    ensures Dot(Gal[0], w) == MixColumn(w)[0]
  {
    assert Gal[0] == [0x02, 0x03, 0x01, 0x01];
    DotExpanded(Gal[0], w);
    FieldMulOne(w[2]);
    FieldMulOne(w[3]);
  }

  lemma GalRow1(w: Word)
    ensures Dot(Gal[1], w) == MixColumn(w)[1]
  {
    assert Gal[1] == [0x01, 0x02, 0x03, 0x01];
    DotExpanded(Gal[1], w);
    FieldMulOne(w[0]);
    FieldMulOne(w[3]);
  }

  lemma GalRow2(w: Word)
    ensures Dot(Gal[2], w) == MixColumn(w)[2]
  {
    assert Gal[2] == [0x01, 0x01, 0x02, 0x03];
    DotExpanded(Gal[2], w);
    FieldMulOne(w[0]);
    FieldMulOne(w[1]);
  }

  lemma GalRow3(w: Word)
    ensures Dot(Gal[3], w) == MixColumn(w)[3]
  {
    assert Gal[3] == [0x03, 0x01, 0x01, 0x02];
    DotExpanded(Gal[3], w);
    FieldMulOne(w[1]);
    FieldMulOne(w[2]);
  }
}
