/**
 * The encryption path of encrypt.py: the key schedule, the four round
 * transformations, the GF(2^8) helpers and main, each written the way the
 * code computes it and proved against the definitions in Fips197.
 */
module Encrypt {
  import opened AesTypes
  import opened Tables
  import opened Field
  import Fips197

  const Zero: State := [[0, 0, 0, 0], [0, 0, 0, 0], [0, 0, 0, 0], [0, 0, 0, 0]]

  /** Python's w[j] for -4 <= j < 4: a negative index counts from the end. */
  function PyIndex(w: Word, j: int): Byte
    requires -4 <= j < 4
  {
    if j < 0 then w[4 + j] else w[j]
  }

  /** numpy's m.T. */
  function Transpose(m: State): (t: State)
    ensures forall r, c | 0 <= r < 4 && 0 <= c < 4 :: t[r][c] == m[c][r]
  {
    seq(4, r requires 0 <= r < 4 => seq(4, c requires 0 <= c < 4 => m[c][r]))
  }

  /** numpy's reshape(4, 4) of 16 bytes: filled row by row. */
  function Reshape(b: seq<Byte>): (m: State)
    requires |b| == 16
    ensures forall r, c | 0 <= r < 4 && 0 <= c < 4 :: m[r][c] == b[4 * r + c]
  {
    seq(4, r requires 0 <= r < 4 => b[4 * r .. 4 * r + 4])
  }

  /** numpy's reshape(-1) of a 4x4 matrix: read row by row. */
  function Flatten(m: State): (b: seq<Byte>)
    ensures |b| == 16
    ensures forall r, c | 0 <= r < 4 && 0 <= c < 4 :: b[4 * r + c] == m[r][c]
  {
    m[0] + m[1] + m[2] + m[3]
  }

  /** RotWord: the list [word[i - 3] for i in range(4)], a rotation left by one byte. */
  function RotWord(word: Word): (r: Word)
    ensures r == [word[1], word[2], word[3], word[0]]
    ensures r == Fips197.RotWord(word)
  {
    seq(4, i requires 0 <= i < 4 => PyIndex(word, i - 3))
  }

  /** SubWord: every byte of the word through the S-box, independently of the others. */
  function SubWord(word: Word): (r: Word)
    ensures forall i | 0 <= i < 4 :: r[i] == Sbox(word[i])
    ensures r == Fips197.SubWord(word)
  {
    seq(4, i requires 0 <= i < 4 => Sbox(word[i]))
  }

  /**
   * make_extkey: the 44 words, first the key's columns and then the
   * recurrence, cut into 11 matrices of four words each and transposed, so
   * that column c of round key r is word 4r + c.
   */
  method MakeExtKey(key: State) returns (extKeys: seq<State>)
    ensures |extKeys| == 11
    ensures forall r | 0 <= r < 11 :: extKeys[r] == Fips197.RoundKey(Fips197.KeyExpansion(StoreBlock(key)), r)
    ensures forall r, c | 0 <= r < 11 && 0 <= c < 4 :: Column(extKeys[r], c) == Fips197.KeyExpansion(StoreBlock(key))[4 * r + c]
    ensures extKeys[0] == key
  {
    ghost var kb := StoreBlock(key);
    var w: seq<Word> := [];
    for i := 0 to 4
      invariant w == Fips197.ExpandWords(kb, i)
    {
      ColumnIsKeyWord(key, i);
      w := w + [Column(key, i)];
    }
    for i := 4 to 44
      invariant w == Fips197.ExpandWords(kb, i)
    {
      var temp := w[i - 1];
      if i % 4 == 0 {
        temp := RotWord(temp);
        temp := SubWord(temp);
        var tRcon := Rcon[i / 4];
        RconIntoFirstByte(temp, tRcon);
        temp := temp[0 := temp[0] ^ tRcon];
      }
      assert temp == Fips197.ScheduleTemp(w[i - 1], i);
      var tWi4 := w[i - 4];
      var wi := XorWord(tWi4, temp);
      Fips197.ExpandWordsNext(kb, i);
      w := w + [wi];
    }
    assert w == Fips197.KeyExpansion(kb);
    extKeys := seq(11, r requires 0 <= r < 11 => Transpose(w[4 * r .. 4 * r + 4]));
    TransposedRoundKeys(w);
    RoundKeyColumns(w);
    Fips197.RoundKeyZero(kb);
    LoadStore(key);
  }

  /** key[:, i], the i-th column of the key matrix, is word i of the key read column by column. */
  lemma ColumnIsKeyWord(key: State, i: nat)
    requires i < 4
    ensures Column(key, i) == Fips197.KeyWord(StoreBlock(key), i)
  {
    var kw := Fips197.KeyWord(StoreBlock(key), i);
    assert kw[0] == key[0][i] && kw[1] == key[1][i] && kw[2] == key[2][i] && kw[3] == key[3][i];
  }

  /** temp[0] ^= Rcon[i / 4] is XOR with the word [Rcon[i / 4], 0, 0, 0]. */
  lemma RconIntoFirstByte(t: Word, c: Byte)
    ensures t[0 := t[0] ^ c] == XorWord(t, [c, 0, 0, 0])
  {
    var x := XorWord(t, [c, 0, 0, 0]);
    assert x[0] == t[0] ^ c && x[1] == t[1] && x[2] == t[2] && x[3] == t[3];
  }

  /** Column c of round key r is word 4r + c. */
  lemma RoundKeyColumns(w: seq<Word>)
    requires |w| == 44
    ensures forall r, c | 0 <= r < 11 && 0 <= c < 4 :: Column(Fips197.RoundKey(w, r), c) == w[4 * r + c]
  {
    forall r, c | 0 <= r < 11 && 0 <= c < 4 ensures Column(Fips197.RoundKey(w, r), c) == w[4 * r + c] {
      var col := Column(Fips197.RoundKey(w, r), c);
      assert col[0] == w[4 * r + c][0] && col[1] == w[4 * r + c][1] && col[2] == w[4 * r + c][2] && col[3] == w[4 * r + c][3];
    }
  }

  /** Cutting the 44 words into groups of four and transposing each gives the round keys. */
  lemma TransposedRoundKeys(w: seq<Word>)
    requires |w| == 44
    ensures forall r | 0 <= r < 11 :: Transpose(w[4 * r .. 4 * r + 4]) == Fips197.RoundKey(w, r)
  {
    forall r | 0 <= r < 11 ensures Transpose(w[4 * r .. 4 * r + 4]) == Fips197.RoundKey(w, r) {
      Fips197.SameEntries(Transpose(w[4 * r .. 4 * r + 4]), Fips197.RoundKey(w, r));
    }
  }

  /** AddRoundKey: state ^ key, the byte-wise XOR of two matrices. */
  function AddRoundKey(state: State, key: State): (r: State)
    ensures forall i, j | 0 <= i < 4 && 0 <= j < 4 :: r[i][j] == state[i][j] ^ key[i][j]
    ensures r == Fips197.AddRoundKey(state, key)
  {
    seq(4, i requires 0 <= i < 4 => seq(4, j requires 0 <= j < 4 => state[i][j] ^ key[i][j]))
  }

  /** Adding the same round key twice gives back the state. */
  lemma AddRoundKeyTwice(state: State, key: State)
    ensures AddRoundKey(AddRoundKey(state, key), key) == state
  {
    Fips197.SameEntries(AddRoundKey(AddRoundKey(state, key), key), state);
  }

  /** SubBytes: the 16 bytes, flattened row by row, each replaced by its S-box image. */
  method SubBytes(state: State) returns (r: State)
    ensures forall i, j | 0 <= i < 4 && 0 <= j < 4 :: r[i][j] == Sbox(state[i][j])
    ensures r == Fips197.SubBytes(state)
  {
    var flat := Flatten(state);
    var newState := new Byte[16];
    for i := 0 to 16
      invariant forall j | 0 <= j < i :: newState[j] == Sbox(flat[j])
    {
      newState[i] := Sbox(flat[i]);
    }
    r := Reshape(newState[..]);
    Fips197.SameEntries(r, Fips197.SubBytes(state));
  }

  /**
   * ShiftRows: row 0 copied, and for i >= 1 the last i places of row i take
   * its first i bytes and the first 4 - i places take the rest.
   */
  method ShiftRows(state: State) returns (r: State)
    ensures forall i, j | 0 <= i < 4 && 0 <= j < 4 :: r[i][j] == state[i][(j + i) % 4]
    ensures r == Fips197.ShiftRows(state)
  {
    var newState := Zero;
    newState := newState[0 := state[0]];
    for i := 1 to 4
      invariant newState[0] == state[0]
      invariant forall k | 1 <= k < i :: newState[k] == state[k][k..] + state[k][..k]
    {
      var row := newState[i][..4 - i] + state[i][..i];
      row := state[i][i..] + row[4 - i..];
      newState := newState[i := row];
    }
    r := newState;
    forall k | 0 <= k < 4 ensures r[k] == Fips197.ShiftRows(state)[k] {
      Fips197.ShiftRowsRow(state, k);
    }
    assert r == Fips197.ShiftRows(state);
  }

  /** The multipliers gmult handles. */
  predicate Multiplier(a: Byte)
  {
    1 <= a && a <= 3
  }

  /** The guard of the assert in gmult, as written. */
  predicate AssertGuard(a: Byte)
  {
    1 <= a || a <= 3
  }

  /** The assert in gmult lets every byte through, among them 0, which gmult cannot multiply by. */
  lemma AssertGuardVacuous(a: Byte)
    ensures AssertGuard(a)
    ensures AssertGuard(0) && !Multiplier(0)
  {
  }

  /**
   * gmult: {01} * b is b; {02} * b is b shifted left and reduced by 0x11b
   * when bit 8 is set; {03} * b adds b to that. Any other multiplier leaves
   * c unbound and Python raises (None here).
   */
  method GMult(a: Byte, b: Byte) returns (c: Option<Byte>)
    ensures c.Some? <==> Multiplier(a)
    ensures c.Some? ==> c.value == FieldMul(a, b)
    ensures a == 0x01 ==> c == Some(b)
    ensures a == 0x02 ==> c == Some(XTime(b))
    ensures a == 0x03 ==> c == Some(XTime(b) ^ b)
  {
    if a == 1 {
      c := Some(b);
      FieldMulOne(b);
    } else if a == 2 || a == 3 {
      var d: bv16 := (b as bv16) << 1;
      if d & 0x100 != 0 {
        d := d ^ 0x11b;
      }
      assert d as bv8 == XTime(b) && d < 0x100;
      if a == 3 {
        d := d ^ (b as bv16);
      }
      c := Some(d as bv8);
      FieldMulSmall(b);
    } else {
      c := None;
    }
  }

  /**
   * xor_dot: the GF(2^8) product of a 4x4 matrix with a column, r[i] the XOR
   * over k of gmult(A[i][k], B[k]); it fails as soon as gmult does.
   */
  method XorDot(A: State, B: Word) returns (r: Option<Word>)
    ensures r.Some? <==> forall i, k | 0 <= i < 4 && 0 <= k < 4 :: Multiplier(A[i][k])
    ensures r.Some? ==> forall i | 0 <= i < 4 :: r.value[i] == Dot(A[i], B)
  {
    var acc: Word := [0, 0, 0, 0];
    for i := 0 to 4
      invariant forall i', k | 0 <= i' < i && 0 <= k < 4 :: Multiplier(A[i'][k])
      invariant forall i' | 0 <= i' < i :: acc[i'] == Dot(A[i'], B)
      invariant forall i' | i <= i' < 4 :: acc[i'] == 0
    {
      for k := 0 to 4
        invariant forall k' | 0 <= k' < k :: Multiplier(A[i][k'])
        invariant acc[i] == PartialDot(A[i], B, k)
        invariant forall i' | 0 <= i' < i :: acc[i'] == Dot(A[i'], B)
        invariant forall i' | i < i' < 4 :: acc[i'] == 0
      {
        var g := GMult(A[i][k], B[k]);
        if g.None? {
          return None;
        }
        acc := acc[i := acc[i] ^ g.value];
      }
    }
    r := Some(acc);
  }

  /** Every coefficient of the gal table is a multiplier gmult handles. */
  lemma GalMultipliers()
    ensures forall i, k | 0 <= i < 4 && 0 <= k < 4 :: Multiplier(Gal[i][k])
  {
  }

  /** MixColumns: column i of the result is xor_dot(gal, column i of the state). */
  method MixColumns(state: State) returns (r: State)
    ensures forall c | 0 <= c < 4 :: Column(r, c) == Fips197.MixColumn(Column(state, c))
    ensures r == Fips197.MixColumns(state)
  {
    var newState := Zero;
    GalMultipliers();
    for i := 0 to 4
      invariant forall c | 0 <= c < i :: Column(newState, c) == Fips197.MixColumn(Column(state, c))
    {
      var col := XorDot(Gal, Column(state, i));
      var mixed := col.value;
      forall row | 0 <= row < 4 ensures mixed[row] == Fips197.MixColumn(Column(state, i))[row] {
        Fips197.GalRow(row, Column(state, i));
      }
      assert mixed == Fips197.MixColumn(Column(state, i));
      newState := SetColumn(newState, i, mixed);
    }
    r := newState;
    forall c | 0 <= c < 4 ensures Column(r, c) == Column(Fips197.MixColumns(state), c) {
      Fips197.MixColumnsColumn(state, c);
    }
    Fips197.SameEntries(r, Fips197.MixColumns(state));
  }

  /** The state and key matrices of main: the 16 bytes laid out column by column. */
  lemma LoadsColumnMajor(b: seq<Byte>)
    requires |b| == 16
    ensures Transpose(Reshape(b)) == LoadBlock(b)
  {
    Fips197.SameEntries(Transpose(Reshape(b)), LoadBlock(b));
  }

  /**
   * main: load plaintext and key column by column, expand the key, then
   * AddRoundKey, nine rounds of SubBytes, ShiftRows, MixColumns and
   * AddRoundKey, and a last round without MixColumns. Inputs that are not
   * 16 bytes long make the reshape fail (None).
   */
  method EncryptBlock(pText: seq<Byte>, oKey: seq<Byte>) returns (r: Option<State>)
    ensures r.Some? <==> |pText| == 16 && |oKey| == 16
    ensures r.Some? ==> StoreBlock(r.value) == Fips197.Cipher(pText, oKey)
  {
    if |pText| != 16 || |oKey| != 16 {
      return None;
    }
    var state := Transpose(Reshape(pText));
    var key := Transpose(Reshape(oKey));
    LoadsColumnMajor(pText);
    LoadsColumnMajor(oKey);
    StoreLoad(oKey);
    var extKey := MakeExtKey(key);
    ghost var w := Fips197.KeyExpansion(oKey);
    state := AddRoundKey(state, extKey[0]);
    ghost var start := state;
    for i := 1 to 10
      invariant state == Fips197.Rounds(start, w, i - 1)
    {
      state := SubBytes(state);
      state := ShiftRows(state);
      state := MixColumns(state);
      state := AddRoundKey(state, extKey[i]);
    }
    state := SubBytes(state);
    state := ShiftRows(state);
    state := AddRoundKey(state, extKey[10]);
    r := Some(state);
  }
}
