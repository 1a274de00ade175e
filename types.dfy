/** Basic AES data: bytes, 4-byte words and the 4x4 state matrix. */
module AesTypes {

  /** A byte of the cipher. */
  type Byte = bv8

  /** A 4-byte word (a column of the state, or one word of the key schedule). */
  type Word = w: seq<Byte> | |w| == 4 witness [0, 0, 0, 0]

  /** A 4x4 byte matrix held as four rows: s[r][c] is the byte at row r, column c. */
  type State = s: seq<seq<Byte>> | |s| == 4 && forall r | 0 <= r < 4 :: |s[r]| == 4
    witness [[0, 0, 0, 0], [0, 0, 0, 0], [0, 0, 0, 0], [0, 0, 0, 0]]

  datatype Option<T> = None | Some(value: T)

  /** Byte-wise XOR of two words. */
  function XorWord(a: Word, b: Word): (r: Word)
    ensures forall i | 0 <= i < 4 :: r[i] == a[i] ^ b[i]
  {
    seq(4, i requires 0 <= i < 4 => a[i] ^ b[i])
  }

  /** Column c of a state, read top to bottom. */
  function Column(s: State, c: nat): (w: Word)
    requires c < 4
    ensures forall r | 0 <= r < 4 :: w[r] == s[r][c]
  {
    seq(4, r requires 0 <= r < 4 => s[r][c])
  }

  /** A state whose column c is w and whose other columns are those of s. */
  function SetColumn(s: State, c: nat, w: Word): (t: State)
    requires c < 4
    ensures forall r, j | 0 <= r < 4 && 0 <= j < 4 :: t[r][j] == if j == c then w[r] else s[r][j]
  {
    seq(4, r requires 0 <= r < 4 => s[r][c := w[r]])
  }

  /** The state a 16-byte block becomes when it is filled column by column. */
  function LoadBlock(b: seq<Byte>): (s: State)
    requires |b| == 16
    ensures forall r, c | 0 <= r < 4 && 0 <= c < 4 :: s[r][c] == b[r + 4 * c]
  {
    seq(4, r requires 0 <= r < 4 => [b[r], b[r + 4], b[r + 8], b[r + 12]])
  }

  /** The 16-byte block a state is read out as, column by column. */
  function StoreBlock(s: State): (b: seq<Byte>)
    ensures |b| == 16
    ensures forall r, c | 0 <= r < 4 && 0 <= c < 4 :: b[r + 4 * c] == s[r][c]
  {
    Column(s, 0) + Column(s, 1) + Column(s, 2) + Column(s, 3)
  }

  /** Writing a state out column by column and loading it back gives the same state. */
  lemma LoadStore(s: State)
    ensures LoadBlock(StoreBlock(s)) == s
  {
    var b := StoreBlock(s);
    forall r | 0 <= r < 4 ensures LoadBlock(b)[r] == s[r] {
      var row := LoadBlock(b)[r];
      assert row[0] == b[r] == s[r][0] && row[1] == b[r + 4] == s[r][1];
      assert row[2] == b[r + 8] == s[r][2] && row[3] == b[r + 12] == s[r][3];
    }
  }

  /** Loading 16 bytes column by column and writing them back out gives the same bytes. */
  lemma StoreLoad(b: seq<Byte>)
    requires |b| == 16
    ensures StoreBlock(LoadBlock(b)) == b
  {
    var s := LoadBlock(b);
    forall c | 0 <= c < 4 ensures Column(s, c) == b[4 * c .. 4 * c + 4] {
      var col, blk := Column(s, c), b[4 * c .. 4 * c + 4];
      assert col[0] == blk[0] && col[1] == blk[1] && col[2] == blk[2] && col[3] == blk[3];
    }
    assert b == b[0 .. 4] + b[4 .. 8] + b[8 .. 12] + b[12 .. 16];
  }
}
