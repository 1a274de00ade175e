# AES-128 block encryption of encrypt.py, modelled in Dafny

`encrypt.py` enciphers one 16-byte block with AES-128.

- `main` loads the plaintext and the key column by column into 4x4 byte matrices.
- `make_extkey` expands the key into 44 words, which it then cuts into 11 round-key matrices.
- The state gets an initial `AddRoundKey`.
- Nine rounds follow, each doing `SubBytes`, `ShiftRows`, `MixColumns` and `AddRoundKey`.
- A last round does the same without `MixColumns`.
- `MixColumns` multiplies every column by the `gal` matrix using `xor_dot`, a GF(2^8) matrix–vector product.
- `xor_dot` does its multiplications with `gmult`, which handles only the multipliers 1, 2 and 3.

The project has six modules:

- `AesTypes` (types.dfy): bytes (`bv8`), 4-byte words, and the 4x4 state as a sequence of four rows. It also has the column-major load and store of a block, and their round trips.
- `Tables` (tables.dfy): the three tables that `encrypt.py` imports from `tables.py`, taken from FIPS-197.
  - `sbox_table` is the S-box of FIPS-197 Figure 7.
  - `Rcon` is the round-constant list of FIPS-197 section 5.2. Index 0 is a placeholder.
  - `gal` is the MixColumns matrix of FIPS-197 equation 5.6.
- `Field` (field.dfy): GF(2^8) multiplication as defined in section 4.2 of FIPS-197 (shift-and-add over `xtime`), and the inner product of a row with a column.
- `Fips197` (fips197.dfy): an independent reference statement of the cipher, following sections 5.1 and 5.2 of FIPS-197. It also has lemmas about the key schedule and the round transformations.
- `Encrypt` (encrypt.py's own functions): each function written as the code works.
  - `make_extkey`, `SubBytes`, `ShiftRows`, `gmult`, `xor_dot`, `MixColumns` and `main` are methods with the source's loops, branches and buffers.
  - `RotWord`, `SubWord` and `AddRoundKey` are functions.
  - Each of them is proved equal to its `Fips197` or `Field` counterpart: `GMult` to `Field.FieldMul`, `XorDot` to `Field.Dot`, and the others to the `Fips197` definitions.
  - `Encrypt.SubWord` and `Encrypt.AddRoundKey` are single comprehensions. Their bodies coincide with `Fips197.SubWord` and `Fips197.AddRoundKey`, so their equality with those holds by definition. The byte-wise ensures clauses carry what they promise.
- `AppendixB`: the worked example of Appendix B of FIPS-197. Every round key and every intermediate state is a constant, and the reference cipher is proved to produce the published ciphertext `3925841d02dc09fbdc118597196a0b32` on the example's plaintext and key. Together with `Encrypt.EncryptBlock`'s contract, `main`'s result on the inputs at encrypt.py:174-175 is proved to be the published ciphertext.

## Model

| member | source | states |
|---|---|---|
| `Encrypt.RotWord` | encrypt.py:19-21 | `[word[i-3] for i in range(4)]` is `[w1, w2, w3, w0]`, the one-byte left rotation of FIPS-197 section 5.2 |
| `Encrypt.SubWord` | encrypt.py:23-24 | every byte of the result is the S-box image of the same byte of the word, and nothing else; this equals the SubWord of FIPS-197 section 5.2 |
| `Encrypt.MakeExtKey` | encrypt.py:26-60 | returns 11 matrices; matrix r is round key r of the FIPS-197 key expansion of the key read column-major; column c of matrix r is schedule word 4r + c; matrix 0 is the key matrix itself |
| `Fips197.KeyExpansionHead` | encrypt.py:30-31 | the first four schedule words are the key's columns (bytes 4i to 4i + 3 of the key block) |
| `Fips197.KeyExpansionStep` | encrypt.py:33-53 | every later word w[i] is w[i-4] XOR the word taken from w[i-1], transformed when i mod 4 = 0 |
| `Fips197.KeyExpansionRoundStart` | encrypt.py:38-50 | when i mod 4 = 0, byte j of w[i] is byte j of w[i-4] XOR Sbox(byte j+1 mod 4 of w[i-1]); Rcon[i/4] is XORed into byte 0 only |
| `Fips197.KeyExpansionInner` | encrypt.py:47-50 | when i mod 4 != 0, every byte of w[i] is the XOR of the same byte of w[i-4] and w[i-1] |
| `Fips197.ExpandWordsNext` | encrypt.py:47-53 | one pass of the loop body appends exactly one word, w[i-4] XOR temp, to the words built so far |
| `Fips197.ExpandWordsPrefix` | encrypt.py:33-53 | building more words never changes the words already built |
| `Fips197.RoundKeyZero` | encrypt.py:29-31 | round key 0 is the key block laid out column by column |
| `Encrypt.RoundKeyColumns` | encrypt.py:55-57 | after reshape(11, 4, 4) and the transposes, column c of round key r is word 4r + c |
| `Encrypt.TransposedRoundKeys` | encrypt.py:56-57 | transposing each group of four consecutive words gives the round-key matrix of FIPS-197 |
| `Encrypt.AddRoundKey` | encrypt.py:63-66 | every byte of the result is the XOR of the state and key bytes at the same position (FIPS-197 section 5.1.4) |
| `Encrypt.AddRoundKeyTwice` | encrypt.py:63-66 | adding the same round key twice gives back the original state |
| `Encrypt.SubBytes` | encrypt.py:68-76 | fills the 16-byte buffer so that the result at (i, j) is Sbox(state[i][j]), still a 4x4 matrix, equal to FIPS-197 section 5.1.1 |
| `Encrypt.ShiftRows` | encrypt.py:78-86 | new[i][j] = state[i][(j + i) mod 4], equal to FIPS-197 section 5.1.2 |
| `Fips197.ShiftRowsRow` | encrypt.py:82-84 | row r of the result is the row's tail from position r followed by its head, which is what the two slice assignments write |
| `Fips197.ShiftRowsPermutesRows` | encrypt.py:81-84 | row 0 is unchanged, and every row of the output has the same multiset of bytes as that row of the input |
| `Encrypt.AssertGuardVacuous` | encrypt.py:93 | the assert's guard `1 <= a or a <= 3` holds for every byte, including 0, which is not a multiplier gmult handles |
| `Encrypt.GMult` | encrypt.py:88-103 | a result exists exactly for a in {1, 2, 3}, and it is then the GF(2^8) product a * b; gmult(1, b) = b, gmult(2, b) = xtime(b) (below 256 after reduction by 0x11b), and gmult(3, b) = xtime(b) XOR b |
| `Field.FieldMulSmall` | encrypt.py:94-101 | multiplying by {01}, {02} and {03} in the sense of FIPS-197 section 4.2 is the identity, xtime, and xtime plus the byte |
| `Field.DotExpanded` | encrypt.py:125-126 | the XOR accumulation over k is the four-term sum of products of FIPS-197 section 5.1.3 |
| `Encrypt.XorDot` | encrypt.py:105-131 | a result exists exactly when every entry of A is a multiplier gmult handles, and entry i is then the XOR over k of A[i][k] * B[k] |
| `Encrypt.GalMultipliers` | encrypt.py:137 | every coefficient of `gal` is 1, 2 or 3, so `xor_dot(gal, ...)` never fails |
| `Fips197.GalRow` | encrypt.py:137 | row r of `gal` times a column is row r of FIPS-197 equation 5.6 |
| `Encrypt.MixColumns` | encrypt.py:133-139 | column c of the result is FIPS-197 equation 5.6 applied to column c of the state, equal to FIPS-197 section 5.1.3 |
| `Fips197.MixColumnsColumnwise` | encrypt.py:136-137 | output column c depends only on input column c |
| `Encrypt.LoadsColumnMajor` | encrypt.py:145-147 | `reshape(4, 4).T` of 16 bytes puts byte r + 4c at row r, column c |
| `AesTypes.LoadStore` | encrypt.py:145-147 | the column-major load of lines 145-147 is undone by `StoreBlock`: reading a state out column by column and loading it back gives the same state. `StoreBlock` is the model's convention for the output; the source prints the 4x4 matrix at line 169 instead |
| `AesTypes.StoreLoad` | encrypt.py:145-147 | loading 16 bytes column by column, as lines 145-147 do, and reading them back out with `StoreBlock` (the model's output convention) gives the same bytes |
| `Encrypt.EncryptBlock` | encrypt.py:141-169 | a result exists exactly for a 16-byte plaintext and a 16-byte key; the final state, read out column by column, is the FIPS-197 cipher of the plaintext under the key (initial AddRoundKey, nine full rounds, and a last round without MixColumns) |
| `AppendixB.CipherVector` | encrypt.py:174-176 | the reference cipher maps the Appendix B plaintext and key to the ciphertext 3925841d02dc09fbdc118597196a0b32 |
| `AppendixB.EncryptVector` | encrypt.py:174-176 | `main` on the inputs at lines 174-175 ends in a state whose column-major bytes are the Appendix B ciphertext |

## Left out

- The debug tracing is not modelled: the `DEBUG_PRINT_*` flags, `print_rkey`, `print_enc`, every `print` call, and `np.set_printoptions`. It only writes to the console.
- The final `print` of the state in `main` is left out. `Encrypt.EncryptBlock` returns the state instead (`None` when the inputs cannot be reshaped to 4x4).
- The `__main__` driver and its commented-out tests are not modelled. The driver's vector appears as `AppendixB.EncryptVector`.
- `tables.py` is not part of this model. Its three tables are transcribed from FIPS-197 in `Tables`, with `Rcon[0]` as an unused placeholder.
- The shape handling in `xor_dot` is left out: the reshapes of a one-dimensional `B` or a one-column result, and the shape assert. `Encrypt.XorDot` always multiplies a 4x4 matrix by a 4-byte column.
- Values are modelled as bytes (`bv8`), not numpy or Python integers. `main`'s inputs are taken to be lists of bytes; lists holding integers outside 0..255 are not modelled. The only value the code computes that is not a byte is gmult's nine-bit `b << 1` (encrypt.py:97). `GMult` keeps it in a `bv16`, and its proof checks that the value is below 256 after the reduction by 0x11b.
- `np.int` at encrypt.py:122 is read as the builtin `int`, as in numpy before 1.24. From numpy 1.24 on, that alias is gone, and line 122 raises AttributeError on every `xor_dot` call, so `main` would fail at its first `MixColumns`. That AttributeError is not modelled; `Encrypt.XorDot` and `Encrypt.EncryptBlock` describe the code under numpy versions that still have `np.int`.
- A Python exception is modelled as `None`. This covers `gmult`'s unbound `c` for other multipliers, and `reshape` failing on inputs that are not 16 bytes long. The exception's type and message are not modelled.
- Matrices are modelled as immutable values. `SubBytes` keeps its buffer as an array. Elsewhere, in-place slice and element updates (`temp[0] ^= ...`, `new_state[i, -i:] = ...`, `new_state[:, i] = ...`) are modelled as building an updated value. numpy aliasing is not modelled: `temp = w[i-1]` followed by `temp[0] = ...` cannot reach `w` in the code, because the update happens only after `SubWord` has built a new array.
- Decryption and the inverse transformations are not modelled, because the code has none.
- `Encrypt.GMult` follows the code, not FIPS-197's general multiplication: it is defined for the multipliers 1, 2 and 3 only. For those it is proved equal to the general product `Field.FieldMul`.

## Findings

| source | as written | input that shows it | evidently intended | confidence | as-written member | corrected member |
|---|---|---|---|---|---|---|
| encrypt.py:93 | `assert (1<=a) or (a<=3)` holds for every a, so it never rejects a multiplier gmult cannot handle | a = 0: the assert passes, no branch binds `c`, and `return c` raises UnboundLocalError | `assert 1 <= a and a <= 3`, so that only the multipliers 1, 2 and 3 get past it | not executed | `Encrypt.AssertGuardVacuous` | `Encrypt.GMult` |
