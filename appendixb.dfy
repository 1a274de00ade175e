/**
 * The worked example of Appendix B of FIPS-197: the plaintext
 * 3243f6a8885a308d313198a2e0370734 under the key 2b7e151628aed2a6abf7158809cf4f3c
 * enciphers to 3925841d02dc09fbdc118597196a0b32. Every key-schedule word and
 * every intermediate state of the appendix's table is a constant here, and
 * each step from one to the next is a lemma about the reference cipher.
 */
module AppendixB {
  import opened AesTypes
  import opened Tables
  import opened Field
  import Fips197
  import Encrypt

  /** The plaintext of the appendix, byte by byte. */
  predicate IsPlain(p: seq<Byte>)
  {
    |p| == 16
    && p[0] == 0x32 && p[1] == 0x43 && p[2] == 0xf6 && p[3] == 0xa8
    && p[4] == 0x88 && p[5] == 0x5a && p[6] == 0x30 && p[7] == 0x8d
    && p[8] == 0x31 && p[9] == 0x31 && p[10] == 0x98 && p[11] == 0xa2
    && p[12] == 0xe0 && p[13] == 0x37 && p[14] == 0x07 && p[15] == 0x34
  }

  /** The cipher key of the appendix, byte by byte. */
  predicate IsKey(k: seq<Byte>)
  {
    |k| == 16
    && k[0] == 0x2b && k[1] == 0x7e && k[2] == 0x15 && k[3] == 0x16
    && k[4] == 0x28 && k[5] == 0xae && k[6] == 0xd2 && k[7] == 0xa6
    && k[8] == 0xab && k[9] == 0xf7 && k[10] == 0x15 && k[11] == 0x88
    && k[12] == 0x09 && k[13] == 0xcf && k[14] == 0x4f && k[15] == 0x3c
  }

  const Expected: seq<Byte> := [0x39, 0x25, 0x84, 0x1d, 0x02, 0xdc, 0x09, 0xfb, 0xdc, 0x11, 0x85, 0x97, 0x19, 0x6a, 0x0b, 0x32]

  /** The round keys of the appendix, round key r as a state. */
  const K0: State := [[0x2b, 0x28, 0xab, 0x09], [0x7e, 0xae, 0xf7, 0xcf], [0x15, 0xd2, 0x15, 0x4f], [0x16, 0xa6, 0x88, 0x3c]]
  const K1: State := [[0xa0, 0x88, 0x23, 0x2a], [0xfa, 0x54, 0xa3, 0x6c], [0xfe, 0x2c, 0x39, 0x76], [0x17, 0xb1, 0x39, 0x05]]
  const K2: State := [[0xf2, 0x7a, 0x59, 0x73], [0xc2, 0x96, 0x35, 0x59], [0x95, 0xb9, 0x80, 0xf6], [0xf2, 0x43, 0x7a, 0x7f]]
  const K3: State := [[0x3d, 0x47, 0x1e, 0x6d], [0x80, 0x16, 0x23, 0x7a], [0x47, 0xfe, 0x7e, 0x88], [0x7d, 0x3e, 0x44, 0x3b]]
  const K4: State := [[0xef, 0xa8, 0xb6, 0xdb], [0x44, 0x52, 0x71, 0x0b], [0xa5, 0x5b, 0x25, 0xad], [0x41, 0x7f, 0x3b, 0x00]]
  const K5: State := [[0xd4, 0x7c, 0xca, 0x11], [0xd1, 0x83, 0xf2, 0xf9], [0xc6, 0x9d, 0xb8, 0x15], [0xf8, 0x87, 0xbc, 0xbc]]
  const K6: State := [[0x6d, 0x11, 0xdb, 0xca], [0x88, 0x0b, 0xf9, 0x00], [0xa3, 0x3e, 0x86, 0x93], [0x7a, 0xfd, 0x41, 0xfd]]
  const K7: State := [[0x4e, 0x5f, 0x84, 0x4e], [0x54, 0x5f, 0xa6, 0xa6], [0xf7, 0xc9, 0x4f, 0xdc], [0x0e, 0xf3, 0xb2, 0x4f]]
  const K8: State := [[0xea, 0xb5, 0x31, 0x7f], [0xd2, 0x8d, 0x2b, 0x8d], [0x73, 0xba, 0xf5, 0x29], [0x21, 0xd2, 0x60, 0x2f]]
  const K9: State := [[0xac, 0x19, 0x28, 0x57], [0x77, 0xfa, 0xd1, 0x5c], [0x66, 0xdc, 0x29, 0x00], [0xf3, 0x21, 0x41, 0x6e]]
  const K10: State := [[0xd0, 0xc9, 0xe1, 0xb6], [0x14, 0xee, 0x3f, 0x63], [0xf9, 0x25, 0x0c, 0x0c], [0xa8, 0x89, 0xc8, 0xa6]]

  /** The states of the appendix table: start of round, after SubBytes, after ShiftRows, after MixColumns. */
  const Start1: State := [[0x19, 0xa0, 0x9a, 0xe9], [0x3d, 0xf4, 0xc6, 0xf8], [0xe3, 0xe2, 0x8d, 0x48], [0xbe, 0x2b, 0x2a, 0x08]]
  const AfterSubBytes1: State := [[0xd4, 0xe0, 0xb8, 0x1e], [0x27, 0xbf, 0xb4, 0x41], [0x11, 0x98, 0x5d, 0x52], [0xae, 0xf1, 0xe5, 0x30]]
  const AfterShiftRows1: State := [[0xd4, 0xe0, 0xb8, 0x1e], [0xbf, 0xb4, 0x41, 0x27], [0x5d, 0x52, 0x11, 0x98], [0x30, 0xae, 0xf1, 0xe5]]
  const AfterMixColumns1: State := [[0x04, 0xe0, 0x48, 0x28], [0x66, 0xcb, 0xf8, 0x06], [0x81, 0x19, 0xd3, 0x26], [0xe5, 0x9a, 0x7a, 0x4c]]
  const Start2: State := [[0xa4, 0x68, 0x6b, 0x02], [0x9c, 0x9f, 0x5b, 0x6a], [0x7f, 0x35, 0xea, 0x50], [0xf2, 0x2b, 0x43, 0x49]]
  const AfterSubBytes2: State := [[0x49, 0x45, 0x7f, 0x77], [0xde, 0xdb, 0x39, 0x02], [0xd2, 0x96, 0x87, 0x53], [0x89, 0xf1, 0x1a, 0x3b]]
  const AfterShiftRows2: State := [[0x49, 0x45, 0x7f, 0x77], [0xdb, 0x39, 0x02, 0xde], [0x87, 0x53, 0xd2, 0x96], [0x3b, 0x89, 0xf1, 0x1a]]
  const AfterMixColumns2: State := [[0x58, 0x1b, 0xdb, 0x1b], [0x4d, 0x4b, 0xe7, 0x6b], [0xca, 0x5a, 0xca, 0xb0], [0xf1, 0xac, 0xa8, 0xe5]]
  const Start3: State := [[0xaa, 0x61, 0x82, 0x68], [0x8f, 0xdd, 0xd2, 0x32], [0x5f, 0xe3, 0x4a, 0x46], [0x03, 0xef, 0xd2, 0x9a]]
  const AfterSubBytes3: State := [[0xac, 0xef, 0x13, 0x45], [0x73, 0xc1, 0xb5, 0x23], [0xcf, 0x11, 0xd6, 0x5a], [0x7b, 0xdf, 0xb5, 0xb8]]
  const AfterShiftRows3: State := [[0xac, 0xef, 0x13, 0x45], [0xc1, 0xb5, 0x23, 0x73], [0xd6, 0x5a, 0xcf, 0x11], [0xb8, 0x7b, 0xdf, 0xb5]]
  const AfterMixColumns3: State := [[0x75, 0x20, 0x53, 0xbb], [0xec, 0x0b, 0xc0, 0x25], [0x09, 0x63, 0xcf, 0xd0], [0x93, 0x33, 0x7c, 0xdc]]
  const Start4: State := [[0x48, 0x67, 0x4d, 0xd6], [0x6c, 0x1d, 0xe3, 0x5f], [0x4e, 0x9d, 0xb1, 0x58], [0xee, 0x0d, 0x38, 0xe7]]
  const AfterSubBytes4: State := [[0x52, 0x85, 0xe3, 0xf6], [0x50, 0xa4, 0x11, 0xcf], [0x2f, 0x5e, 0xc8, 0x6a], [0x28, 0xd7, 0x07, 0x94]]
  const AfterShiftRows4: State := [[0x52, 0x85, 0xe3, 0xf6], [0xa4, 0x11, 0xcf, 0x50], [0xc8, 0x6a, 0x2f, 0x5e], [0x94, 0x28, 0xd7, 0x07]]
  const AfterMixColumns4: State := [[0x0f, 0x60, 0x6f, 0x5e], [0xd6, 0x31, 0xc0, 0xb3], [0xda, 0x38, 0x10, 0x13], [0xa9, 0xbf, 0x6b, 0x01]]
  const Start5: State := [[0xe0, 0xc8, 0xd9, 0x85], [0x92, 0x63, 0xb1, 0xb8], [0x7f, 0x63, 0x35, 0xbe], [0xe8, 0xc0, 0x50, 0x01]]
  const AfterSubBytes5: State := [[0xe1, 0xe8, 0x35, 0x97], [0x4f, 0xfb, 0xc8, 0x6c], [0xd2, 0xfb, 0x96, 0xae], [0x9b, 0xba, 0x53, 0x7c]]
  const AfterShiftRows5: State := [[0xe1, 0xe8, 0x35, 0x97], [0xfb, 0xc8, 0x6c, 0x4f], [0x96, 0xae, 0xd2, 0xfb], [0x7c, 0x9b, 0xba, 0x53]]
  const AfterMixColumns5: State := [[0x25, 0xbd, 0xb6, 0x4c], [0xd1, 0x11, 0x3a, 0x4c], [0xa9, 0xd1, 0x33, 0xc0], [0xad, 0x68, 0x8e, 0xb0]]
  const Start6: State := [[0xf1, 0xc1, 0x7c, 0x5d], [0x00, 0x92, 0xc8, 0xb5], [0x6f, 0x4c, 0x8b, 0xd5], [0x55, 0xef, 0x32, 0x0c]]
  const AfterSubBytes6: State := [[0xa1, 0x78, 0x10, 0x4c], [0x63, 0x4f, 0xe8, 0xd5], [0xa8, 0x29, 0x3d, 0x03], [0xfc, 0xdf, 0x23, 0xfe]]
  const AfterShiftRows6: State := [[0xa1, 0x78, 0x10, 0x4c], [0x4f, 0xe8, 0xd5, 0x63], [0x3d, 0x03, 0xa8, 0x29], [0xfe, 0xfc, 0xdf, 0x23]]
  const AfterMixColumns6: State := [[0x4b, 0x2c, 0x33, 0x37], [0x86, 0x4a, 0x9d, 0xd2], [0x8d, 0x89, 0xf4, 0x18], [0x6d, 0x80, 0xe8, 0xd8]]
  const Start7: State := [[0x26, 0x3d, 0xe8, 0xfd], [0x0e, 0x41, 0x64, 0xd2], [0x2e, 0xb7, 0x72, 0x8b], [0x17, 0x7d, 0xa9, 0x25]]
  const AfterSubBytes7: State := [[0xf7, 0x27, 0x9b, 0x54], [0xab, 0x83, 0x43, 0xb5], [0x31, 0xa9, 0x40, 0x3d], [0xf0, 0xff, 0xd3, 0x3f]]
  const AfterShiftRows7: State := [[0xf7, 0x27, 0x9b, 0x54], [0x83, 0x43, 0xb5, 0xab], [0x40, 0x3d, 0x31, 0xa9], [0x3f, 0xf0, 0xff, 0xd3]]
  const AfterMixColumns7: State := [[0x14, 0x46, 0x27, 0x34], [0x15, 0x16, 0x46, 0x2a], [0xb5, 0x15, 0x56, 0xd8], [0xbf, 0xec, 0xd7, 0x43]]
  const Start8: State := [[0x5a, 0x19, 0xa3, 0x7a], [0x41, 0x49, 0xe0, 0x8c], [0x42, 0xdc, 0x19, 0x04], [0xb1, 0x1f, 0x65, 0x0c]]
  const AfterSubBytes8: State := [[0xbe, 0xd4, 0x0a, 0xda], [0x83, 0x3b, 0xe1, 0x64], [0x2c, 0x86, 0xd4, 0xf2], [0xc8, 0xc0, 0x4d, 0xfe]]
  const AfterShiftRows8: State := [[0xbe, 0xd4, 0x0a, 0xda], [0x3b, 0xe1, 0x64, 0x83], [0xd4, 0xf2, 0x2c, 0x86], [0xfe, 0xc8, 0xc0, 0x4d]]
  const AfterMixColumns8: State := [[0x00, 0xb1, 0x54, 0xfa], [0x51, 0xc8, 0x76, 0x1b], [0x2f, 0x89, 0x6d, 0x99], [0xd1, 0xff, 0xcd, 0xea]]
  const Start9: State := [[0xea, 0x04, 0x65, 0x85], [0x83, 0x45, 0x5d, 0x96], [0x5c, 0x33, 0x98, 0xb0], [0xf0, 0x2d, 0xad, 0xc5]]
  const AfterSubBytes9: State := [[0x87, 0xf2, 0x4d, 0x97], [0xec, 0x6e, 0x4c, 0x90], [0x4a, 0xc3, 0x46, 0xe7], [0x8c, 0xd8, 0x95, 0xa6]]
  const AfterShiftRows9: State := [[0x87, 0xf2, 0x4d, 0x97], [0x6e, 0x4c, 0x90, 0xec], [0x46, 0xe7, 0x4a, 0xc3], [0xa6, 0x8c, 0xd8, 0x95]]
  const AfterMixColumns9: State := [[0x47, 0x40, 0xa3, 0x4c], [0x37, 0xd4, 0x70, 0x9f], [0x94, 0xe4, 0x3a, 0x42], [0xed, 0xa5, 0xa6, 0xbc]]
  const Start10: State := [[0xeb, 0x59, 0x8b, 0x1b], [0x40, 0x2e, 0xa1, 0xc3], [0xf2, 0x38, 0x13, 0x42], [0x1e, 0x84, 0xe7, 0xd2]]
  const AfterSubBytes10: State := [[0xe9, 0xcb, 0x3d, 0xaf], [0x09, 0x31, 0x32, 0x2e], [0x89, 0x07, 0x7d, 0x2c], [0x72, 0x5f, 0x94, 0xb5]]
  const AfterShiftRows10: State := [[0xe9, 0xcb, 0x3d, 0xaf], [0x31, 0x32, 0x2e, 0x09], [0x7d, 0x2c, 0x89, 0x07], [0xb5, 0x72, 0x5f, 0x94]]
  const Output: State := [[0x39, 0x02, 0xdc, 0x19], [0x25, 0xdc, 0x11, 0x6a], [0x84, 0x09, 0x85, 0x0b], [0x1d, 0xfb, 0x97, 0x32]]

  /** Two states with the same sixteen bytes are equal. */
  lemma SameState(a: State, b: State)
    requires a[0][0] == b[0][0] && a[0][1] == b[0][1] && a[0][2] == b[0][2] && a[0][3] == b[0][3] && a[1][0] == b[1][0] && a[1][1] == b[1][1] && a[1][2] == b[1][2] && a[1][3] == b[1][3]
    requires a[2][0] == b[2][0] && a[2][1] == b[2][1] && a[2][2] == b[2][2] && a[2][3] == b[2][3] && a[3][0] == b[3][0] && a[3][1] == b[3][1] && a[3][2] == b[3][2] && a[3][3] == b[3][3]
    ensures a == b
  {
    Fips197.SameEntries(a, b);
  }

  /** The round-start step of the key schedule with the round constant Rcon[i / 4] given by value. */
  lemma RoundStartWord(key: seq<Byte>, i: nat, rc: Byte)
    requires |key| == 16 && 4 <= i < 44 && i % 4 == 0 && rc == Rcon[i / 4]
    ensures var w := Fips197.KeyExpansion(key);
            && w[i][0] == w[i - 4][0] ^ Sbox(w[i - 1][1]) ^ rc
            && w[i][1] == w[i - 4][1] ^ Sbox(w[i - 1][2])
            && w[i][2] == w[i - 4][2] ^ Sbox(w[i - 1][3])
            && w[i][3] == w[i - 4][3] ^ Sbox(w[i - 1][0])
  {
    Fips197.RoundStartByte0(key, i);
    Fips197.RoundStartByte1(key, i);
    Fips197.RoundStartByte2(key, i);
    Fips197.RoundStartByte3(key, i);
  }

  /** The S-box images of the bytes of word 3 of the key schedule. */
  lemma SboxOfWord3()
    ensures Sbox(0x09) == 0x01 && Sbox(0xcf) == 0x8a && Sbox(0x4f) == 0x84 && Sbox(0x3c) == 0xeb
  {
  }

  /** The S-box images of the bytes of word 7 of the key schedule. */
  lemma SboxOfWord7()
    ensures Sbox(0x2a) == 0xe5 && Sbox(0x6c) == 0x50 && Sbox(0x76) == 0x38 && Sbox(0x05) == 0x6b
  {
  }

  /** The S-box images of the bytes of word 11 of the key schedule. */
  lemma SboxOfWord11()
    ensures Sbox(0x73) == 0x8f && Sbox(0x59) == 0xcb && Sbox(0xf6) == 0x42 && Sbox(0x7f) == 0xd2
  {
  }

  /** The S-box images of the bytes of word 15 of the key schedule. */
  lemma SboxOfWord15()
    ensures Sbox(0x6d) == 0x3c && Sbox(0x7a) == 0xda && Sbox(0x88) == 0xc4 && Sbox(0x3b) == 0xe2
  {
  }

  /** The S-box images of the bytes of word 19 of the key schedule. */
  lemma SboxOfWord19()
    ensures Sbox(0xdb) == 0xb9 && Sbox(0x0b) == 0x2b && Sbox(0xad) == 0x95 && Sbox(0x00) == 0x63
  {
  }

  /** The S-box images of the bytes of word 23 of the key schedule. */
  lemma SboxOfWord23()
    ensures Sbox(0x11) == 0x82 && Sbox(0xf9) == 0x99 && Sbox(0x15) == 0x59 && Sbox(0xbc) == 0x65
  {
  }

  /** The S-box images of the bytes of word 27 of the key schedule. */
  lemma SboxOfWord27()
    ensures Sbox(0xca) == 0x74 && Sbox(0x00) == 0x63 && Sbox(0x93) == 0xdc && Sbox(0xfd) == 0x54
  {
  }

  /** The S-box images of the bytes of word 31 of the key schedule. */
  lemma SboxOfWord31()
    ensures Sbox(0x4e) == 0x2f && Sbox(0xa6) == 0x24 && Sbox(0xdc) == 0x86 && Sbox(0x4f) == 0x84
  {
  }

  /** The S-box images of the bytes of word 35 of the key schedule. */
  lemma SboxOfWord35()
    ensures Sbox(0x7f) == 0xd2 && Sbox(0x8d) == 0x5d && Sbox(0x29) == 0xa5 && Sbox(0x2f) == 0x15
  {
  }

  /** The S-box images of the bytes of word 39 of the key schedule. */
  lemma SboxOfWord39()
    ensures Sbox(0x57) == 0x5b && Sbox(0x5c) == 0x4a && Sbox(0x00) == 0x63 && Sbox(0x6e) == 0x9f
  {
  }

  /** Word 0 of the key schedule. */
  lemma ScheduleWord0(key: seq<Byte>)
    requires IsKey(key)
    ensures Fips197.KeyExpansion(key)[0] == [0x2b, 0x7e, 0x15, 0x16]
  {
    Fips197.KeyExpansionHead(key, 0);
  }

  /** Word 1 of the key schedule. */
  lemma ScheduleWord1(key: seq<Byte>)
    requires IsKey(key)
    ensures Fips197.KeyExpansion(key)[1] == [0x28, 0xae, 0xd2, 0xa6]
  {
    Fips197.KeyExpansionHead(key, 1);
  }

  /** Word 2 of the key schedule. */
  lemma ScheduleWord2(key: seq<Byte>)
    requires IsKey(key)
    ensures Fips197.KeyExpansion(key)[2] == [0xab, 0xf7, 0x15, 0x88]
  {
    Fips197.KeyExpansionHead(key, 2);
  }

  /** Word 3 of the key schedule. */
  lemma ScheduleWord3(key: seq<Byte>)
    requires IsKey(key)
    ensures Fips197.KeyExpansion(key)[3] == [0x09, 0xcf, 0x4f, 0x3c]
  {
    Fips197.KeyExpansionHead(key, 3);
  }

  /** Word 4 of the key schedule. */
  lemma ScheduleWord4(key: seq<Byte>)
    requires IsKey(key)
    ensures Fips197.KeyExpansion(key)[4] == [0xa0, 0xfa, 0xfe, 0x17]
  {
    ScheduleWord0(key);
    ScheduleWord3(key);
    SboxOfWord3();
    RoundStartWord(key, 4, 0x01);
  }

  /** Word 5 of the key schedule. */
  lemma ScheduleWord5(key: seq<Byte>)
    requires IsKey(key)
    ensures Fips197.KeyExpansion(key)[5] == [0x88, 0x54, 0x2c, 0xb1]
  {
    ScheduleWord1(key);
    ScheduleWord4(key);
    Fips197.KeyExpansionInner(key, 5, 0);
    Fips197.KeyExpansionInner(key, 5, 1);
    Fips197.KeyExpansionInner(key, 5, 2);
    Fips197.KeyExpansionInner(key, 5, 3);
  }

  /** Word 6 of the key schedule. */
  lemma ScheduleWord6(key: seq<Byte>)
    requires IsKey(key)
    ensures Fips197.KeyExpansion(key)[6] == [0x23, 0xa3, 0x39, 0x39]
  {
    ScheduleWord2(key);
    ScheduleWord5(key);
    Fips197.KeyExpansionInner(key, 6, 0);
    Fips197.KeyExpansionInner(key, 6, 1);
    Fips197.KeyExpansionInner(key, 6, 2);
    Fips197.KeyExpansionInner(key, 6, 3);
  }

  /** Word 7 of the key schedule. */
  lemma ScheduleWord7(key: seq<Byte>)
    requires IsKey(key)
    ensures Fips197.KeyExpansion(key)[7] == [0x2a, 0x6c, 0x76, 0x05]
  {
    ScheduleWord3(key);
    ScheduleWord6(key);
    Fips197.KeyExpansionInner(key, 7, 0);
    Fips197.KeyExpansionInner(key, 7, 1);
    Fips197.KeyExpansionInner(key, 7, 2);
    Fips197.KeyExpansionInner(key, 7, 3);
  }

  /** Word 8 of the key schedule. */
  lemma ScheduleWord8(key: seq<Byte>)
    requires IsKey(key)
    ensures Fips197.KeyExpansion(key)[8] == [0xf2, 0xc2, 0x95, 0xf2]
  {
    ScheduleWord4(key);
    ScheduleWord7(key);
    SboxOfWord7();
    RoundStartWord(key, 8, 0x02);
  }

  /** Word 9 of the key schedule. */
  lemma ScheduleWord9(key: seq<Byte>)
    requires IsKey(key)
    ensures Fips197.KeyExpansion(key)[9] == [0x7a, 0x96, 0xb9, 0x43]
  {
    ScheduleWord5(key);
    ScheduleWord8(key);
    Fips197.KeyExpansionInner(key, 9, 0);
    Fips197.KeyExpansionInner(key, 9, 1);
    Fips197.KeyExpansionInner(key, 9, 2);
    Fips197.KeyExpansionInner(key, 9, 3);
  }

  /** Word 10 of the key schedule. */
  lemma ScheduleWord10(key: seq<Byte>)
    requires IsKey(key)
    ensures Fips197.KeyExpansion(key)[10] == [0x59, 0x35, 0x80, 0x7a]
  {
    ScheduleWord6(key);
    ScheduleWord9(key);
    Fips197.KeyExpansionInner(key, 10, 0);
    Fips197.KeyExpansionInner(key, 10, 1);
    Fips197.KeyExpansionInner(key, 10, 2);
    Fips197.KeyExpansionInner(key, 10, 3);
  }

  /** Word 11 of the key schedule. */
  lemma ScheduleWord11(key: seq<Byte>)
    requires IsKey(key)
    ensures Fips197.KeyExpansion(key)[11] == [0x73, 0x59, 0xf6, 0x7f]
  {
    ScheduleWord7(key);
    ScheduleWord10(key);
    Fips197.KeyExpansionInner(key, 11, 0);
    Fips197.KeyExpansionInner(key, 11, 1);
    Fips197.KeyExpansionInner(key, 11, 2);
    Fips197.KeyExpansionInner(key, 11, 3);
  }

  /** Word 12 of the key schedule. */
  lemma ScheduleWord12(key: seq<Byte>)
    requires IsKey(key)
    ensures Fips197.KeyExpansion(key)[12] == [0x3d, 0x80, 0x47, 0x7d]
  {
    ScheduleWord8(key);
    ScheduleWord11(key);
    SboxOfWord11();
    RoundStartWord(key, 12, 0x04);
  }

  /** Word 13 of the key schedule. */
  lemma ScheduleWord13(key: seq<Byte>)
    requires IsKey(key)
    ensures Fips197.KeyExpansion(key)[13] == [0x47, 0x16, 0xfe, 0x3e]
  {
    ScheduleWord9(key);
    ScheduleWord12(key);
    Fips197.KeyExpansionInner(key, 13, 0);
    Fips197.KeyExpansionInner(key, 13, 1);
    Fips197.KeyExpansionInner(key, 13, 2);
    Fips197.KeyExpansionInner(key, 13, 3);
  }

  /** Word 14 of the key schedule. */
  lemma ScheduleWord14(key: seq<Byte>)
    requires IsKey(key)
    ensures Fips197.KeyExpansion(key)[14] == [0x1e, 0x23, 0x7e, 0x44]
  {
    ScheduleWord10(key);
    ScheduleWord13(key);
    Fips197.KeyExpansionInner(key, 14, 0);
    Fips197.KeyExpansionInner(key, 14, 1);
    Fips197.KeyExpansionInner(key, 14, 2);
    Fips197.KeyExpansionInner(key, 14, 3);
  }

  /** Word 15 of the key schedule. */
  lemma ScheduleWord15(key: seq<Byte>)
    requires IsKey(key)
    ensures Fips197.KeyExpansion(key)[15] == [0x6d, 0x7a, 0x88, 0x3b]
  {
    ScheduleWord11(key);
    ScheduleWord14(key);
    Fips197.KeyExpansionInner(key, 15, 0);
    Fips197.KeyExpansionInner(key, 15, 1);
    Fips197.KeyExpansionInner(key, 15, 2);
    Fips197.KeyExpansionInner(key, 15, 3);
  }

  /** Word 16 of the key schedule. */
  lemma ScheduleWord16(key: seq<Byte>)
    requires IsKey(key)
    ensures Fips197.KeyExpansion(key)[16] == [0xef, 0x44, 0xa5, 0x41]
  {
    ScheduleWord12(key);
    ScheduleWord15(key);
    SboxOfWord15();
    RoundStartWord(key, 16, 0x08);
  }

  /** Word 17 of the key schedule. */
  lemma ScheduleWord17(key: seq<Byte>)
    requires IsKey(key)
    ensures Fips197.KeyExpansion(key)[17] == [0xa8, 0x52, 0x5b, 0x7f]
  {
    ScheduleWord13(key);
    ScheduleWord16(key);
    Fips197.KeyExpansionInner(key, 17, 0);
    Fips197.KeyExpansionInner(key, 17, 1);
    Fips197.KeyExpansionInner(key, 17, 2);
    Fips197.KeyExpansionInner(key, 17, 3);
  }

  /** Word 18 of the key schedule. */
  lemma ScheduleWord18(key: seq<Byte>)
    requires IsKey(key)
    ensures Fips197.KeyExpansion(key)[18] == [0xb6, 0x71, 0x25, 0x3b]
  {
    ScheduleWord14(key);
    ScheduleWord17(key);
    Fips197.KeyExpansionInner(key, 18, 0);
    Fips197.KeyExpansionInner(key, 18, 1);
    Fips197.KeyExpansionInner(key, 18, 2);
    Fips197.KeyExpansionInner(key, 18, 3);
  }

  /** Word 19 of the key schedule. */
  lemma ScheduleWord19(key: seq<Byte>)
    requires IsKey(key)
    ensures Fips197.KeyExpansion(key)[19] == [0xdb, 0x0b, 0xad, 0x00]
  {
    ScheduleWord15(key);
    ScheduleWord18(key);
    Fips197.KeyExpansionInner(key, 19, 0);
    Fips197.KeyExpansionInner(key, 19, 1);
    Fips197.KeyExpansionInner(key, 19, 2);
    Fips197.KeyExpansionInner(key, 19, 3);
  }

  /** Word 20 of the key schedule. */
  lemma ScheduleWord20(key: seq<Byte>)
    requires IsKey(key)
    ensures Fips197.KeyExpansion(key)[20] == [0xd4, 0xd1, 0xc6, 0xf8]
  {
    ScheduleWord16(key);
    ScheduleWord19(key);
    SboxOfWord19();
    RoundStartWord(key, 20, 0x10);
  }

  /** Word 21 of the key schedule. */
  lemma ScheduleWord21(key: seq<Byte>)
    requires IsKey(key)
    ensures Fips197.KeyExpansion(key)[21] == [0x7c, 0x83, 0x9d, 0x87]
  {
    ScheduleWord17(key);
    ScheduleWord20(key);
    Fips197.KeyExpansionInner(key, 21, 0);
    Fips197.KeyExpansionInner(key, 21, 1);
    Fips197.KeyExpansionInner(key, 21, 2);
    Fips197.KeyExpansionInner(key, 21, 3);
  }

  /** Word 22 of the key schedule. */
  lemma ScheduleWord22(key: seq<Byte>)
    requires IsKey(key)
    ensures Fips197.KeyExpansion(key)[22] == [0xca, 0xf2, 0xb8, 0xbc]
  {
    ScheduleWord18(key);
    ScheduleWord21(key);
    Fips197.KeyExpansionInner(key, 22, 0);
    Fips197.KeyExpansionInner(key, 22, 1);
    Fips197.KeyExpansionInner(key, 22, 2);
    Fips197.KeyExpansionInner(key, 22, 3);
  }

  /** Word 23 of the key schedule. */
  lemma ScheduleWord23(key: seq<Byte>)
    requires IsKey(key)
    ensures Fips197.KeyExpansion(key)[23] == [0x11, 0xf9, 0x15, 0xbc]
  {
    ScheduleWord19(key);
    ScheduleWord22(key);
    Fips197.KeyExpansionInner(key, 23, 0);
    Fips197.KeyExpansionInner(key, 23, 1);
    Fips197.KeyExpansionInner(key, 23, 2);
    Fips197.KeyExpansionInner(key, 23, 3);
  }

  /** Word 24 of the key schedule. */
  lemma ScheduleWord24(key: seq<Byte>)
    requires IsKey(key)
    ensures Fips197.KeyExpansion(key)[24] == [0x6d, 0x88, 0xa3, 0x7a]
  {
    ScheduleWord20(key);
    ScheduleWord23(key);
    SboxOfWord23();
    RoundStartWord(key, 24, 0x20);
  }

  /** Word 25 of the key schedule. */
  lemma ScheduleWord25(key: seq<Byte>)
    requires IsKey(key)
    ensures Fips197.KeyExpansion(key)[25] == [0x11, 0x0b, 0x3e, 0xfd]
  {
    ScheduleWord21(key);
    ScheduleWord24(key);
    Fips197.KeyExpansionInner(key, 25, 0);
    Fips197.KeyExpansionInner(key, 25, 1);
    Fips197.KeyExpansionInner(key, 25, 2);
    Fips197.KeyExpansionInner(key, 25, 3);
  }

  /** Word 26 of the key schedule. */
  lemma ScheduleWord26(key: seq<Byte>)
    requires IsKey(key)
    ensures Fips197.KeyExpansion(key)[26] == [0xdb, 0xf9, 0x86, 0x41]
  {
    ScheduleWord22(key);
    ScheduleWord25(key);
    Fips197.KeyExpansionInner(key, 26, 0);
    Fips197.KeyExpansionInner(key, 26, 1);
    Fips197.KeyExpansionInner(key, 26, 2);
    Fips197.KeyExpansionInner(key, 26, 3);
  }

  /** Word 27 of the key schedule. */
  lemma ScheduleWord27(key: seq<Byte>)
    requires IsKey(key)
    ensures Fips197.KeyExpansion(key)[27] == [0xca, 0x00, 0x93, 0xfd]
  {
    ScheduleWord23(key);
    ScheduleWord26(key);
    Fips197.KeyExpansionInner(key, 27, 0);
    Fips197.KeyExpansionInner(key, 27, 1);
    Fips197.KeyExpansionInner(key, 27, 2);
    Fips197.KeyExpansionInner(key, 27, 3);
  }

  /** Word 28 of the key schedule. */
  lemma ScheduleWord28(key: seq<Byte>)
    requires IsKey(key)
    ensures Fips197.KeyExpansion(key)[28] == [0x4e, 0x54, 0xf7, 0x0e]
  {
    ScheduleWord24(key);
    ScheduleWord27(key);
    SboxOfWord27();
    RoundStartWord(key, 28, 0x40);
  }

  /** Word 29 of the key schedule. */
  lemma ScheduleWord29(key: seq<Byte>)
    requires IsKey(key)
    ensures Fips197.KeyExpansion(key)[29] == [0x5f, 0x5f, 0xc9, 0xf3]
  {
    ScheduleWord25(key);
    ScheduleWord28(key);
    Fips197.KeyExpansionInner(key, 29, 0);
    Fips197.KeyExpansionInner(key, 29, 1);
    Fips197.KeyExpansionInner(key, 29, 2);
    Fips197.KeyExpansionInner(key, 29, 3);
  }

  /** Word 30 of the key schedule. */
  lemma ScheduleWord30(key: seq<Byte>)
    requires IsKey(key)
    ensures Fips197.KeyExpansion(key)[30] == [0x84, 0xa6, 0x4f, 0xb2]
  {
    ScheduleWord26(key);
    ScheduleWord29(key);
    Fips197.KeyExpansionInner(key, 30, 0);
    Fips197.KeyExpansionInner(key, 30, 1);
    Fips197.KeyExpansionInner(key, 30, 2);
    Fips197.KeyExpansionInner(key, 30, 3);
  }

  /** Word 31 of the key schedule. */
  lemma ScheduleWord31(key: seq<Byte>)
    requires IsKey(key)
    ensures Fips197.KeyExpansion(key)[31] == [0x4e, 0xa6, 0xdc, 0x4f]
  {
    ScheduleWord27(key);
    ScheduleWord30(key);
    Fips197.KeyExpansionInner(key, 31, 0);
    Fips197.KeyExpansionInner(key, 31, 1);
    Fips197.KeyExpansionInner(key, 31, 2);
    Fips197.KeyExpansionInner(key, 31, 3);
  }

  /** Word 32 of the key schedule. */
  lemma ScheduleWord32(key: seq<Byte>)
    requires IsKey(key)
    ensures Fips197.KeyExpansion(key)[32] == [0xea, 0xd2, 0x73, 0x21]
  {
    ScheduleWord28(key);
    ScheduleWord31(key);
    SboxOfWord31();
    RoundStartWord(key, 32, 0x80);
  }

  /** Word 33 of the key schedule. */
  lemma ScheduleWord33(key: seq<Byte>)
    requires IsKey(key)
    ensures Fips197.KeyExpansion(key)[33] == [0xb5, 0x8d, 0xba, 0xd2]
  {
    ScheduleWord29(key);
    ScheduleWord32(key);
    Fips197.KeyExpansionInner(key, 33, 0);
    Fips197.KeyExpansionInner(key, 33, 1);
    Fips197.KeyExpansionInner(key, 33, 2);
    Fips197.KeyExpansionInner(key, 33, 3);
  }

  /** Word 34 of the key schedule. */
  lemma ScheduleWord34(key: seq<Byte>)
    requires IsKey(key)
    ensures Fips197.KeyExpansion(key)[34] == [0x31, 0x2b, 0xf5, 0x60]
  {
    ScheduleWord30(key);
    ScheduleWord33(key);
    Fips197.KeyExpansionInner(key, 34, 0);
    Fips197.KeyExpansionInner(key, 34, 1);
    Fips197.KeyExpansionInner(key, 34, 2);
    Fips197.KeyExpansionInner(key, 34, 3);
  }

  /** Word 35 of the key schedule. */
  lemma ScheduleWord35(key: seq<Byte>)
    requires IsKey(key)
    ensures Fips197.KeyExpansion(key)[35] == [0x7f, 0x8d, 0x29, 0x2f]
  {
    ScheduleWord31(key);
    ScheduleWord34(key);
    Fips197.KeyExpansionInner(key, 35, 0);
    Fips197.KeyExpansionInner(key, 35, 1);
    Fips197.KeyExpansionInner(key, 35, 2);
    Fips197.KeyExpansionInner(key, 35, 3);
  }

  /** Word 36 of the key schedule. */
  lemma ScheduleWord36(key: seq<Byte>)
    requires IsKey(key)
    ensures Fips197.KeyExpansion(key)[36] == [0xac, 0x77, 0x66, 0xf3]
  {
    ScheduleWord32(key);
    ScheduleWord35(key);
    SboxOfWord35();
    RoundStartWord(key, 36, 0x1b);
  }

  /** Word 37 of the key schedule. */
  lemma ScheduleWord37(key: seq<Byte>)
    requires IsKey(key)
    ensures Fips197.KeyExpansion(key)[37] == [0x19, 0xfa, 0xdc, 0x21]
  {
    ScheduleWord33(key);
    ScheduleWord36(key);
    Fips197.KeyExpansionInner(key, 37, 0);
    Fips197.KeyExpansionInner(key, 37, 1);
    Fips197.KeyExpansionInner(key, 37, 2);
    Fips197.KeyExpansionInner(key, 37, 3);
  }

  /** Word 38 of the key schedule. */
  lemma ScheduleWord38(key: seq<Byte>)
    requires IsKey(key)
    ensures Fips197.KeyExpansion(key)[38] == [0x28, 0xd1, 0x29, 0x41]
  {
    ScheduleWord34(key);
    ScheduleWord37(key);
    Fips197.KeyExpansionInner(key, 38, 0);
    Fips197.KeyExpansionInner(key, 38, 1);
    Fips197.KeyExpansionInner(key, 38, 2);
    Fips197.KeyExpansionInner(key, 38, 3);
  }

  /** Word 39 of the key schedule. */
  lemma ScheduleWord39(key: seq<Byte>)
    requires IsKey(key)
    ensures Fips197.KeyExpansion(key)[39] == [0x57, 0x5c, 0x00, 0x6e]
  {
    ScheduleWord35(key);
    ScheduleWord38(key);
    Fips197.KeyExpansionInner(key, 39, 0);
    Fips197.KeyExpansionInner(key, 39, 1);
    Fips197.KeyExpansionInner(key, 39, 2);
    Fips197.KeyExpansionInner(key, 39, 3);
  }

  /** Word 40 of the key schedule. */
  lemma ScheduleWord40(key: seq<Byte>)
    requires IsKey(key)
    ensures Fips197.KeyExpansion(key)[40] == [0xd0, 0x14, 0xf9, 0xa8]
  {
    ScheduleWord36(key);
    ScheduleWord39(key);
    SboxOfWord39();
    RoundStartWord(key, 40, 0x36);
  }

  /** Word 41 of the key schedule. */
  lemma ScheduleWord41(key: seq<Byte>)
    requires IsKey(key)
    ensures Fips197.KeyExpansion(key)[41] == [0xc9, 0xee, 0x25, 0x89]
  {
    ScheduleWord37(key);
    ScheduleWord40(key);
    Fips197.KeyExpansionInner(key, 41, 0);
    Fips197.KeyExpansionInner(key, 41, 1);
    Fips197.KeyExpansionInner(key, 41, 2);
    Fips197.KeyExpansionInner(key, 41, 3);
  }

  /** Word 42 of the key schedule. */
  lemma ScheduleWord42(key: seq<Byte>)
    requires IsKey(key)
    ensures Fips197.KeyExpansion(key)[42] == [0xe1, 0x3f, 0x0c, 0xc8]
  {
    ScheduleWord38(key);
    ScheduleWord41(key);
    Fips197.KeyExpansionInner(key, 42, 0);
    Fips197.KeyExpansionInner(key, 42, 1);
    Fips197.KeyExpansionInner(key, 42, 2);
    Fips197.KeyExpansionInner(key, 42, 3);
  }

  /** Word 43 of the key schedule. */
  lemma ScheduleWord43(key: seq<Byte>)
    requires IsKey(key)
    ensures Fips197.KeyExpansion(key)[43] == [0xb6, 0x63, 0x0c, 0xa6]
  {
    ScheduleWord39(key);
    ScheduleWord42(key);
    Fips197.KeyExpansionInner(key, 43, 0);
    Fips197.KeyExpansionInner(key, 43, 1);
    Fips197.KeyExpansionInner(key, 43, 2);
    Fips197.KeyExpansionInner(key, 43, 3);
  }

  /** Round key 0 is words 0 to 3 of the schedule. */
  lemma RoundKey0(key: seq<Byte>)
    requires IsKey(key)
    ensures Fips197.RoundKey(Fips197.KeyExpansion(key), 0) == K0
  {
    ScheduleWord0(key); ScheduleWord1(key); ScheduleWord2(key); ScheduleWord3(key);
    SameState(Fips197.RoundKey(Fips197.KeyExpansion(key), 0), K0);
  }

  /** Round key 1 is words 4 to 7 of the schedule. */
  lemma RoundKey1(key: seq<Byte>)
    requires IsKey(key)
    ensures Fips197.RoundKey(Fips197.KeyExpansion(key), 1) == K1
  {
    ScheduleWord4(key); ScheduleWord5(key); ScheduleWord6(key); ScheduleWord7(key);
    SameState(Fips197.RoundKey(Fips197.KeyExpansion(key), 1), K1);
  }

  /** Round key 2 is words 8 to 11 of the schedule. */
  lemma RoundKey2(key: seq<Byte>)
    requires IsKey(key)
    ensures Fips197.RoundKey(Fips197.KeyExpansion(key), 2) == K2
  {
    ScheduleWord8(key); ScheduleWord9(key); ScheduleWord10(key); ScheduleWord11(key);
    SameState(Fips197.RoundKey(Fips197.KeyExpansion(key), 2), K2);
  }

  /** Round key 3 is words 12 to 15 of the schedule. */
  lemma RoundKey3(key: seq<Byte>)
    requires IsKey(key)
    ensures Fips197.RoundKey(Fips197.KeyExpansion(key), 3) == K3
  {
    ScheduleWord12(key); ScheduleWord13(key); ScheduleWord14(key); ScheduleWord15(key);
    SameState(Fips197.RoundKey(Fips197.KeyExpansion(key), 3), K3);
  }

  /** Round key 4 is words 16 to 19 of the schedule. */
  lemma RoundKey4(key: seq<Byte>)
    requires IsKey(key)
    ensures Fips197.RoundKey(Fips197.KeyExpansion(key), 4) == K4
  {
    ScheduleWord16(key); ScheduleWord17(key); ScheduleWord18(key); ScheduleWord19(key);
    SameState(Fips197.RoundKey(Fips197.KeyExpansion(key), 4), K4);
  }

  /** Round key 5 is words 20 to 23 of the schedule. */
  lemma RoundKey5(key: seq<Byte>)
    requires IsKey(key)
    ensures Fips197.RoundKey(Fips197.KeyExpansion(key), 5) == K5
  {
    ScheduleWord20(key); ScheduleWord21(key); ScheduleWord22(key); ScheduleWord23(key);
    SameState(Fips197.RoundKey(Fips197.KeyExpansion(key), 5), K5);
  }

  /** Round key 6 is words 24 to 27 of the schedule. */
  lemma RoundKey6(key: seq<Byte>)
    requires IsKey(key)
    ensures Fips197.RoundKey(Fips197.KeyExpansion(key), 6) == K6
  {
    ScheduleWord24(key); ScheduleWord25(key); ScheduleWord26(key); ScheduleWord27(key);
    SameState(Fips197.RoundKey(Fips197.KeyExpansion(key), 6), K6);
  }

  /** Round key 7 is words 28 to 31 of the schedule. */
  lemma RoundKey7(key: seq<Byte>)
    requires IsKey(key)
    ensures Fips197.RoundKey(Fips197.KeyExpansion(key), 7) == K7
  {
    ScheduleWord28(key); ScheduleWord29(key); ScheduleWord30(key); ScheduleWord31(key);
    SameState(Fips197.RoundKey(Fips197.KeyExpansion(key), 7), K7);
  }

  /** Round key 8 is words 32 to 35 of the schedule. */
  lemma RoundKey8(key: seq<Byte>)
    requires IsKey(key)
    ensures Fips197.RoundKey(Fips197.KeyExpansion(key), 8) == K8
  {
    ScheduleWord32(key); ScheduleWord33(key); ScheduleWord34(key); ScheduleWord35(key);
    SameState(Fips197.RoundKey(Fips197.KeyExpansion(key), 8), K8);
  }

  /** Round key 9 is words 36 to 39 of the schedule. */
  lemma RoundKey9(key: seq<Byte>)
    requires IsKey(key)
    ensures Fips197.RoundKey(Fips197.KeyExpansion(key), 9) == K9
  {
    ScheduleWord36(key); ScheduleWord37(key); ScheduleWord38(key); ScheduleWord39(key);
    SameState(Fips197.RoundKey(Fips197.KeyExpansion(key), 9), K9);
  }

  /** Round key 10 is words 40 to 43 of the schedule. */
  lemma RoundKey10(key: seq<Byte>)
    requires IsKey(key)
    ensures Fips197.RoundKey(Fips197.KeyExpansion(key), 10) == K10
  {
    ScheduleWord40(key); ScheduleWord41(key); ScheduleWord42(key); ScheduleWord43(key);
    SameState(Fips197.RoundKey(Fips197.KeyExpansion(key), 10), K10);
  }

  /** The input block loaded column by column, plus round key 0, is the start of round 1. */
  lemma InitialAddRoundKey(plain: seq<Byte>)
    requires IsPlain(plain)
    ensures Fips197.AddRoundKey(LoadBlock(plain), K0) == Start1
  {
    SameState(Fips197.AddRoundKey(LoadBlock(plain), K0), Start1);
  }

  /** The S-box images of row 0 of the state at the start of round 1. */
  lemma SboxOfRow1_0()
    ensures Sbox(0x19) == 0xd4 && Sbox(0xa0) == 0xe0 && Sbox(0x9a) == 0xb8 && Sbox(0xe9) == 0x1e
  {
  }

  /** The S-box images of row 1 of the state at the start of round 1. */
  lemma SboxOfRow1_1()
    ensures Sbox(0x3d) == 0x27 && Sbox(0xf4) == 0xbf && Sbox(0xc6) == 0xb4 && Sbox(0xf8) == 0x41
  {
  }

  /** The S-box images of row 2 of the state at the start of round 1. */
  lemma SboxOfRow1_2()
    ensures Sbox(0xe3) == 0x11 && Sbox(0xe2) == 0x98 && Sbox(0x8d) == 0x5d && Sbox(0x48) == 0x52
  {
  }

  /** The S-box images of row 3 of the state at the start of round 1. */
  lemma SboxOfRow1_3()
    ensures Sbox(0xbe) == 0xae && Sbox(0x2b) == 0xf1 && Sbox(0x2a) == 0xe5 && Sbox(0x08) == 0x30
  {
  }

  lemma SubBytes1()
    ensures Fips197.SubBytes(Start1) == AfterSubBytes1
  {
    SboxOfRow1_0(); SboxOfRow1_1(); SboxOfRow1_2(); SboxOfRow1_3();
    SameState(Fips197.SubBytes(Start1), AfterSubBytes1);
  }

  lemma ShiftRows1()
    ensures Fips197.ShiftRows(AfterSubBytes1) == AfterShiftRows1
  {
    SameState(Fips197.ShiftRows(AfterSubBytes1), AfterShiftRows1);
  }

  lemma MixColumn1_0()
    ensures Fips197.MixColumn(Column(AfterShiftRows1, 0)) == [0x04, 0x66, 0x81, 0xe5]
  {
    assert Column(AfterShiftRows1, 0) == [0xd4, 0xbf, 0x5d, 0x30];
    FieldMulSmall(0xd4); FieldMulSmall(0xbf); FieldMulSmall(0x5d); FieldMulSmall(0x30);
  }

  lemma MixColumn1_1()
    ensures Fips197.MixColumn(Column(AfterShiftRows1, 1)) == [0xe0, 0xcb, 0x19, 0x9a]
  {
    assert Column(AfterShiftRows1, 1) == [0xe0, 0xb4, 0x52, 0xae];
    FieldMulSmall(0xe0); FieldMulSmall(0xb4); FieldMulSmall(0x52); FieldMulSmall(0xae);
  }

  lemma MixColumn1_2()
    ensures Fips197.MixColumn(Column(AfterShiftRows1, 2)) == [0x48, 0xf8, 0xd3, 0x7a]
  {
    assert Column(AfterShiftRows1, 2) == [0xb8, 0x41, 0x11, 0xf1];
    FieldMulSmall(0xb8); FieldMulSmall(0x41); FieldMulSmall(0x11); FieldMulSmall(0xf1);
  }

  lemma MixColumn1_3()
    ensures Fips197.MixColumn(Column(AfterShiftRows1, 3)) == [0x28, 0x06, 0x26, 0x4c]
  {
    assert Column(AfterShiftRows1, 3) == [0x1e, 0x27, 0x98, 0xe5];
    FieldMulSmall(0x1e); FieldMulSmall(0x27); FieldMulSmall(0x98); FieldMulSmall(0xe5);
  }

  lemma MixColumns1()
    ensures Fips197.MixColumns(AfterShiftRows1) == AfterMixColumns1
  {
    MixColumn1_0(); MixColumn1_1(); MixColumn1_2(); MixColumn1_3();
    SameState(Fips197.MixColumns(AfterShiftRows1), AfterMixColumns1);
  }

  lemma AddRoundKey1()
    ensures Fips197.AddRoundKey(AfterMixColumns1, K1) == Start2
  {
    SameState(Fips197.AddRoundKey(AfterMixColumns1, K1), Start2);
  }

  /** Round 1 takes the start of round 1 to the start of round 2. */
  lemma Round1()
    ensures Fips197.Round(Start1, K1) == Start2
  {
    SubBytes1(); ShiftRows1(); MixColumns1(); AddRoundKey1();
  }

  /** The S-box images of row 0 of the state at the start of round 2. */
  lemma SboxOfRow2_0()
    ensures Sbox(0xa4) == 0x49 && Sbox(0x68) == 0x45 && Sbox(0x6b) == 0x7f && Sbox(0x02) == 0x77
  {
  }

  /** The S-box images of row 1 of the state at the start of round 2. */
  lemma SboxOfRow2_1()
    ensures Sbox(0x9c) == 0xde && Sbox(0x9f) == 0xdb && Sbox(0x5b) == 0x39 && Sbox(0x6a) == 0x02
  {
  }

  /** The S-box images of row 2 of the state at the start of round 2. */
  lemma SboxOfRow2_2()
    ensures Sbox(0x7f) == 0xd2 && Sbox(0x35) == 0x96 && Sbox(0xea) == 0x87 && Sbox(0x50) == 0x53
  {
  }

  /** The S-box images of row 3 of the state at the start of round 2. */
  lemma SboxOfRow2_3()
    ensures Sbox(0xf2) == 0x89 && Sbox(0x2b) == 0xf1 && Sbox(0x43) == 0x1a && Sbox(0x49) == 0x3b
  {
  }

  lemma SubBytes2()
    ensures Fips197.SubBytes(Start2) == AfterSubBytes2
  {
    SboxOfRow2_0(); SboxOfRow2_1(); SboxOfRow2_2(); SboxOfRow2_3();
    SameState(Fips197.SubBytes(Start2), AfterSubBytes2);
  }

  lemma ShiftRows2()
    ensures Fips197.ShiftRows(AfterSubBytes2) == AfterShiftRows2
  {
    SameState(Fips197.ShiftRows(AfterSubBytes2), AfterShiftRows2);
  }

  lemma MixColumn2_0()
    ensures Fips197.MixColumn(Column(AfterShiftRows2, 0)) == [0x58, 0x4d, 0xca, 0xf1]
  {
    assert Column(AfterShiftRows2, 0) == [0x49, 0xdb, 0x87, 0x3b];
    FieldMulSmall(0x49); FieldMulSmall(0xdb); FieldMulSmall(0x87); FieldMulSmall(0x3b);
  }

  lemma MixColumn2_1()
    ensures Fips197.MixColumn(Column(AfterShiftRows2, 1)) == [0x1b, 0x4b, 0x5a, 0xac]
  {
    assert Column(AfterShiftRows2, 1) == [0x45, 0x39, 0x53, 0x89];
    FieldMulSmall(0x45); FieldMulSmall(0x39); FieldMulSmall(0x53); FieldMulSmall(0x89);
  }

  lemma MixColumn2_2()
    ensures Fips197.MixColumn(Column(AfterShiftRows2, 2)) == [0xdb, 0xe7, 0xca, 0xa8]
  {
    assert Column(AfterShiftRows2, 2) == [0x7f, 0x02, 0xd2, 0xf1];
    FieldMulSmall(0x7f); FieldMulSmall(0x02); FieldMulSmall(0xd2); FieldMulSmall(0xf1);
  }

  lemma MixColumn2_3()
    ensures Fips197.MixColumn(Column(AfterShiftRows2, 3)) == [0x1b, 0x6b, 0xb0, 0xe5]
  {
    assert Column(AfterShiftRows2, 3) == [0x77, 0xde, 0x96, 0x1a];
    FieldMulSmall(0x77); FieldMulSmall(0xde); FieldMulSmall(0x96); FieldMulSmall(0x1a);
  }

  lemma MixColumns2()
    ensures Fips197.MixColumns(AfterShiftRows2) == AfterMixColumns2
  {
    MixColumn2_0(); MixColumn2_1(); MixColumn2_2(); MixColumn2_3();
    SameState(Fips197.MixColumns(AfterShiftRows2), AfterMixColumns2);
  }

  lemma AddRoundKey2()
    ensures Fips197.AddRoundKey(AfterMixColumns2, K2) == Start3
  {
    SameState(Fips197.AddRoundKey(AfterMixColumns2, K2), Start3);
  }

  /** Round 2 takes the start of round 2 to the start of round 3. */
  lemma Round2()
    ensures Fips197.Round(Start2, K2) == Start3
  {
    SubBytes2(); ShiftRows2(); MixColumns2(); AddRoundKey2();
  }

  /** The S-box images of row 0 of the state at the start of round 3. */
  lemma SboxOfRow3_0()
    ensures Sbox(0xaa) == 0xac && Sbox(0x61) == 0xef && Sbox(0x82) == 0x13 && Sbox(0x68) == 0x45
  {
  }

  /** The S-box images of row 1 of the state at the start of round 3. */
  lemma SboxOfRow3_1()
    ensures Sbox(0x8f) == 0x73 && Sbox(0xdd) == 0xc1 && Sbox(0xd2) == 0xb5 && Sbox(0x32) == 0x23
  {
  }

  /** The S-box images of row 2 of the state at the start of round 3. */
  lemma SboxOfRow3_2()
    ensures Sbox(0x5f) == 0xcf && Sbox(0xe3) == 0x11 && Sbox(0x4a) == 0xd6 && Sbox(0x46) == 0x5a
  {
  }

  /** The S-box images of row 3 of the state at the start of round 3. */
  lemma SboxOfRow3_3()
    ensures Sbox(0x03) == 0x7b && Sbox(0xef) == 0xdf && Sbox(0xd2) == 0xb5 && Sbox(0x9a) == 0xb8
  {
  }

  lemma SubBytes3()
    ensures Fips197.SubBytes(Start3) == AfterSubBytes3
  {
    SboxOfRow3_0(); SboxOfRow3_1(); SboxOfRow3_2(); SboxOfRow3_3();
    SameState(Fips197.SubBytes(Start3), AfterSubBytes3);
  }

  lemma ShiftRows3()
    ensures Fips197.ShiftRows(AfterSubBytes3) == AfterShiftRows3
  {
    SameState(Fips197.ShiftRows(AfterSubBytes3), AfterShiftRows3);
  }

  lemma MixColumn3_0()
    ensures Fips197.MixColumn(Column(AfterShiftRows3, 0)) == [0x75, 0xec, 0x09, 0x93]
  {
    assert Column(AfterShiftRows3, 0) == [0xac, 0xc1, 0xd6, 0xb8];
    FieldMulSmall(0xac); FieldMulSmall(0xc1); FieldMulSmall(0xd6); FieldMulSmall(0xb8);
  }

  lemma MixColumn3_1()
    ensures Fips197.MixColumn(Column(AfterShiftRows3, 1)) == [0x20, 0x0b, 0x63, 0x33]
  {
    assert Column(AfterShiftRows3, 1) == [0xef, 0xb5, 0x5a, 0x7b];
    FieldMulSmall(0xef); FieldMulSmall(0xb5); FieldMulSmall(0x5a); FieldMulSmall(0x7b);
  }

  lemma MixColumn3_2()
    ensures Fips197.MixColumn(Column(AfterShiftRows3, 2)) == [0x53, 0xc0, 0xcf, 0x7c]
  {
    assert Column(AfterShiftRows3, 2) == [0x13, 0x23, 0xcf, 0xdf];
    FieldMulSmall(0x13); FieldMulSmall(0x23); FieldMulSmall(0xcf); FieldMulSmall(0xdf);
  }

  lemma MixColumn3_3()
    ensures Fips197.MixColumn(Column(AfterShiftRows3, 3)) == [0xbb, 0x25, 0xd0, 0xdc]
  {
    assert Column(AfterShiftRows3, 3) == [0x45, 0x73, 0x11, 0xb5];
    FieldMulSmall(0x45); FieldMulSmall(0x73); FieldMulSmall(0x11); FieldMulSmall(0xb5);
  }

  lemma MixColumns3()
    ensures Fips197.MixColumns(AfterShiftRows3) == AfterMixColumns3
  {
    MixColumn3_0(); MixColumn3_1(); MixColumn3_2(); MixColumn3_3();
    SameState(Fips197.MixColumns(AfterShiftRows3), AfterMixColumns3);
  }

  lemma AddRoundKey3()
    ensures Fips197.AddRoundKey(AfterMixColumns3, K3) == Start4
  {
    SameState(Fips197.AddRoundKey(AfterMixColumns3, K3), Start4);
  }

  /** Round 3 takes the start of round 3 to the start of round 4. */
  lemma Round3()
    ensures Fips197.Round(Start3, K3) == Start4
  {
    SubBytes3(); ShiftRows3(); MixColumns3(); AddRoundKey3();
  }

  /** The S-box images of row 0 of the state at the start of round 4. */
  lemma SboxOfRow4_0()
    ensures Sbox(0x48) == 0x52 && Sbox(0x67) == 0x85 && Sbox(0x4d) == 0xe3 && Sbox(0xd6) == 0xf6
  {
  }

  /** The S-box images of row 1 of the state at the start of round 4. */
  lemma SboxOfRow4_1()
    ensures Sbox(0x6c) == 0x50 && Sbox(0x1d) == 0xa4 && Sbox(0xe3) == 0x11 && Sbox(0x5f) == 0xcf
  {
  }

  /** The S-box images of row 2 of the state at the start of round 4. */
  lemma SboxOfRow4_2()
    ensures Sbox(0x4e) == 0x2f && Sbox(0x9d) == 0x5e && Sbox(0xb1) == 0xc8 && Sbox(0x58) == 0x6a
  {
  }

  /** The S-box images of row 3 of the state at the start of round 4. */
  lemma SboxOfRow4_3()
    ensures Sbox(0xee) == 0x28 && Sbox(0x0d) == 0xd7 && Sbox(0x38) == 0x07 && Sbox(0xe7) == 0x94
  {
  }

  lemma SubBytes4()
    ensures Fips197.SubBytes(Start4) == AfterSubBytes4
  {
    SboxOfRow4_0(); SboxOfRow4_1(); SboxOfRow4_2(); SboxOfRow4_3();
    SameState(Fips197.SubBytes(Start4), AfterSubBytes4);
  }

  lemma ShiftRows4()
    ensures Fips197.ShiftRows(AfterSubBytes4) == AfterShiftRows4
  {
    SameState(Fips197.ShiftRows(AfterSubBytes4), AfterShiftRows4);
  }

  lemma MixColumn4_0()
    ensures Fips197.MixColumn(Column(AfterShiftRows4, 0)) == [0x0f, 0xd6, 0xda, 0xa9]
  {
    assert Column(AfterShiftRows4, 0) == [0x52, 0xa4, 0xc8, 0x94];
    FieldMulSmall(0x52); FieldMulSmall(0xa4); FieldMulSmall(0xc8); FieldMulSmall(0x94);
  }

  lemma MixColumn4_1()
    ensures Fips197.MixColumn(Column(AfterShiftRows4, 1)) == [0x60, 0x31, 0x38, 0xbf]
  {
    assert Column(AfterShiftRows4, 1) == [0x85, 0x11, 0x6a, 0x28];
    FieldMulSmall(0x85); FieldMulSmall(0x11); FieldMulSmall(0x6a); FieldMulSmall(0x28);
  }

  lemma MixColumn4_2()
    ensures Fips197.MixColumn(Column(AfterShiftRows4, 2)) == [0x6f, 0xc0, 0x10, 0x6b]
  {
    assert Column(AfterShiftRows4, 2) == [0xe3, 0xcf, 0x2f, 0xd7];
    FieldMulSmall(0xe3); FieldMulSmall(0xcf); FieldMulSmall(0x2f); FieldMulSmall(0xd7);
  }

  lemma MixColumn4_3()
    ensures Fips197.MixColumn(Column(AfterShiftRows4, 3)) == [0x5e, 0xb3, 0x13, 0x01]
  {
    assert Column(AfterShiftRows4, 3) == [0xf6, 0x50, 0x5e, 0x07];
    FieldMulSmall(0xf6); FieldMulSmall(0x50); FieldMulSmall(0x5e); FieldMulSmall(0x07);
  }

  lemma MixColumns4()
    ensures Fips197.MixColumns(AfterShiftRows4) == AfterMixColumns4
  {
    MixColumn4_0(); MixColumn4_1(); MixColumn4_2(); MixColumn4_3();
    SameState(Fips197.MixColumns(AfterShiftRows4), AfterMixColumns4);
  }

  lemma AddRoundKey4()
    ensures Fips197.AddRoundKey(AfterMixColumns4, K4) == Start5
  {
    SameState(Fips197.AddRoundKey(AfterMixColumns4, K4), Start5);
  }

  /** Round 4 takes the start of round 4 to the start of round 5. */
  lemma Round4()
    ensures Fips197.Round(Start4, K4) == Start5
  {
    SubBytes4(); ShiftRows4(); MixColumns4(); AddRoundKey4();
  }

  /** The S-box images of row 0 of the state at the start of round 5. */
  lemma SboxOfRow5_0()
    ensures Sbox(0xe0) == 0xe1 && Sbox(0xc8) == 0xe8 && Sbox(0xd9) == 0x35 && Sbox(0x85) == 0x97
  {
  }

  /** The S-box images of row 1 of the state at the start of round 5. */
  lemma SboxOfRow5_1()
    ensures Sbox(0x92) == 0x4f && Sbox(0x63) == 0xfb && Sbox(0xb1) == 0xc8 && Sbox(0xb8) == 0x6c
  {
  }

  /** The S-box images of row 2 of the state at the start of round 5. */
  lemma SboxOfRow5_2()
    ensures Sbox(0x7f) == 0xd2 && Sbox(0x63) == 0xfb && Sbox(0x35) == 0x96 && Sbox(0xbe) == 0xae
  {
  }

  /** The S-box images of row 3 of the state at the start of round 5. */
  lemma SboxOfRow5_3()
    ensures Sbox(0xe8) == 0x9b && Sbox(0xc0) == 0xba && Sbox(0x50) == 0x53 && Sbox(0x01) == 0x7c
  {
  }

  lemma SubBytes5()
    ensures Fips197.SubBytes(Start5) == AfterSubBytes5
  {
    SboxOfRow5_0(); SboxOfRow5_1(); SboxOfRow5_2(); SboxOfRow5_3();
    SameState(Fips197.SubBytes(Start5), AfterSubBytes5);
  }

  lemma ShiftRows5()
    ensures Fips197.ShiftRows(AfterSubBytes5) == AfterShiftRows5
  {
    SameState(Fips197.ShiftRows(AfterSubBytes5), AfterShiftRows5);
  }

  lemma MixColumn5_0()
    ensures Fips197.MixColumn(Column(AfterShiftRows5, 0)) == [0x25, 0xd1, 0xa9, 0xad]
  {
    assert Column(AfterShiftRows5, 0) == [0xe1, 0xfb, 0x96, 0x7c];
    FieldMulSmall(0xe1); FieldMulSmall(0xfb); FieldMulSmall(0x96); FieldMulSmall(0x7c);
  }

  lemma MixColumn5_1()
    ensures Fips197.MixColumn(Column(AfterShiftRows5, 1)) == [0xbd, 0x11, 0xd1, 0x68]
  {
    assert Column(AfterShiftRows5, 1) == [0xe8, 0xc8, 0xae, 0x9b];
    FieldMulSmall(0xe8); FieldMulSmall(0xc8); FieldMulSmall(0xae); FieldMulSmall(0x9b);
  }

  lemma MixColumn5_2()
    ensures Fips197.MixColumn(Column(AfterShiftRows5, 2)) == [0xb6, 0x3a, 0x33, 0x8e]
  {
    assert Column(AfterShiftRows5, 2) == [0x35, 0x6c, 0xd2, 0xba];
    FieldMulSmall(0x35); FieldMulSmall(0x6c); FieldMulSmall(0xd2); FieldMulSmall(0xba);
  }

  lemma MixColumn5_3()
    ensures Fips197.MixColumn(Column(AfterShiftRows5, 3)) == [0x4c, 0x4c, 0xc0, 0xb0]
  {
    assert Column(AfterShiftRows5, 3) == [0x97, 0x4f, 0xfb, 0x53];
    FieldMulSmall(0x97); FieldMulSmall(0x4f); FieldMulSmall(0xfb); FieldMulSmall(0x53);
  }

  lemma MixColumns5()
    ensures Fips197.MixColumns(AfterShiftRows5) == AfterMixColumns5
  {
    MixColumn5_0(); MixColumn5_1(); MixColumn5_2(); MixColumn5_3();
    SameState(Fips197.MixColumns(AfterShiftRows5), AfterMixColumns5);
  }

  lemma AddRoundKey5()
    ensures Fips197.AddRoundKey(AfterMixColumns5, K5) == Start6
  {
    SameState(Fips197.AddRoundKey(AfterMixColumns5, K5), Start6);
  }

  /** Round 5 takes the start of round 5 to the start of round 6. */
  lemma Round5()
    ensures Fips197.Round(Start5, K5) == Start6
  {
    SubBytes5(); ShiftRows5(); MixColumns5(); AddRoundKey5();
  }

  /** The S-box images of row 0 of the state at the start of round 6. */
  lemma SboxOfRow6_0()
    ensures Sbox(0xf1) == 0xa1 && Sbox(0xc1) == 0x78 && Sbox(0x7c) == 0x10 && Sbox(0x5d) == 0x4c
  {
  }

  /** The S-box images of row 1 of the state at the start of round 6. */
  lemma SboxOfRow6_1()
    ensures Sbox(0x00) == 0x63 && Sbox(0x92) == 0x4f && Sbox(0xc8) == 0xe8 && Sbox(0xb5) == 0xd5
  {
  }

  /** The S-box images of row 2 of the state at the start of round 6. */
  lemma SboxOfRow6_2()
    ensures Sbox(0x6f) == 0xa8 && Sbox(0x4c) == 0x29 && Sbox(0x8b) == 0x3d && Sbox(0xd5) == 0x03
  {
  }

  /** The S-box images of row 3 of the state at the start of round 6. */
  lemma SboxOfRow6_3()
    ensures Sbox(0x55) == 0xfc && Sbox(0xef) == 0xdf && Sbox(0x32) == 0x23 && Sbox(0x0c) == 0xfe
  {
  }

  lemma SubBytes6()
    ensures Fips197.SubBytes(Start6) == AfterSubBytes6
  {
    SboxOfRow6_0(); SboxOfRow6_1(); SboxOfRow6_2(); SboxOfRow6_3();
    SameState(Fips197.SubBytes(Start6), AfterSubBytes6);
  }

  lemma ShiftRows6()
    ensures Fips197.ShiftRows(AfterSubBytes6) == AfterShiftRows6
  {
    SameState(Fips197.ShiftRows(AfterSubBytes6), AfterShiftRows6);
  }

  lemma MixColumn6_0()
    ensures Fips197.MixColumn(Column(AfterShiftRows6, 0)) == [0x4b, 0x86, 0x8d, 0x6d]
  {
    assert Column(AfterShiftRows6, 0) == [0xa1, 0x4f, 0x3d, 0xfe];
    FieldMulSmall(0xa1); FieldMulSmall(0x4f); FieldMulSmall(0x3d); FieldMulSmall(0xfe);
  }

  lemma MixColumn6_1()
    ensures Fips197.MixColumn(Column(AfterShiftRows6, 1)) == [0x2c, 0x4a, 0x89, 0x80]
  {
    assert Column(AfterShiftRows6, 1) == [0x78, 0xe8, 0x03, 0xfc];
    FieldMulSmall(0x78); FieldMulSmall(0xe8); FieldMulSmall(0x03); FieldMulSmall(0xfc);
  }

  lemma MixColumn6_2()
    ensures Fips197.MixColumn(Column(AfterShiftRows6, 2)) == [0x33, 0x9d, 0xf4, 0xe8]
  {
    assert Column(AfterShiftRows6, 2) == [0x10, 0xd5, 0xa8, 0xdf];
    FieldMulSmall(0x10); FieldMulSmall(0xd5); FieldMulSmall(0xa8); FieldMulSmall(0xdf);
  }

  lemma MixColumn6_3()
    ensures Fips197.MixColumn(Column(AfterShiftRows6, 3)) == [0x37, 0xd2, 0x18, 0xd8]
  {
    assert Column(AfterShiftRows6, 3) == [0x4c, 0x63, 0x29, 0x23];
    FieldMulSmall(0x4c); FieldMulSmall(0x63); FieldMulSmall(0x29); FieldMulSmall(0x23);
  }

  lemma MixColumns6()
    ensures Fips197.MixColumns(AfterShiftRows6) == AfterMixColumns6
  {
    MixColumn6_0(); MixColumn6_1(); MixColumn6_2(); MixColumn6_3();
    SameState(Fips197.MixColumns(AfterShiftRows6), AfterMixColumns6);
  }

  lemma AddRoundKey6()
    ensures Fips197.AddRoundKey(AfterMixColumns6, K6) == Start7
  {
    SameState(Fips197.AddRoundKey(AfterMixColumns6, K6), Start7);
  }

  /** Round 6 takes the start of round 6 to the start of round 7. */
  lemma Round6()
    ensures Fips197.Round(Start6, K6) == Start7
  {
    SubBytes6(); ShiftRows6(); MixColumns6(); AddRoundKey6();
  }

  /** The S-box images of row 0 of the state at the start of round 7. */
  lemma SboxOfRow7_0()
    ensures Sbox(0x26) == 0xf7 && Sbox(0x3d) == 0x27 && Sbox(0xe8) == 0x9b && Sbox(0xfd) == 0x54
  {
  }

  /** The S-box images of row 1 of the state at the start of round 7. */
  lemma SboxOfRow7_1()
    ensures Sbox(0x0e) == 0xab && Sbox(0x41) == 0x83 && Sbox(0x64) == 0x43 && Sbox(0xd2) == 0xb5
  {
  }

  /** The S-box images of row 2 of the state at the start of round 7. */
  lemma SboxOfRow7_2()
    ensures Sbox(0x2e) == 0x31 && Sbox(0xb7) == 0xa9 && Sbox(0x72) == 0x40 && Sbox(0x8b) == 0x3d
  {
  }

  /** The S-box images of row 3 of the state at the start of round 7. */
  lemma SboxOfRow7_3()
    ensures Sbox(0x17) == 0xf0 && Sbox(0x7d) == 0xff && Sbox(0xa9) == 0xd3 && Sbox(0x25) == 0x3f
  {
  }

  lemma SubBytes7()
    ensures Fips197.SubBytes(Start7) == AfterSubBytes7
  {
    SboxOfRow7_0(); SboxOfRow7_1(); SboxOfRow7_2(); SboxOfRow7_3();
    SameState(Fips197.SubBytes(Start7), AfterSubBytes7);
  }

  lemma ShiftRows7()
    ensures Fips197.ShiftRows(AfterSubBytes7) == AfterShiftRows7
  {
    SameState(Fips197.ShiftRows(AfterSubBytes7), AfterShiftRows7);
  }

  lemma MixColumn7_0()
    ensures Fips197.MixColumn(Column(AfterShiftRows7, 0)) == [0x14, 0x15, 0xb5, 0xbf]
  {
    assert Column(AfterShiftRows7, 0) == [0xf7, 0x83, 0x40, 0x3f];
    FieldMulSmall(0xf7); FieldMulSmall(0x83); FieldMulSmall(0x40); FieldMulSmall(0x3f);
  }

  lemma MixColumn7_1()
    ensures Fips197.MixColumn(Column(AfterShiftRows7, 1)) == [0x46, 0x16, 0x15, 0xec]
  {
    assert Column(AfterShiftRows7, 1) == [0x27, 0x43, 0x3d, 0xf0];
    FieldMulSmall(0x27); FieldMulSmall(0x43); FieldMulSmall(0x3d); FieldMulSmall(0xf0);
  }

  lemma MixColumn7_2()
    ensures Fips197.MixColumn(Column(AfterShiftRows7, 2)) == [0x27, 0x46, 0x56, 0xd7]
  {
    assert Column(AfterShiftRows7, 2) == [0x9b, 0xb5, 0x31, 0xff];
    FieldMulSmall(0x9b); FieldMulSmall(0xb5); FieldMulSmall(0x31); FieldMulSmall(0xff);
  }

  lemma MixColumn7_3()
    ensures Fips197.MixColumn(Column(AfterShiftRows7, 3)) == [0x34, 0x2a, 0xd8, 0x43]
  {
    assert Column(AfterShiftRows7, 3) == [0x54, 0xab, 0xa9, 0xd3];
    FieldMulSmall(0x54); FieldMulSmall(0xab); FieldMulSmall(0xa9); FieldMulSmall(0xd3);
  }

  lemma MixColumns7()
    ensures Fips197.MixColumns(AfterShiftRows7) == AfterMixColumns7
  {
    MixColumn7_0(); MixColumn7_1(); MixColumn7_2(); MixColumn7_3();
    SameState(Fips197.MixColumns(AfterShiftRows7), AfterMixColumns7);
  }

  lemma AddRoundKey7()
    ensures Fips197.AddRoundKey(AfterMixColumns7, K7) == Start8
  {
    SameState(Fips197.AddRoundKey(AfterMixColumns7, K7), Start8);
  }

  /** Round 7 takes the start of round 7 to the start of round 8. */
  lemma Round7()
    ensures Fips197.Round(Start7, K7) == Start8
  {
    SubBytes7(); ShiftRows7(); MixColumns7(); AddRoundKey7();
  }

  /** The S-box images of row 0 of the state at the start of round 8. */
  lemma SboxOfRow8_0()
    ensures Sbox(0x5a) == 0xbe && Sbox(0x19) == 0xd4 && Sbox(0xa3) == 0x0a && Sbox(0x7a) == 0xda
  {
  }

  /** The S-box images of row 1 of the state at the start of round 8. */
  lemma SboxOfRow8_1()
    ensures Sbox(0x41) == 0x83 && Sbox(0x49) == 0x3b && Sbox(0xe0) == 0xe1 && Sbox(0x8c) == 0x64
  {
  }

  /** The S-box images of row 2 of the state at the start of round 8. */
  lemma SboxOfRow8_2()
    ensures Sbox(0x42) == 0x2c && Sbox(0xdc) == 0x86 && Sbox(0x19) == 0xd4 && Sbox(0x04) == 0xf2
  {
  }

  /** The S-box images of row 3 of the state at the start of round 8. */
  lemma SboxOfRow8_3()
    ensures Sbox(0xb1) == 0xc8 && Sbox(0x1f) == 0xc0 && Sbox(0x65) == 0x4d && Sbox(0x0c) == 0xfe
  {
  }

  lemma SubBytes8()
    ensures Fips197.SubBytes(Start8) == AfterSubBytes8
  {
    SboxOfRow8_0(); SboxOfRow8_1(); SboxOfRow8_2(); SboxOfRow8_3();
    SameState(Fips197.SubBytes(Start8), AfterSubBytes8);
  }

  lemma ShiftRows8()
    ensures Fips197.ShiftRows(AfterSubBytes8) == AfterShiftRows8
  {
    SameState(Fips197.ShiftRows(AfterSubBytes8), AfterShiftRows8);
  }

  lemma MixColumn8_0()
    ensures Fips197.MixColumn(Column(AfterShiftRows8, 0)) == [0x00, 0x51, 0x2f, 0xd1]
  {
    assert Column(AfterShiftRows8, 0) == [0xbe, 0x3b, 0xd4, 0xfe];
    FieldMulSmall(0xbe); FieldMulSmall(0x3b); FieldMulSmall(0xd4); FieldMulSmall(0xfe);
  }

  lemma MixColumn8_1()
    ensures Fips197.MixColumn(Column(AfterShiftRows8, 1)) == [0xb1, 0xc8, 0x89, 0xff]
  {
    assert Column(AfterShiftRows8, 1) == [0xd4, 0xe1, 0xf2, 0xc8];
    FieldMulSmall(0xd4); FieldMulSmall(0xe1); FieldMulSmall(0xf2); FieldMulSmall(0xc8);
  }

  lemma MixColumn8_2()
    ensures Fips197.MixColumn(Column(AfterShiftRows8, 2)) == [0x54, 0x76, 0x6d, 0xcd]
  {
    assert Column(AfterShiftRows8, 2) == [0x0a, 0x64, 0x2c, 0xc0];
    FieldMulSmall(0x0a); FieldMulSmall(0x64); FieldMulSmall(0x2c); FieldMulSmall(0xc0);
  }

  lemma MixColumn8_3()
    ensures Fips197.MixColumn(Column(AfterShiftRows8, 3)) == [0xfa, 0x1b, 0x99, 0xea]
  {
    assert Column(AfterShiftRows8, 3) == [0xda, 0x83, 0x86, 0x4d];
    FieldMulSmall(0xda); FieldMulSmall(0x83); FieldMulSmall(0x86); FieldMulSmall(0x4d);
  }

  lemma MixColumns8()
    ensures Fips197.MixColumns(AfterShiftRows8) == AfterMixColumns8
  {
    MixColumn8_0(); MixColumn8_1(); MixColumn8_2(); MixColumn8_3();
    SameState(Fips197.MixColumns(AfterShiftRows8), AfterMixColumns8);
  }

  lemma AddRoundKey8()
    ensures Fips197.AddRoundKey(AfterMixColumns8, K8) == Start9
  {
    SameState(Fips197.AddRoundKey(AfterMixColumns8, K8), Start9);
  }

  /** Round 8 takes the start of round 8 to the start of round 9. */
  lemma Round8()
    ensures Fips197.Round(Start8, K8) == Start9
  {
    SubBytes8(); ShiftRows8(); MixColumns8(); AddRoundKey8();
  }

  /** The S-box images of row 0 of the state at the start of round 9. */
  lemma SboxOfRow9_0()
    ensures Sbox(0xea) == 0x87 && Sbox(0x04) == 0xf2 && Sbox(0x65) == 0x4d && Sbox(0x85) == 0x97
  {
  }

  /** The S-box images of row 1 of the state at the start of round 9. */
  lemma SboxOfRow9_1()
    ensures Sbox(0x83) == 0xec && Sbox(0x45) == 0x6e && Sbox(0x5d) == 0x4c && Sbox(0x96) == 0x90
  {
  }

  /** The S-box images of row 2 of the state at the start of round 9. */
  lemma SboxOfRow9_2()
    ensures Sbox(0x5c) == 0x4a && Sbox(0x33) == 0xc3 && Sbox(0x98) == 0x46 && Sbox(0xb0) == 0xe7
  {
  }

  /** The S-box images of row 3 of the state at the start of round 9. */
  lemma SboxOfRow9_3()
    ensures Sbox(0xf0) == 0x8c && Sbox(0x2d) == 0xd8 && Sbox(0xad) == 0x95 && Sbox(0xc5) == 0xa6
  {
  }

  lemma SubBytes9()
    ensures Fips197.SubBytes(Start9) == AfterSubBytes9
  {
    SboxOfRow9_0(); SboxOfRow9_1(); SboxOfRow9_2(); SboxOfRow9_3();
    SameState(Fips197.SubBytes(Start9), AfterSubBytes9);
  }

  lemma ShiftRows9()
    ensures Fips197.ShiftRows(AfterSubBytes9) == AfterShiftRows9
  {
    SameState(Fips197.ShiftRows(AfterSubBytes9), AfterShiftRows9);
  }

  lemma MixColumn9_0()
    ensures Fips197.MixColumn(Column(AfterShiftRows9, 0)) == [0x47, 0x37, 0x94, 0xed]
  {
    assert Column(AfterShiftRows9, 0) == [0x87, 0x6e, 0x46, 0xa6];
    FieldMulSmall(0x87); FieldMulSmall(0x6e); FieldMulSmall(0x46); FieldMulSmall(0xa6);
  }

  lemma MixColumn9_1()
    ensures Fips197.MixColumn(Column(AfterShiftRows9, 1)) == [0x40, 0xd4, 0xe4, 0xa5]
  {
    assert Column(AfterShiftRows9, 1) == [0xf2, 0x4c, 0xe7, 0x8c];
    FieldMulSmall(0xf2); FieldMulSmall(0x4c); FieldMulSmall(0xe7); FieldMulSmall(0x8c);
  }

  lemma MixColumn9_2()
    ensures Fips197.MixColumn(Column(AfterShiftRows9, 2)) == [0xa3, 0x70, 0x3a, 0xa6]
  {
    assert Column(AfterShiftRows9, 2) == [0x4d, 0x90, 0x4a, 0xd8];
    FieldMulSmall(0x4d); FieldMulSmall(0x90); FieldMulSmall(0x4a); FieldMulSmall(0xd8);
  }

  lemma MixColumn9_3()
    ensures Fips197.MixColumn(Column(AfterShiftRows9, 3)) == [0x4c, 0x9f, 0x42, 0xbc]
  {
    assert Column(AfterShiftRows9, 3) == [0x97, 0xec, 0xc3, 0x95];
    FieldMulSmall(0x97); FieldMulSmall(0xec); FieldMulSmall(0xc3); FieldMulSmall(0x95);
  }

  lemma MixColumns9()
    ensures Fips197.MixColumns(AfterShiftRows9) == AfterMixColumns9
  {
    MixColumn9_0(); MixColumn9_1(); MixColumn9_2(); MixColumn9_3();
    SameState(Fips197.MixColumns(AfterShiftRows9), AfterMixColumns9);
  }

  lemma AddRoundKey9()
    ensures Fips197.AddRoundKey(AfterMixColumns9, K9) == Start10
  {
    SameState(Fips197.AddRoundKey(AfterMixColumns9, K9), Start10);
  }

  /** Round 9 takes the start of round 9 to the start of round 10. */
  lemma Round9()
    ensures Fips197.Round(Start9, K9) == Start10
  {
    SubBytes9(); ShiftRows9(); MixColumns9(); AddRoundKey9();
  }

  /** The S-box images of row 0 of the state at the start of round 10. */
  lemma SboxOfRow10_0()
    ensures Sbox(0xeb) == 0xe9 && Sbox(0x59) == 0xcb && Sbox(0x8b) == 0x3d && Sbox(0x1b) == 0xaf
  {
  }

  /** The S-box images of row 1 of the state at the start of round 10. */
  lemma SboxOfRow10_1()
    ensures Sbox(0x40) == 0x09 && Sbox(0x2e) == 0x31 && Sbox(0xa1) == 0x32 && Sbox(0xc3) == 0x2e
  {
  }

  /** The S-box images of row 2 of the state at the start of round 10. */
  lemma SboxOfRow10_2()
    ensures Sbox(0xf2) == 0x89 && Sbox(0x38) == 0x07 && Sbox(0x13) == 0x7d && Sbox(0x42) == 0x2c
  {
  }

  /** The S-box images of row 3 of the state at the start of round 10. */
  lemma SboxOfRow10_3()
    ensures Sbox(0x1e) == 0x72 && Sbox(0x84) == 0x5f && Sbox(0xe7) == 0x94 && Sbox(0xd2) == 0xb5
  {
  }

  lemma SubBytes10()
    ensures Fips197.SubBytes(Start10) == AfterSubBytes10
  {
    SboxOfRow10_0(); SboxOfRow10_1(); SboxOfRow10_2(); SboxOfRow10_3();
    SameState(Fips197.SubBytes(Start10), AfterSubBytes10);
  }

  lemma ShiftRows10()
    ensures Fips197.ShiftRows(AfterSubBytes10) == AfterShiftRows10
  {
    SameState(Fips197.ShiftRows(AfterSubBytes10), AfterShiftRows10);
  }

  lemma AddRoundKey10()
    ensures Fips197.AddRoundKey(AfterShiftRows10, K10) == Output
  {
    SameState(Fips197.AddRoundKey(AfterShiftRows10, K10), Output);
  }

  /** The last round takes the start of round 10 to the output. */
  lemma LastRound()
    ensures Fips197.FinalRound(Start10, K10) == Output
  {
    SubBytes10(); ShiftRows10(); AddRoundKey10();
  }

  lemma Rounds0(key: seq<Byte>)
    requires IsKey(key)
    ensures Fips197.Rounds(Start1, Fips197.KeyExpansion(key), 0) == Start1
  {
  }

  lemma Rounds1(key: seq<Byte>)
    requires IsKey(key)
    ensures Fips197.Rounds(Start1, Fips197.KeyExpansion(key), 1) == Start2
  {
    Rounds0(key); RoundKey1(key); Round1();
  }

  lemma Rounds2(key: seq<Byte>)
    requires IsKey(key)
    ensures Fips197.Rounds(Start1, Fips197.KeyExpansion(key), 2) == Start3
  {
    Rounds1(key); RoundKey2(key); Round2();
  }

  lemma Rounds3(key: seq<Byte>)
    requires IsKey(key)
    ensures Fips197.Rounds(Start1, Fips197.KeyExpansion(key), 3) == Start4
  {
    Rounds2(key); RoundKey3(key); Round3();
  }

  lemma Rounds4(key: seq<Byte>)
    requires IsKey(key)
    ensures Fips197.Rounds(Start1, Fips197.KeyExpansion(key), 4) == Start5
  {
    Rounds3(key); RoundKey4(key); Round4();
  }

  lemma Rounds5(key: seq<Byte>)
    requires IsKey(key)
    ensures Fips197.Rounds(Start1, Fips197.KeyExpansion(key), 5) == Start6
  {
    Rounds4(key); RoundKey5(key); Round5();
  }

  lemma Rounds6(key: seq<Byte>)
    requires IsKey(key)
    ensures Fips197.Rounds(Start1, Fips197.KeyExpansion(key), 6) == Start7
  {
    Rounds5(key); RoundKey6(key); Round6();
  }

  lemma Rounds7(key: seq<Byte>)
    requires IsKey(key)
    ensures Fips197.Rounds(Start1, Fips197.KeyExpansion(key), 7) == Start8
  {
    Rounds6(key); RoundKey7(key); Round7();
  }

  lemma Rounds8(key: seq<Byte>)
    requires IsKey(key)
    ensures Fips197.Rounds(Start1, Fips197.KeyExpansion(key), 8) == Start9
  {
    Rounds7(key); RoundKey8(key); Round8();
  }

  lemma Rounds9(key: seq<Byte>)
    requires IsKey(key)
    ensures Fips197.Rounds(Start1, Fips197.KeyExpansion(key), 9) == Start10
  {
    Rounds8(key); RoundKey9(key); Round9();
  }

  /** Figure 5 on the example: initial AddRoundKey, rounds 1 to 9 and the last round end in the output state. */
  lemma EncryptStateVector(plain: seq<Byte>, key: seq<Byte>)
    requires IsPlain(plain) && IsKey(key)
    ensures Fips197.EncryptState(LoadBlock(plain), Fips197.KeyExpansion(key)) == Output
  {
    RoundKey0(key); InitialAddRoundKey(plain); Rounds9(key); RoundKey10(key); LastRound();
  }

  /** Appendix B: the reference cipher maps the example plaintext and key to the published ciphertext. */
  lemma CipherVector(plain: seq<Byte>, key: seq<Byte>)
    requires IsPlain(plain) && IsKey(key)
    ensures Fips197.Cipher(plain, key) == Expected
  {
    EncryptStateVector(plain, key);
    OutputBlock();
  }

  /** The state after the last round, read out column by column, is the published ciphertext. */
  lemma OutputBlock()
    ensures StoreBlock(Output) == Expected
  {
    assert Column(Output, 0) == Expected[0 .. 4] && Column(Output, 1) == Expected[4 .. 8];
    assert Column(Output, 2) == Expected[8 .. 12] && Column(Output, 3) == Expected[12 .. 16];
    assert Expected == Expected[0 .. 4] + Expected[4 .. 8] + Expected[8 .. 12] + Expected[12 .. 16];
  }

  /** main's result on the inputs at encrypt.py:174-175 (the example plaintext and key) is proved to be the published ciphertext. */
  method EncryptVector(pText: seq<Byte>, oKey: seq<Byte>) returns (r: Option<State>)
    requires IsPlain(pText) && IsKey(oKey)
    ensures r.Some? && StoreBlock(r.value) == Expected
  {
    r := Encrypt.EncryptBlock(pText, oKey);
    CipherVector(pText, oKey);
  }
}
