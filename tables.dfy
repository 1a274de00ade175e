/**
 * The constant tables of the cipher, as published in FIPS-197: the S-box
 * (section 5.1.1, Figure 7), the round constants (section 5.2) and the
 * MixColumns coefficient matrix (section 5.1.3, equation 5.6).
 */
module Tables {
  import opened AesTypes

  /** Row 0 of Figure 7 of FIPS-197: entry y is the image of the byte 0x0y. */
  function SboxRow0(y: int): Byte
  {
    if y == 0 then 0x63 else if y == 1 then 0x7c else if y == 2 then 0x77 else if y == 3 then 0x7b else if y == 4 then 0xf2 else if y == 5 then 0x6b else if y == 6 then 0x6f else if y == 7 then 0xc5 else if y == 8 then 0x30 else if y == 9 then 0x01 else if y == 10 then 0x67 else if y == 11 then 0x2b else if y == 12 then 0xfe else if y == 13 then 0xd7 else if y == 14 then 0xab
    else 0x76
  }

  /** Row 1 of Figure 7 of FIPS-197: entry y is the image of the byte 0x1y. */
  function SboxRow1(y: int): Byte
  {
    if y == 0 then 0xca else if y == 1 then 0x82 else if y == 2 then 0xc9 else if y == 3 then 0x7d else if y == 4 then 0xfa else if y == 5 then 0x59 else if y == 6 then 0x47 else if y == 7 then 0xf0 else if y == 8 then 0xad else if y == 9 then 0xd4 else if y == 10 then 0xa2 else if y == 11 then 0xaf else if y == 12 then 0x9c else if y == 13 then 0xa4 else if y == 14 then 0x72
    else 0xc0
  }

  /** Row 2 of Figure 7 of FIPS-197: entry y is the image of the byte 0x2y. */
  function SboxRow2(y: int): Byte
  {
    if y == 0 then 0xb7 else if y == 1 then 0xfd else if y == 2 then 0x93 else if y == 3 then 0x26 else if y == 4 then 0x36 else if y == 5 then 0x3f else if y == 6 then 0xf7 else if y == 7 then 0xcc else if y == 8 then 0x34 else if y == 9 then 0xa5 else if y == 10 then 0xe5 else if y == 11 then 0xf1 else if y == 12 then 0x71 else if y == 13 then 0xd8 else if y == 14 then 0x31
    else 0x15
  }

  /** Row 3 of Figure 7 of FIPS-197: entry y is the image of the byte 0x3y. */
  function SboxRow3(y: int): Byte
  {
    if y == 0 then 0x04 else if y == 1 then 0xc7 else if y == 2 then 0x23 else if y == 3 then 0xc3 else if y == 4 then 0x18 else if y == 5 then 0x96 else if y == 6 then 0x05 else if y == 7 then 0x9a else if y == 8 then 0x07 else if y == 9 then 0x12 else if y == 10 then 0x80 else if y == 11 then 0xe2 else if y == 12 then 0xeb else if y == 13 then 0x27 else if y == 14 then 0xb2
    else 0x75
  }

  /** Row 4 of Figure 7 of FIPS-197: entry y is the image of the byte 0x4y. */
  function SboxRow4(y: int): Byte
  {
    if y == 0 then 0x09 else if y == 1 then 0x83 else if y == 2 then 0x2c else if y == 3 then 0x1a else if y == 4 then 0x1b else if y == 5 then 0x6e else if y == 6 then 0x5a else if y == 7 then 0xa0 else if y == 8 then 0x52 else if y == 9 then 0x3b else if y == 10 then 0xd6 else if y == 11 then 0xb3 else if y == 12 then 0x29 else if y == 13 then 0xe3 else if y == 14 then 0x2f
    else 0x84
  }

  /** Row 5 of Figure 7 of FIPS-197: entry y is the image of the byte 0x5y. */
  function SboxRow5(y: int): Byte
  {
    if y == 0 then 0x53 else if y == 1 then 0xd1 else if y == 2 then 0x00 else if y == 3 then 0xed else if y == 4 then 0x20 else if y == 5 then 0xfc else if y == 6 then 0xb1 else if y == 7 then 0x5b else if y == 8 then 0x6a else if y == 9 then 0xcb else if y == 10 then 0xbe else if y == 11 then 0x39 else if y == 12 then 0x4a else if y == 13 then 0x4c else if y == 14 then 0x58
    else 0xcf
  }

  /** Row 6 of Figure 7 of FIPS-197: entry y is the image of the byte 0x6y. */
  function SboxRow6(y: int): Byte
  {
    if y == 0 then 0xd0 else if y == 1 then 0xef else if y == 2 then 0xaa else if y == 3 then 0xfb else if y == 4 then 0x43 else if y == 5 then 0x4d else if y == 6 then 0x33 else if y == 7 then 0x85 else if y == 8 then 0x45 else if y == 9 then 0xf9 else if y == 10 then 0x02 else if y == 11 then 0x7f else if y == 12 then 0x50 else if y == 13 then 0x3c else if y == 14 then 0x9f
    else 0xa8
  }

  /** Row 7 of Figure 7 of FIPS-197: entry y is the image of the byte 0x7y. */
  function SboxRow7(y: int): Byte
  {
    if y == 0 then 0x51 else if y == 1 then 0xa3 else if y == 2 then 0x40 else if y == 3 then 0x8f else if y == 4 then 0x92 else if y == 5 then 0x9d else if y == 6 then 0x38 else if y == 7 then 0xf5 else if y == 8 then 0xbc else if y == 9 then 0xb6 else if y == 10 then 0xda else if y == 11 then 0x21 else if y == 12 then 0x10 else if y == 13 then 0xff else if y == 14 then 0xf3
    else 0xd2
  }

  /** Row 8 of Figure 7 of FIPS-197: entry y is the image of the byte 0x8y. */
  function SboxRow8(y: int): Byte
  {
    if y == 0 then 0xcd else if y == 1 then 0x0c else if y == 2 then 0x13 else if y == 3 then 0xec else if y == 4 then 0x5f else if y == 5 then 0x97 else if y == 6 then 0x44 else if y == 7 then 0x17 else if y == 8 then 0xc4 else if y == 9 then 0xa7 else if y == 10 then 0x7e else if y == 11 then 0x3d else if y == 12 then 0x64 else if y == 13 then 0x5d else if y == 14 then 0x19
    else 0x73
  }

  /** Row 9 of Figure 7 of FIPS-197: entry y is the image of the byte 0x9y. */
  function SboxRow9(y: int): Byte
  {
    if y == 0 then 0x60 else if y == 1 then 0x81 else if y == 2 then 0x4f else if y == 3 then 0xdc else if y == 4 then 0x22 else if y == 5 then 0x2a else if y == 6 then 0x90 else if y == 7 then 0x88 else if y == 8 then 0x46 else if y == 9 then 0xee else if y == 10 then 0xb8 else if y == 11 then 0x14 else if y == 12 then 0xde else if y == 13 then 0x5e else if y == 14 then 0x0b
    else 0xdb
  }

  /** Row A of Figure 7 of FIPS-197: entry y is the image of the byte 0xAy. */
  function SboxRowA(y: int): Byte
  {
    if y == 0 then 0xe0 else if y == 1 then 0x32 else if y == 2 then 0x3a else if y == 3 then 0x0a else if y == 4 then 0x49 else if y == 5 then 0x06 else if y == 6 then 0x24 else if y == 7 then 0x5c else if y == 8 then 0xc2 else if y == 9 then 0xd3 else if y == 10 then 0xac else if y == 11 then 0x62 else if y == 12 then 0x91 else if y == 13 then 0x95 else if y == 14 then 0xe4
    else 0x79
  }

  /** Row B of Figure 7 of FIPS-197: entry y is the image of the byte 0xBy. */
  function SboxRowB(y: int): Byte
  {
    if y == 0 then 0xe7 else if y == 1 then 0xc8 else if y == 2 then 0x37 else if y == 3 then 0x6d else if y == 4 then 0x8d else if y == 5 then 0xd5 else if y == 6 then 0x4e else if y == 7 then 0xa9 else if y == 8 then 0x6c else if y == 9 then 0x56 else if y == 10 then 0xf4 else if y == 11 then 0xea else if y == 12 then 0x65 else if y == 13 then 0x7a else if y == 14 then 0xae
    else 0x08
  }

  /** Row C of Figure 7 of FIPS-197: entry y is the image of the byte 0xCy. */
  function SboxRowC(y: int): Byte
  {
    if y == 0 then 0xba else if y == 1 then 0x78 else if y == 2 then 0x25 else if y == 3 then 0x2e else if y == 4 then 0x1c else if y == 5 then 0xa6 else if y == 6 then 0xb4 else if y == 7 then 0xc6 else if y == 8 then 0xe8 else if y == 9 then 0xdd else if y == 10 then 0x74 else if y == 11 then 0x1f else if y == 12 then 0x4b else if y == 13 then 0xbd else if y == 14 then 0x8b
    else 0x8a
  }

  /** Row D of Figure 7 of FIPS-197: entry y is the image of the byte 0xDy. */
  function SboxRowD(y: int): Byte
  {
    if y == 0 then 0x70 else if y == 1 then 0x3e else if y == 2 then 0xb5 else if y == 3 then 0x66 else if y == 4 then 0x48 else if y == 5 then 0x03 else if y == 6 then 0xf6 else if y == 7 then 0x0e else if y == 8 then 0x61 else if y == 9 then 0x35 else if y == 10 then 0x57 else if y == 11 then 0xb9 else if y == 12 then 0x86 else if y == 13 then 0xc1 else if y == 14 then 0x1d
    else 0x9e
  }

  /** Row E of Figure 7 of FIPS-197: entry y is the image of the byte 0xEy. */
  function SboxRowE(y: int): Byte
  {
    if y == 0 then 0xe1 else if y == 1 then 0xf8 else if y == 2 then 0x98 else if y == 3 then 0x11 else if y == 4 then 0x69 else if y == 5 then 0xd9 else if y == 6 then 0x8e else if y == 7 then 0x94 else if y == 8 then 0x9b else if y == 9 then 0x1e else if y == 10 then 0x87 else if y == 11 then 0xe9 else if y == 12 then 0xce else if y == 13 then 0x55 else if y == 14 then 0x28
    else 0xdf
  }

  /** Row F of Figure 7 of FIPS-197: entry y is the image of the byte 0xFy. */
  function SboxRowF(y: int): Byte
  {
    if y == 0 then 0x8c else if y == 1 then 0xa1 else if y == 2 then 0x89 else if y == 3 then 0x0d else if y == 4 then 0xbf else if y == 5 then 0xe6 else if y == 6 then 0x42 else if y == 7 then 0x68 else if y == 8 then 0x41 else if y == 9 then 0x99 else if y == 10 then 0x2d else if y == 11 then 0x0f else if y == 12 then 0xb0 else if y == 13 then 0x54 else if y == 14 then 0xbb
    else 0x16
  }

  /** The S-box of section 5.1.1: byte b is entry b mod 16 of row b / 16 of Figure 7. */
  function Sbox(b: Byte): Byte
  {
    var i := b as int;
    if i < 16 then SboxRow0(i)
    else if i < 32 then SboxRow1(i - 16)
    else if i < 48 then SboxRow2(i - 32)
    else if i < 64 then SboxRow3(i - 48)
    else if i < 80 then SboxRow4(i - 64)
    else if i < 96 then SboxRow5(i - 80)
    else if i < 112 then SboxRow6(i - 96)
    else if i < 128 then SboxRow7(i - 112)
    else if i < 144 then SboxRow8(i - 128)
    else if i < 160 then SboxRow9(i - 144)
    else if i < 176 then SboxRowA(i - 160)
    else if i < 192 then SboxRowB(i - 176)
    else if i < 208 then SboxRowC(i - 192)
    else if i < 224 then SboxRowD(i - 208)
    else if i < 240 then SboxRowE(i - 224)
    else SboxRowF(i - 240)
  }

  /** Round constants: Rcon[i] is x^(i-1) in GF(2^8); index 0 is never read by the key schedule. */
  const Rcon: seq<Byte> := [0x00, 0x01, 0x02, 0x04, 0x08, 0x10, 0x20, 0x40, 0x80, 0x1b, 0x36]

  /** The circulant MixColumns matrix with rows {02,03,01,01} rotated right row by row. */
  const Gal: State := [
    [0x02, 0x03, 0x01, 0x01],
    [0x01, 0x02, 0x03, 0x01],
    [0x01, 0x01, 0x02, 0x03],
    [0x03, 0x01, 0x01, 0x02]
  ]
}
