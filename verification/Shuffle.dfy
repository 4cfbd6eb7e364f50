/** The 16-bit shuffle that orders records pseudo-randomly: four keyed rounds over two bytes. */
module Shuffle {
  import opened Bits

  // The substitution box, one function a row of sixteen.
  function Sbox0(c: nat): nat {
    match c
    case 0 => 0x63 case 1 => 0x7c case 2 => 0x77 case 3 => 0x7b
    case 4 => 0xf2 case 5 => 0x6b case 6 => 0x6f case 7 => 0xc5
    case 8 => 0x30 case 9 => 0x01 case 10 => 0x67 case 11 => 0x2b
    case 12 => 0xfe case 13 => 0xd7 case 14 => 0xab case _ => 0x76
  }
  function Sbox1(c: nat): nat {
    match c
    case 0 => 0xca case 1 => 0x82 case 2 => 0xc9 case 3 => 0x7d
    case 4 => 0xfa case 5 => 0x59 case 6 => 0x47 case 7 => 0xf0
    case 8 => 0xad case 9 => 0xd4 case 10 => 0xa2 case 11 => 0xaf
    case 12 => 0x9c case 13 => 0xa4 case 14 => 0x72 case _ => 0xc0
  }
  function Sbox2(c: nat): nat {
    match c
    case 0 => 0xb7 case 1 => 0xfd case 2 => 0x93 case 3 => 0x26
    case 4 => 0x36 case 5 => 0x3f case 6 => 0xf7 case 7 => 0xcc
    case 8 => 0x34 case 9 => 0xa5 case 10 => 0xe5 case 11 => 0xf1
    case 12 => 0x71 case 13 => 0xd8 case 14 => 0x31 case _ => 0x15
  }
  function Sbox3(c: nat): nat {
    match c
    case 0 => 0x04 case 1 => 0xc7 case 2 => 0x23 case 3 => 0xc3
    case 4 => 0x18 case 5 => 0x96 case 6 => 0x05 case 7 => 0x9a
    case 8 => 0x07 case 9 => 0x12 case 10 => 0x80 case 11 => 0xe2
    case 12 => 0xeb case 13 => 0x27 case 14 => 0xb2 case _ => 0x75
  }
  function Sbox4(c: nat): nat {
    match c
    case 0 => 0x09 case 1 => 0x83 case 2 => 0x2c case 3 => 0x1a
    case 4 => 0x1b case 5 => 0x6e case 6 => 0x5a case 7 => 0xa0
    case 8 => 0x52 case 9 => 0x3b case 10 => 0xd6 case 11 => 0xb3
    case 12 => 0x29 case 13 => 0xe3 case 14 => 0x2f case _ => 0x84
  }
  function Sbox5(c: nat): nat {
    match c
    case 0 => 0x53 case 1 => 0xd1 case 2 => 0x00 case 3 => 0xed
    case 4 => 0x20 case 5 => 0xfc case 6 => 0xb1 case 7 => 0x5b
    case 8 => 0x6a case 9 => 0xcb case 10 => 0xbe case 11 => 0x39
    case 12 => 0x4a case 13 => 0x4c case 14 => 0x58 case _ => 0xcf
  }
  function Sbox6(c: nat): nat {
    match c
    case 0 => 0xd0 case 1 => 0xef case 2 => 0xaa case 3 => 0xfb
    case 4 => 0x43 case 5 => 0x4d case 6 => 0x33 case 7 => 0x85
    case 8 => 0x45 case 9 => 0xf9 case 10 => 0x02 case 11 => 0x7f
    case 12 => 0x50 case 13 => 0x3c case 14 => 0x9f case _ => 0xa8
  }
  function Sbox7(c: nat): nat {
    match c
    case 0 => 0x51 case 1 => 0xa3 case 2 => 0x40 case 3 => 0x8f
    case 4 => 0x92 case 5 => 0x9d case 6 => 0x38 case 7 => 0xf5
    case 8 => 0xbc case 9 => 0xb6 case 10 => 0xda case 11 => 0x21
    case 12 => 0x10 case 13 => 0xff case 14 => 0xf3 case _ => 0xd2
  }
  function Sbox8(c: nat): nat {
    match c
    case 0 => 0xcd case 1 => 0x0c case 2 => 0x13 case 3 => 0xec
    case 4 => 0x5f case 5 => 0x97 case 6 => 0x44 case 7 => 0x17
    case 8 => 0xc4 case 9 => 0xa7 case 10 => 0x7e case 11 => 0x3d
    case 12 => 0x64 case 13 => 0x5d case 14 => 0x19 case _ => 0x73
  }
  function Sbox9(c: nat): nat {
    match c
    case 0 => 0x60 case 1 => 0x81 case 2 => 0x4f case 3 => 0xdc
    case 4 => 0x22 case 5 => 0x2a case 6 => 0x90 case 7 => 0x88
    case 8 => 0x46 case 9 => 0xee case 10 => 0xb8 case 11 => 0x14
    case 12 => 0xde case 13 => 0x5e case 14 => 0x0b case _ => 0xdb
  }
  function SboxA(c: nat): nat {
    match c
    case 0 => 0xe0 case 1 => 0x32 case 2 => 0x3a case 3 => 0x0a
    case 4 => 0x49 case 5 => 0x06 case 6 => 0x24 case 7 => 0x5c
    case 8 => 0xc2 case 9 => 0xd3 case 10 => 0xac case 11 => 0x62
    case 12 => 0x91 case 13 => 0x95 case 14 => 0xe4 case _ => 0x79
  }
  function SboxB(c: nat): nat {
    match c
    case 0 => 0xe7 case 1 => 0xc8 case 2 => 0x37 case 3 => 0x6d
    case 4 => 0x8d case 5 => 0xd5 case 6 => 0x4e case 7 => 0xa9
    case 8 => 0x6c case 9 => 0x56 case 10 => 0xf4 case 11 => 0xea
    case 12 => 0x65 case 13 => 0x7a case 14 => 0xae case _ => 0x08
  }
  function SboxC(c: nat): nat {
    match c
    case 0 => 0xba case 1 => 0x78 case 2 => 0x25 case 3 => 0x2e
    case 4 => 0x1c case 5 => 0xa6 case 6 => 0xb4 case 7 => 0xc6
    case 8 => 0xe8 case 9 => 0xdd case 10 => 0x74 case 11 => 0x1f
    case 12 => 0x4b case 13 => 0xbd case 14 => 0x8b case _ => 0x8a
  }
  function SboxD(c: nat): nat {
    match c
    case 0 => 0x70 case 1 => 0x3e case 2 => 0xb5 case 3 => 0x66
    case 4 => 0x48 case 5 => 0x03 case 6 => 0xf6 case 7 => 0x0e
    case 8 => 0x61 case 9 => 0x35 case 10 => 0x57 case 11 => 0xb9
    case 12 => 0x86 case 13 => 0xc1 case 14 => 0x1d case _ => 0x9e
  }
  function SboxE(c: nat): nat {
    match c
    case 0 => 0xe1 case 1 => 0xf8 case 2 => 0x98 case 3 => 0x11
    case 4 => 0x69 case 5 => 0xd9 case 6 => 0x8e case 7 => 0x94
    case 8 => 0x9b case 9 => 0x1e case 10 => 0x87 case 11 => 0xe9
    case 12 => 0xce case 13 => 0x55 case 14 => 0x28 case _ => 0xdf
  }
  function SboxF(c: nat): nat {
    match c
    case 0 => 0x8c case 1 => 0xa1 case 2 => 0x89 case 3 => 0x0d
    case 4 => 0xbf case 5 => 0xe6 case 6 => 0x42 case 7 => 0x68
    case 8 => 0x41 case 9 => 0x99 case 10 => 0x2d case 11 => 0x0f
    case 12 => 0xb0 case 13 => 0x54 case 14 => 0xbb case _ => 0x16
  }

  // Its inverse table.
  function Back0(c: nat): nat {
    match c
    case 0 => 0x52 case 1 => 0x09 case 2 => 0x6a case 3 => 0xd5
    case 4 => 0x30 case 5 => 0x36 case 6 => 0xa5 case 7 => 0x38
    case 8 => 0xbf case 9 => 0x40 case 10 => 0xa3 case 11 => 0x9e
    case 12 => 0x81 case 13 => 0xf3 case 14 => 0xd7 case _ => 0xfb
  }
  function Back1(c: nat): nat {
    match c
    case 0 => 0x7c case 1 => 0xe3 case 2 => 0x39 case 3 => 0x82
    case 4 => 0x9b case 5 => 0x2f case 6 => 0xff case 7 => 0x87
    case 8 => 0x34 case 9 => 0x8e case 10 => 0x43 case 11 => 0x44
    case 12 => 0xc4 case 13 => 0xde case 14 => 0xe9 case _ => 0xcb
  }
  function Back2(c: nat): nat {
    match c
    case 0 => 0x54 case 1 => 0x7b case 2 => 0x94 case 3 => 0x32
    case 4 => 0xa6 case 5 => 0xc2 case 6 => 0x23 case 7 => 0x3d
    case 8 => 0xee case 9 => 0x4c case 10 => 0x95 case 11 => 0x0b
    case 12 => 0x42 case 13 => 0xfa case 14 => 0xc3 case _ => 0x4e
  }
  function Back3(c: nat): nat {
    match c
    case 0 => 0x08 case 1 => 0x2e case 2 => 0xa1 case 3 => 0x66
    case 4 => 0x28 case 5 => 0xd9 case 6 => 0x24 case 7 => 0xb2
    case 8 => 0x76 case 9 => 0x5b case 10 => 0xa2 case 11 => 0x49
    case 12 => 0x6d case 13 => 0x8b case 14 => 0xd1 case _ => 0x25
  }
  function Back4(c: nat): nat {
    match c
    case 0 => 0x72 case 1 => 0xf8 case 2 => 0xf6 case 3 => 0x64
    case 4 => 0x86 case 5 => 0x68 case 6 => 0x98 case 7 => 0x16
    case 8 => 0xd4 case 9 => 0xa4 case 10 => 0x5c case 11 => 0xcc
    case 12 => 0x5d case 13 => 0x65 case 14 => 0xb6 case _ => 0x92
  }
  function Back5(c: nat): nat {
    match c
    case 0 => 0x6c case 1 => 0x70 case 2 => 0x48 case 3 => 0x50
    case 4 => 0xfd case 5 => 0xed case 6 => 0xb9 case 7 => 0xda
    case 8 => 0x5e case 9 => 0x15 case 10 => 0x46 case 11 => 0x57
    case 12 => 0xa7 case 13 => 0x8d case 14 => 0x9d case _ => 0x84
  }
  function Back6(c: nat): nat {
    match c
    case 0 => 0x90 case 1 => 0xd8 case 2 => 0xab case 3 => 0x00
    case 4 => 0x8c case 5 => 0xbc case 6 => 0xd3 case 7 => 0x0a
    case 8 => 0xf7 case 9 => 0xe4 case 10 => 0x58 case 11 => 0x05
    case 12 => 0xb8 case 13 => 0xb3 case 14 => 0x45 case _ => 0x06
  }
  function Back7(c: nat): nat {
    match c
    case 0 => 0xd0 case 1 => 0x2c case 2 => 0x1e case 3 => 0x8f
    case 4 => 0xca case 5 => 0x3f case 6 => 0x0f case 7 => 0x02
    case 8 => 0xc1 case 9 => 0xaf case 10 => 0xbd case 11 => 0x03
    case 12 => 0x01 case 13 => 0x13 case 14 => 0x8a case _ => 0x6b
  }
  function Back8(c: nat): nat {
    match c
    case 0 => 0x3a case 1 => 0x91 case 2 => 0x11 case 3 => 0x41
    case 4 => 0x4f case 5 => 0x67 case 6 => 0xdc case 7 => 0xea
    case 8 => 0x97 case 9 => 0xf2 case 10 => 0xcf case 11 => 0xce
    case 12 => 0xf0 case 13 => 0xb4 case 14 => 0xe6 case _ => 0x73
  }
  function Back9(c: nat): nat {
    match c
    case 0 => 0x96 case 1 => 0xac case 2 => 0x74 case 3 => 0x22
    case 4 => 0xe7 case 5 => 0xad case 6 => 0x35 case 7 => 0x85
    case 8 => 0xe2 case 9 => 0xf9 case 10 => 0x37 case 11 => 0xe8
    case 12 => 0x1c case 13 => 0x75 case 14 => 0xdf case _ => 0x6e
  }
  function BackA(c: nat): nat {
    match c
    case 0 => 0x47 case 1 => 0xf1 case 2 => 0x1a case 3 => 0x71
    case 4 => 0x1d case 5 => 0x29 case 6 => 0xc5 case 7 => 0x89
    case 8 => 0x6f case 9 => 0xb7 case 10 => 0x62 case 11 => 0x0e
    case 12 => 0xaa case 13 => 0x18 case 14 => 0xbe case _ => 0x1b
  }
  function BackB(c: nat): nat {
    match c
    case 0 => 0xfc case 1 => 0x56 case 2 => 0x3e case 3 => 0x4b
    case 4 => 0xc6 case 5 => 0xd2 case 6 => 0x79 case 7 => 0x20
    case 8 => 0x9a case 9 => 0xdb case 10 => 0xc0 case 11 => 0xfe
    case 12 => 0x78 case 13 => 0xcd case 14 => 0x5a case _ => 0xf4
  }
  function BackC(c: nat): nat {
    match c
    case 0 => 0x1f case 1 => 0xdd case 2 => 0xa8 case 3 => 0x33
    case 4 => 0x88 case 5 => 0x07 case 6 => 0xc7 case 7 => 0x31
    case 8 => 0xb1 case 9 => 0x12 case 10 => 0x10 case 11 => 0x59
    case 12 => 0x27 case 13 => 0x80 case 14 => 0xec case _ => 0x5f
  }
  function BackD(c: nat): nat {
    match c
    case 0 => 0x60 case 1 => 0x51 case 2 => 0x7f case 3 => 0xa9
    case 4 => 0x19 case 5 => 0xb5 case 6 => 0x4a case 7 => 0x0d
    case 8 => 0x2d case 9 => 0xe5 case 10 => 0x7a case 11 => 0x9f
    case 12 => 0x93 case 13 => 0xc9 case 14 => 0x9c case _ => 0xef
  }
  function BackE(c: nat): nat {
    match c
    case 0 => 0xa0 case 1 => 0xe0 case 2 => 0x3b case 3 => 0x4d
    case 4 => 0xae case 5 => 0x2a case 6 => 0xf5 case 7 => 0xb0
    case 8 => 0xc8 case 9 => 0xeb case 10 => 0xbb case 11 => 0x3c
    case 12 => 0x83 case 13 => 0x53 case 14 => 0x99 case _ => 0x61
  }
  function BackF(c: nat): nat {
    match c
    case 0 => 0x17 case 1 => 0x2b case 2 => 0x04 case 3 => 0x7e
    case 4 => 0xba case 5 => 0x77 case 6 => 0xd6 case 7 => 0x26
    case 8 => 0xe1 case 9 => 0x69 case 10 => 0x14 case 11 => 0x63
    case 12 => 0x55 case 13 => 0x21 case 14 => 0x0c case _ => 0x7d
  }

  /** The substitution box, by row and column. */
  function SboxAt(row: nat, col: nat): nat {
    match row
    case 0 => Sbox0(col) case 1 => Sbox1(col) case 2 => Sbox2(col) case 3 => Sbox3(col)
    case 4 => Sbox4(col) case 5 => Sbox5(col) case 6 => Sbox6(col) case 7 => Sbox7(col)
    case 8 => Sbox8(col) case 9 => Sbox9(col) case 10 => SboxA(col) case 11 => SboxB(col)
    case 12 => SboxC(col) case 13 => SboxD(col) case 14 => SboxE(col) case _ => SboxF(col)
  }

  /** The inverse table. */
  function InverseAt(row: nat, col: nat): nat {
    match row
    case 0 => Back0(col) case 1 => Back1(col) case 2 => Back2(col) case 3 => Back3(col)
    case 4 => Back4(col) case 5 => Back5(col) case 6 => Back6(col) case 7 => Back7(col)
    case 8 => Back8(col) case 9 => Back9(col) case 10 => BackA(col) case 11 => BackB(col)
    case 12 => BackC(col) case 13 => BackD(col) case 14 => BackE(col) case _ => BackF(col)
  }

  predicate Inverts(row: nat, col: nat) {
    var v := SboxAt(row, col);
    v < 256 && InverseAt(v / 16, v % 16) == 16 * row + col
  }

  lemma Inverts0(col: nat)
    requires col < 16
    ensures Inverts(0, col)
  {
    assert SboxAt(0, col) == Sbox0(col);
    hide SboxAt;
  }

  lemma Inverts1(col: nat)
    requires col < 16
    ensures Inverts(1, col)
  {
    assert SboxAt(1, col) == Sbox1(col);
    hide SboxAt;
  }

  lemma Inverts2(col: nat)
    requires col < 16
    ensures Inverts(2, col)
  {
    assert SboxAt(2, col) == Sbox2(col);
    hide SboxAt;
  }

  lemma Inverts3(col: nat)
    requires col < 16
    ensures Inverts(3, col)
  {
    assert SboxAt(3, col) == Sbox3(col);
    hide SboxAt;
  }

  lemma Inverts4(col: nat)
    requires col < 16
    ensures Inverts(4, col)
  {
    assert SboxAt(4, col) == Sbox4(col);
    hide SboxAt;
  }

  lemma Inverts5(col: nat)
    requires col < 16
    ensures Inverts(5, col)
  {
    assert SboxAt(5, col) == Sbox5(col);
    hide SboxAt;
  }

  lemma Inverts6(col: nat)
    requires col < 16
    ensures Inverts(6, col)
  {
    assert SboxAt(6, col) == Sbox6(col);
    hide SboxAt;
  }

  lemma Inverts7(col: nat)
    requires col < 16
    ensures Inverts(7, col)
  {
    assert SboxAt(7, col) == Sbox7(col);
    hide SboxAt;
  }

  lemma Inverts8(col: nat)
    requires col < 16
    ensures Inverts(8, col)
  {
    assert SboxAt(8, col) == Sbox8(col);
    hide SboxAt;
  }

  lemma Inverts9(col: nat)
    requires col < 16
    ensures Inverts(9, col)
  {
    assert SboxAt(9, col) == Sbox9(col);
    hide SboxAt;
  }

  lemma InvertsA(col: nat)
    requires col < 16
    ensures Inverts(10, col)
  {
    assert SboxAt(10, col) == SboxA(col);
    hide SboxAt;
  }

  lemma InvertsB(col: nat)
    requires col < 16
    ensures Inverts(11, col)
  {
    assert SboxAt(11, col) == SboxB(col);
    hide SboxAt;
  }

  lemma InvertsC(col: nat)
    requires col < 16
    ensures Inverts(12, col)
  {
    assert SboxAt(12, col) == SboxC(col);
    hide SboxAt;
  }

  lemma InvertsD(col: nat)
    requires col < 16
    ensures Inverts(13, col)
  {
    assert SboxAt(13, col) == SboxD(col);
    hide SboxAt;
  }

  lemma InvertsE(col: nat)
    requires col < 16
    ensures Inverts(14, col)
  {
    assert SboxAt(14, col) == SboxE(col);
    hide SboxAt;
  }

  lemma InvertsF(col: nat)
    requires col < 16
    ensures Inverts(15, col)
  {
    assert SboxAt(15, col) == SboxF(col);
    hide SboxAt;
  }

  lemma RowInverts(row: nat, col: nat)
    requires row < 16 && col < 16
    ensures Inverts(row, col)
  {
    match row
    case 0 => Inverts0(col);
    case 1 => Inverts1(col);
    case 2 => Inverts2(col);
    case 3 => Inverts3(col);
    case 4 => Inverts4(col);
    case 5 => Inverts5(col);
    case 6 => Inverts6(col);
    case 7 => Inverts7(col);
    case 8 => Inverts8(col);
    case 9 => Inverts9(col);
    case 10 => InvertsA(col);
    case 11 => InvertsB(col);
    case 12 => InvertsC(col);
    case 13 => InvertsD(col);
    case 14 => InvertsE(col);
    case _ => InvertsF(col);
  }

  function Sbox(x: nat): nat { SboxAt(x / 16, x % 16) }

  function Inverse(x: nat): nat { InverseAt(x / 16, x % 16) }

  lemma SboxInverse(x: nat)
    requires x < 256
    ensures Sbox(x) < 256 && Inverse(Sbox(x)) == x
  {
    RowInverts(x / 16, x % 16);
  }

  const ROUNDS: nat := 4

  datatype Pair = Pair(a: nat, b: nat)

  predicate Bytes(p: Pair) { p.a < 256 && p.b < 256 }

  /** One round with key byte k. */
  function Round(p: Pair, k: nat): Pair {
    var a := Xor(Sbox(Xor(p.a, k)), p.b);
    Pair(a, Xor(Sbox(p.b), a))
  }

  function UndoRound(p: Pair, k: nat): Pair {
    var b := Inverse(Xor(p.b, p.a));
    Pair(Xor(Inverse(Xor(p.a, b)), k), b)
  }

  function Rounds(p: Pair, keys: seq<nat>): Pair
    decreases |keys|
  {
    if keys == [] then p else Rounds(Round(p, keys[0]), keys[1..])
  }

  function UndoRounds(p: Pair, keys: seq<nat>): Pair
    decreases |keys|
  {
    if keys == [] then p else UndoRound(UndoRounds(p, keys[1..]), keys[0])
  }

  /** The key bytes of the seed, low byte first. */
  function Keys(s: nat, n: nat): (k: seq<nat>)
    ensures |k| == n && forall i :: 0 <= i < n ==> k[i] < 256
    decreases n
  {
    if n == 0 then [] else [s % 256] + Keys(s / 256, n - 1)
  }

  function SplitBytes(n: nat): (p: Pair)
    ensures Bytes(p)
  {
    Pair(n % 256, n / 256 % 256)
  }

  function Value(p: Pair): nat { p.a % 256 * 256 + p.b % 256 }

  function Shuffle16(n: nat, s: nat): nat {
    Value(Rounds(SplitBytes(n), Keys(s, ROUNDS)))
  }

  lemma ByteXor(a: nat, b: nat)
    requires a < 256 && b < 256
    ensures Xor(a, b) < 256
  {
    assert Pow2(8) == 256 by { assert Pow2(4) == 16; Pow2Add(4, 4); }
    XorBound(a, b, 8);
  }

  lemma RoundInverse(p: Pair, k: nat)
    requires Bytes(p) && k < 256
    ensures Bytes(Round(p, k)) && UndoRound(Round(p, k), k) == p
  {
    ByteXor(p.a, k);
    SboxInverse(Xor(p.a, k));
    ByteXor(Sbox(Xor(p.a, k)), p.b);
    var a := Xor(Sbox(Xor(p.a, k)), p.b);
    SboxInverse(p.b);
    ByteXor(Sbox(p.b), a);
    XorCancel(Sbox(p.b), a);
    XorCancel(Sbox(Xor(p.a, k)), p.b);
    XorCancel(p.a, k);
  }

  predicate KeyBytes(keys: seq<nat>) { forall i :: 0 <= i < |keys| ==> keys[i] < 256 }

  lemma {:induction false} RoundsInverse(p: Pair, keys: seq<nat>)
    requires Bytes(p) && KeyBytes(keys)
    ensures Bytes(Rounds(p, keys)) && UndoRounds(Rounds(p, keys), keys) == p
    decreases |keys|
  {
    if keys != [] {
      RoundInverse(p, keys[0]);
      RoundsInverse(Round(p, keys[0]), keys[1..]);
    }
  }

  lemma RoundsInjective(p: Pair, q: Pair, keys: seq<nat>)
    requires Bytes(p) && Bytes(q) && KeyBytes(keys)
    requires Value(Rounds(p, keys)) == Value(Rounds(q, keys))
    ensures p == q
  {
    RoundsInverse(p, keys);
    RoundsInverse(q, keys);
    SameBytes(Rounds(p, keys), Rounds(q, keys));
  }

  lemma SplitInjective(m: nat, n: nat)
    requires m < 0x1_0000 && n < 0x1_0000 && SplitBytes(m) == SplitBytes(n)
    ensures m == n
  {
    assert m == m / 256 * 256 + m % 256 && m / 256 % 256 == m / 256;
    assert n == n / 256 * 256 + n % 256 && n / 256 % 256 == n / 256;
  }

  lemma SplitSame(m: nat, n: nat, keys: seq<nat>)
    requires m < 0x1_0000 && n < 0x1_0000 && KeyBytes(keys)
    requires Value(Rounds(SplitBytes(m), keys)) == Value(Rounds(SplitBytes(n), keys))
    ensures m == n
  {
    RoundsInjective(SplitBytes(m), SplitBytes(n), keys);
    SplitInjective(m, n);
  }

  /** For every seed the shuffle is injective on 16-bit offsets. */
  lemma ShuffleInjective(m: nat, n: nat, s: nat)
    requires m < 0x1_0000 && n < 0x1_0000 && Shuffle16(m, s) == Shuffle16(n, s)
    ensures m == n
  {
    SplitSame(m, n, Keys(s, ROUNDS));
  }

  lemma SameBytes(x: Pair, y: Pair)
    requires Bytes(x) && Bytes(y)
    requires Value(x) == Value(y)
    ensures x == y
  {
    hide Sbox, Rounds, Keys;
    Digits(x.a, x.b, y.a, y.b);
  }

  lemma Digits(a: nat, b: nat, c: nat, e: nat)
    requires a < 256 && b < 256 && c < 256 && e < 256 && a * 256 + b == c * 256 + e
    ensures a == c && b == e
  {
    hide *;
  }

  lemma ShuffleBound(n: nat, s: nat)
    ensures Shuffle16(n, s) < 0x1_0000
  {
  }

  // ----- the seed -----

  /** Octet j of a number, the lowest first. */
  function Octet(s: nat, j: nat): nat
    decreases j
  {
    if j == 0 then s % 256 else Octet(s / 256, j - 1)
  }

  lemma {:induction false} KeysAre(s: nat, n: nat, i: nat)
    requires i < n
    ensures Keys(s, n)[i] == Octet(s, i)
    decreases n
  {
    if i > 0 { KeysAre(s / 256, n - 1, i - 1); }
  }

  lemma RoundKeyed(p: Pair, x: nat, y: nat)
    requires Bytes(p) && x < 256 && y < 256 && x != y
    ensures Bytes(Round(p, x)) && Bytes(Round(p, y)) && Round(p, x) != Round(p, y)
  {
    RoundInverse(p, x);
    RoundInverse(p, y);
    if Round(p, x) == Round(p, y) { RoundKey(p, x, y); }
  }

  lemma RoundKey(p: Pair, x: nat, y: nat)
    requires Bytes(p) && x < 256 && y < 256 && Round(p, x).a == Round(p, y).a
    ensures x == y
  {
    var u, v := Xor(p.a, x), Xor(p.a, y);
    ByteXor(p.a, x);
    ByteXor(p.a, y);
    SboxInverse(u);
    SboxInverse(v);
    hide Sbox, Inverse, Xor;
    XorCancel(Sbox(u), p.b);
    XorCancel(Sbox(v), p.b);
    assert u == v;
    XorSwap(p.a, x);
    XorSwap(p.a, y);
    XorCancel(x, p.a);
    XorCancel(y, p.a);
  }

  lemma {:induction false} RoundsKeyed(p: Pair, k: seq<nat>, l: seq<nat>, j: nat)
    requires Bytes(p) && KeyBytes(k) && KeyBytes(l) && j < |k| == |l|
    requires k[j] != l[j] && forall i :: 0 <= i < |k| && i != j ==> k[i] == l[i]
    ensures Bytes(Rounds(p, k)) && Bytes(Rounds(p, l)) && Rounds(p, k) != Rounds(p, l)
    decreases |k|
  {
    hide Round, UndoRound;
    RoundsInverse(p, k);
    RoundsInverse(p, l);
    if j == 0 {
      RoundKeyed(p, k[0], l[0]);
      assert k[1..] == l[1..];
      RoundsInverse(Round(p, k[0]), k[1..]);
      RoundsInverse(Round(p, l[0]), k[1..]);
    } else {
      RoundInverse(p, k[0]);
      RoundsKeyed(Round(p, k[0]), k[1..], l[1..], j - 1);
    }
  }

  predicate SameOctet(s: nat, t: nat, j: nat) { Octet(s, j) == Octet(t, j) }

  lemma KeysFour(s: nat, t: nat, j: nat)
    requires j < 4
    ensures Keys(s, ROUNDS)[j] == Keys(t, ROUNDS)[j] <==> SameOctet(s, t, j)
  {
    hide Octet, Keys;
    KeysAre(s, 4, j);
    KeysAre(t, 4, j);
  }

  lemma KeyedApart(n: nat, k: seq<nat>, l: seq<nat>, j: nat)
    requires KeyBytes(k) && KeyBytes(l) && j < |k| == |l|
    requires k[j] != l[j] && forall i :: 0 <= i < |k| && i != j ==> k[i] == l[i]
    ensures Value(Rounds(SplitBytes(n), k)) != Value(Rounds(SplitBytes(n), l))
  {
    var p, q := Rounds(SplitBytes(n), k), Rounds(SplitBytes(n), l);
    hide Rounds, Value, SplitBytes;
    RoundsKeyed(SplitBytes(n), k, l, j);
    if Value(p) == Value(q) { SameBytes(p, q); }
  }

  /** Each of the four low octets of the seed matters for every offset, and nothing above them does. */
  lemma SeedMatters(n: nat, s: nat, t: nat, j: nat)
    requires j < 4 && forall i :: 0 <= i < 4 && i != j ==> SameOctet(s, t, i)
    ensures Shuffle16(n, s) == Shuffle16(n, t) <==> SameOctet(s, t, j)
  {
    hide SameOctet, Keys, Rounds, Value, SplitBytes;
    var k, l := Keys(s, ROUNDS), Keys(t, ROUNDS);
    forall i | 0 <= i < 4 ensures k[i] == l[i] <==> SameOctet(s, t, i) { KeysFour(s, t, i); }
    if SameOctet(s, t, j) { assert k == l; } else { KeyedApart(n, k, l, j); }
  }

  method ComputeShuffle16(n: nat, seed: nat) returns (r: nat)
    requires n < 0x1_0000
    ensures r == Shuffle16(n, seed)
  {
    var s: nat := seed;
    var a: nat, b: nat := n % 256, n / 256 % 256;
    ghost var keys := Keys(seed, ROUNDS);
    for i := 0 to ROUNDS
      invariant keys == Keys(s, ROUNDS - i)
      invariant Rounds(Pair(a, b), keys) == Rounds(SplitBytes(n), Keys(seed, ROUNDS))
    {
      a := Xor(a, s % 256);
      a := Xor(Sbox(a), b);
      b := Xor(Sbox(b), a);
      s := s / 256;
      keys := keys[1..];
    }
    r := a % 256 * 256 + b % 256;
  }
}
