/**
 The six functions of section 4.1.2 of FIPS 180-4, bit by bit. Bit 0 of a word is the least significant one: a rotation
 by n moves bit i + n modulo 32 to place i, and a shift by n moves bit i + n there while there is one.
 */
module Sha256Bits {
  import opened Sha256

  /** Each bit of r is the parity of three bits of x. */
  predicate Sigma0Bits(x: word, r: word) {
    && (r >> 0) & 1 == ((x >> 2) ^ (x >> 13) ^ (x >> 22)) & 1 && (r >> 1) & 1 == ((x >> 3) ^ (x >> 14) ^ (x >> 23)) & 1
    && (r >> 2) & 1 == ((x >> 4) ^ (x >> 15) ^ (x >> 24)) & 1 && (r >> 3) & 1 == ((x >> 5) ^ (x >> 16) ^ (x >> 25)) & 1
    && (r >> 4) & 1 == ((x >> 6) ^ (x >> 17) ^ (x >> 26)) & 1 && (r >> 5) & 1 == ((x >> 7) ^ (x >> 18) ^ (x >> 27)) & 1
    && (r >> 6) & 1 == ((x >> 8) ^ (x >> 19) ^ (x >> 28)) & 1 && (r >> 7) & 1 == ((x >> 9) ^ (x >> 20) ^ (x >> 29)) & 1
    && (r >> 8) & 1 == ((x >> 10) ^ (x >> 21) ^ (x >> 30)) & 1
      && (r >> 9) & 1 == ((x >> 11) ^ (x >> 22) ^ (x >> 31)) & 1
    && (r >> 10) & 1 == ((x >> 12) ^ (x >> 23) ^ (x >> 0)) & 1
      && (r >> 11) & 1 == ((x >> 13) ^ (x >> 24) ^ (x >> 1)) & 1
    && (r >> 12) & 1 == ((x >> 14) ^ (x >> 25) ^ (x >> 2)) & 1
      && (r >> 13) & 1 == ((x >> 15) ^ (x >> 26) ^ (x >> 3)) & 1
    && (r >> 14) & 1 == ((x >> 16) ^ (x >> 27) ^ (x >> 4)) & 1
      && (r >> 15) & 1 == ((x >> 17) ^ (x >> 28) ^ (x >> 5)) & 1
    && (r >> 16) & 1 == ((x >> 18) ^ (x >> 29) ^ (x >> 6)) & 1
      && (r >> 17) & 1 == ((x >> 19) ^ (x >> 30) ^ (x >> 7)) & 1
    && (r >> 18) & 1 == ((x >> 20) ^ (x >> 31) ^ (x >> 8)) & 1 && (r >> 19) & 1 == ((x >> 21) ^ (x >> 0) ^ (x >> 9)) & 1
    && (r >> 20) & 1 == ((x >> 22) ^ (x >> 1) ^ (x >> 10)) & 1
      && (r >> 21) & 1 == ((x >> 23) ^ (x >> 2) ^ (x >> 11)) & 1
    && (r >> 22) & 1 == ((x >> 24) ^ (x >> 3) ^ (x >> 12)) & 1
      && (r >> 23) & 1 == ((x >> 25) ^ (x >> 4) ^ (x >> 13)) & 1
    && (r >> 24) & 1 == ((x >> 26) ^ (x >> 5) ^ (x >> 14)) & 1
      && (r >> 25) & 1 == ((x >> 27) ^ (x >> 6) ^ (x >> 15)) & 1
    && (r >> 26) & 1 == ((x >> 28) ^ (x >> 7) ^ (x >> 16)) & 1
      && (r >> 27) & 1 == ((x >> 29) ^ (x >> 8) ^ (x >> 17)) & 1
    && (r >> 28) & 1 == ((x >> 30) ^ (x >> 9) ^ (x >> 18)) & 1
      && (r >> 29) & 1 == ((x >> 31) ^ (x >> 10) ^ (x >> 19)) & 1
    && (r >> 30) & 1 == ((x >> 0) ^ (x >> 11) ^ (x >> 20)) & 1
      && (r >> 31) & 1 == ((x >> 1) ^ (x >> 12) ^ (x >> 21)) & 1
  }

  lemma Sigma0Unfolds(x: word)
    ensures Sigma0(x) == x.RotateRight(2) ^ x.RotateRight(13) ^ x.RotateRight(22)
  {
  }

  lemma Sigma0Of(x: word, r: word)
    requires r == x.RotateRight(2) ^ x.RotateRight(13) ^ x.RotateRight(22)
    ensures Sigma0Bits(x, r)
  {
  }

  lemma Sigma0IsBits(x: word)
    ensures Sigma0Bits(x, Sigma0(x))
  {
    hide Sigma0, Sigma0Bits;
    Sigma0Unfolds(x);
    Sigma0Of(x, Sigma0(x));
  }

  /** Each bit of r is the parity of three bits of x. */
  predicate Sigma1Bits(x: word, r: word) {
    && (r >> 0) & 1 == ((x >> 6) ^ (x >> 11) ^ (x >> 25)) & 1 && (r >> 1) & 1 == ((x >> 7) ^ (x >> 12) ^ (x >> 26)) & 1
    && (r >> 2) & 1 == ((x >> 8) ^ (x >> 13) ^ (x >> 27)) & 1 && (r >> 3) & 1 == ((x >> 9) ^ (x >> 14) ^ (x >> 28)) & 1
    && (r >> 4) & 1 == ((x >> 10) ^ (x >> 15) ^ (x >> 29)) & 1
      && (r >> 5) & 1 == ((x >> 11) ^ (x >> 16) ^ (x >> 30)) & 1
    && (r >> 6) & 1 == ((x >> 12) ^ (x >> 17) ^ (x >> 31)) & 1 && (r >> 7) & 1 == ((x >> 13) ^ (x >> 18) ^ (x >> 0)) & 1
    && (r >> 8) & 1 == ((x >> 14) ^ (x >> 19) ^ (x >> 1)) & 1 && (r >> 9) & 1 == ((x >> 15) ^ (x >> 20) ^ (x >> 2)) & 1
    && (r >> 10) & 1 == ((x >> 16) ^ (x >> 21) ^ (x >> 3)) & 1
      && (r >> 11) & 1 == ((x >> 17) ^ (x >> 22) ^ (x >> 4)) & 1
    && (r >> 12) & 1 == ((x >> 18) ^ (x >> 23) ^ (x >> 5)) & 1
      && (r >> 13) & 1 == ((x >> 19) ^ (x >> 24) ^ (x >> 6)) & 1
    && (r >> 14) & 1 == ((x >> 20) ^ (x >> 25) ^ (x >> 7)) & 1
      && (r >> 15) & 1 == ((x >> 21) ^ (x >> 26) ^ (x >> 8)) & 1
    && (r >> 16) & 1 == ((x >> 22) ^ (x >> 27) ^ (x >> 9)) & 1
      && (r >> 17) & 1 == ((x >> 23) ^ (x >> 28) ^ (x >> 10)) & 1
    && (r >> 18) & 1 == ((x >> 24) ^ (x >> 29) ^ (x >> 11)) & 1
      && (r >> 19) & 1 == ((x >> 25) ^ (x >> 30) ^ (x >> 12)) & 1
    && (r >> 20) & 1 == ((x >> 26) ^ (x >> 31) ^ (x >> 13)) & 1
      && (r >> 21) & 1 == ((x >> 27) ^ (x >> 0) ^ (x >> 14)) & 1
    && (r >> 22) & 1 == ((x >> 28) ^ (x >> 1) ^ (x >> 15)) & 1
      && (r >> 23) & 1 == ((x >> 29) ^ (x >> 2) ^ (x >> 16)) & 1
    && (r >> 24) & 1 == ((x >> 30) ^ (x >> 3) ^ (x >> 17)) & 1
      && (r >> 25) & 1 == ((x >> 31) ^ (x >> 4) ^ (x >> 18)) & 1
    && (r >> 26) & 1 == ((x >> 0) ^ (x >> 5) ^ (x >> 19)) & 1 && (r >> 27) & 1 == ((x >> 1) ^ (x >> 6) ^ (x >> 20)) & 1
    && (r >> 28) & 1 == ((x >> 2) ^ (x >> 7) ^ (x >> 21)) & 1 && (r >> 29) & 1 == ((x >> 3) ^ (x >> 8) ^ (x >> 22)) & 1
    && (r >> 30) & 1 == ((x >> 4) ^ (x >> 9) ^ (x >> 23)) & 1 && (r >> 31) & 1 == ((x >> 5) ^ (x >> 10) ^ (x >> 24)) & 1
  }

  lemma Sigma1Unfolds(x: word)
    ensures Sigma1(x) == x.RotateRight(6) ^ x.RotateRight(11) ^ x.RotateRight(25)
  {
  }

  lemma Sigma1Of(x: word, r: word)
    requires r == x.RotateRight(6) ^ x.RotateRight(11) ^ x.RotateRight(25)
    ensures Sigma1Bits(x, r)
  {
  }

  lemma Sigma1IsBits(x: word)
    ensures Sigma1Bits(x, Sigma1(x))
  {
    hide Sigma1, Sigma1Bits;
    Sigma1Unfolds(x);
    Sigma1Of(x, Sigma1(x));
  }

  /** Each bit of r is the parity of three bits of x, of two where the shift has run out. */
  predicate Small0Bits(x: word, r: word) {
    && (r >> 0) & 1 == ((x >> 7) ^ (x >> 18) ^ (x >> 3)) & 1 && (r >> 1) & 1 == ((x >> 8) ^ (x >> 19) ^ (x >> 4)) & 1
    && (r >> 2) & 1 == ((x >> 9) ^ (x >> 20) ^ (x >> 5)) & 1 && (r >> 3) & 1 == ((x >> 10) ^ (x >> 21) ^ (x >> 6)) & 1
    && (r >> 4) & 1 == ((x >> 11) ^ (x >> 22) ^ (x >> 7)) & 1 && (r >> 5) & 1 == ((x >> 12) ^ (x >> 23) ^ (x >> 8)) & 1
    && (r >> 6) & 1 == ((x >> 13) ^ (x >> 24) ^ (x >> 9)) & 1 && (r >> 7) & 1 == ((x >> 14) ^ (x >> 25) ^ (x >> 10)) & 1
    && (r >> 8) & 1 == ((x >> 15) ^ (x >> 26) ^ (x >> 11)) & 1
      && (r >> 9) & 1 == ((x >> 16) ^ (x >> 27) ^ (x >> 12)) & 1
    && (r >> 10) & 1 == ((x >> 17) ^ (x >> 28) ^ (x >> 13)) & 1
      && (r >> 11) & 1 == ((x >> 18) ^ (x >> 29) ^ (x >> 14)) & 1
    && (r >> 12) & 1 == ((x >> 19) ^ (x >> 30) ^ (x >> 15)) & 1
      && (r >> 13) & 1 == ((x >> 20) ^ (x >> 31) ^ (x >> 16)) & 1
    && (r >> 14) & 1 == ((x >> 21) ^ (x >> 0) ^ (x >> 17)) & 1
      && (r >> 15) & 1 == ((x >> 22) ^ (x >> 1) ^ (x >> 18)) & 1
    && (r >> 16) & 1 == ((x >> 23) ^ (x >> 2) ^ (x >> 19)) & 1
      && (r >> 17) & 1 == ((x >> 24) ^ (x >> 3) ^ (x >> 20)) & 1
    && (r >> 18) & 1 == ((x >> 25) ^ (x >> 4) ^ (x >> 21)) & 1
      && (r >> 19) & 1 == ((x >> 26) ^ (x >> 5) ^ (x >> 22)) & 1
    && (r >> 20) & 1 == ((x >> 27) ^ (x >> 6) ^ (x >> 23)) & 1
      && (r >> 21) & 1 == ((x >> 28) ^ (x >> 7) ^ (x >> 24)) & 1
    && (r >> 22) & 1 == ((x >> 29) ^ (x >> 8) ^ (x >> 25)) & 1
      && (r >> 23) & 1 == ((x >> 30) ^ (x >> 9) ^ (x >> 26)) & 1
    && (r >> 24) & 1 == ((x >> 31) ^ (x >> 10) ^ (x >> 27)) & 1
      && (r >> 25) & 1 == ((x >> 0) ^ (x >> 11) ^ (x >> 28)) & 1
    && (r >> 26) & 1 == ((x >> 1) ^ (x >> 12) ^ (x >> 29)) & 1
      && (r >> 27) & 1 == ((x >> 2) ^ (x >> 13) ^ (x >> 30)) & 1
    && (r >> 28) & 1 == ((x >> 3) ^ (x >> 14) ^ (x >> 31)) & 1 && (r >> 29) & 1 == ((x >> 4) ^ (x >> 15)) & 1
    && (r >> 30) & 1 == ((x >> 5) ^ (x >> 16)) & 1 && (r >> 31) & 1 == ((x >> 6) ^ (x >> 17)) & 1
  }

  lemma Small0Unfolds(x: word)
    ensures Small0(x) == x.RotateRight(7) ^ x.RotateRight(18) ^ (x >> 3)
  {
  }

  lemma Small0Of(x: word, r: word)
    requires r == x.RotateRight(7) ^ x.RotateRight(18) ^ (x >> 3)
    ensures Small0Bits(x, r)
  {
  }

  lemma Small0IsBits(x: word)
    ensures Small0Bits(x, Small0(x))
  {
    hide Small0, Small0Bits;
    Small0Unfolds(x);
    Small0Of(x, Small0(x));
  }

  /** Each bit of r is the parity of three bits of x, of two where the shift has run out. */
  predicate Small1Bits(x: word, r: word) {
    && (r >> 0) & 1 == ((x >> 17) ^ (x >> 19) ^ (x >> 10)) & 1
      && (r >> 1) & 1 == ((x >> 18) ^ (x >> 20) ^ (x >> 11)) & 1
    && (r >> 2) & 1 == ((x >> 19) ^ (x >> 21) ^ (x >> 12)) & 1
      && (r >> 3) & 1 == ((x >> 20) ^ (x >> 22) ^ (x >> 13)) & 1
    && (r >> 4) & 1 == ((x >> 21) ^ (x >> 23) ^ (x >> 14)) & 1
      && (r >> 5) & 1 == ((x >> 22) ^ (x >> 24) ^ (x >> 15)) & 1
    && (r >> 6) & 1 == ((x >> 23) ^ (x >> 25) ^ (x >> 16)) & 1
      && (r >> 7) & 1 == ((x >> 24) ^ (x >> 26) ^ (x >> 17)) & 1
    && (r >> 8) & 1 == ((x >> 25) ^ (x >> 27) ^ (x >> 18)) & 1
      && (r >> 9) & 1 == ((x >> 26) ^ (x >> 28) ^ (x >> 19)) & 1
    && (r >> 10) & 1 == ((x >> 27) ^ (x >> 29) ^ (x >> 20)) & 1
      && (r >> 11) & 1 == ((x >> 28) ^ (x >> 30) ^ (x >> 21)) & 1
    && (r >> 12) & 1 == ((x >> 29) ^ (x >> 31) ^ (x >> 22)) & 1
      && (r >> 13) & 1 == ((x >> 30) ^ (x >> 0) ^ (x >> 23)) & 1
    && (r >> 14) & 1 == ((x >> 31) ^ (x >> 1) ^ (x >> 24)) & 1 && (r >> 15) & 1 == ((x >> 0) ^ (x >> 2) ^ (x >> 25)) & 1
    && (r >> 16) & 1 == ((x >> 1) ^ (x >> 3) ^ (x >> 26)) & 1 && (r >> 17) & 1 == ((x >> 2) ^ (x >> 4) ^ (x >> 27)) & 1
    && (r >> 18) & 1 == ((x >> 3) ^ (x >> 5) ^ (x >> 28)) & 1 && (r >> 19) & 1 == ((x >> 4) ^ (x >> 6) ^ (x >> 29)) & 1
    && (r >> 20) & 1 == ((x >> 5) ^ (x >> 7) ^ (x >> 30)) & 1 && (r >> 21) & 1 == ((x >> 6) ^ (x >> 8) ^ (x >> 31)) & 1
    && (r >> 22) & 1 == ((x >> 7) ^ (x >> 9)) & 1 && (r >> 23) & 1 == ((x >> 8) ^ (x >> 10)) & 1
    && (r >> 24) & 1 == ((x >> 9) ^ (x >> 11)) & 1 && (r >> 25) & 1 == ((x >> 10) ^ (x >> 12)) & 1
    && (r >> 26) & 1 == ((x >> 11) ^ (x >> 13)) & 1 && (r >> 27) & 1 == ((x >> 12) ^ (x >> 14)) & 1
    && (r >> 28) & 1 == ((x >> 13) ^ (x >> 15)) & 1 && (r >> 29) & 1 == ((x >> 14) ^ (x >> 16)) & 1
    && (r >> 30) & 1 == ((x >> 15) ^ (x >> 17)) & 1 && (r >> 31) & 1 == ((x >> 16) ^ (x >> 18)) & 1
  }

  lemma Small1Unfolds(x: word)
    ensures Small1(x) == x.RotateRight(17) ^ x.RotateRight(19) ^ (x >> 10)
  {
  }

  lemma Small1Of(x: word, r: word)
    requires r == x.RotateRight(17) ^ x.RotateRight(19) ^ (x >> 10)
    ensures Small1Bits(x, r)
  {
  }

  lemma Small1IsBits(x: word)
    ensures Small1Bits(x, Small1(x))
  {
    hide Small1, Small1Bits;
    Small1Unfolds(x);
    Small1Of(x, Small1(x));
  }

  /** Each bit of r is that of y where x has a set bit, and that of z elsewhere. */
  predicate ChBits(x: word, y: word, z: word, r: word) {
    && ((r >> 0) & 1 == if (x >> 0) & 1 == 1 then (y >> 0) & 1 else (z >> 0) & 1)
    && ((r >> 1) & 1 == if (x >> 1) & 1 == 1 then (y >> 1) & 1 else (z >> 1) & 1)
    && ((r >> 2) & 1 == if (x >> 2) & 1 == 1 then (y >> 2) & 1 else (z >> 2) & 1)
    && ((r >> 3) & 1 == if (x >> 3) & 1 == 1 then (y >> 3) & 1 else (z >> 3) & 1)
    && ((r >> 4) & 1 == if (x >> 4) & 1 == 1 then (y >> 4) & 1 else (z >> 4) & 1)
    && ((r >> 5) & 1 == if (x >> 5) & 1 == 1 then (y >> 5) & 1 else (z >> 5) & 1)
    && ((r >> 6) & 1 == if (x >> 6) & 1 == 1 then (y >> 6) & 1 else (z >> 6) & 1)
    && ((r >> 7) & 1 == if (x >> 7) & 1 == 1 then (y >> 7) & 1 else (z >> 7) & 1)
    && ((r >> 8) & 1 == if (x >> 8) & 1 == 1 then (y >> 8) & 1 else (z >> 8) & 1)
    && ((r >> 9) & 1 == if (x >> 9) & 1 == 1 then (y >> 9) & 1 else (z >> 9) & 1)
    && ((r >> 10) & 1 == if (x >> 10) & 1 == 1 then (y >> 10) & 1 else (z >> 10) & 1)
    && ((r >> 11) & 1 == if (x >> 11) & 1 == 1 then (y >> 11) & 1 else (z >> 11) & 1)
    && ((r >> 12) & 1 == if (x >> 12) & 1 == 1 then (y >> 12) & 1 else (z >> 12) & 1)
    && ((r >> 13) & 1 == if (x >> 13) & 1 == 1 then (y >> 13) & 1 else (z >> 13) & 1)
    && ((r >> 14) & 1 == if (x >> 14) & 1 == 1 then (y >> 14) & 1 else (z >> 14) & 1)
    && ((r >> 15) & 1 == if (x >> 15) & 1 == 1 then (y >> 15) & 1 else (z >> 15) & 1)
    && ((r >> 16) & 1 == if (x >> 16) & 1 == 1 then (y >> 16) & 1 else (z >> 16) & 1)
    && ((r >> 17) & 1 == if (x >> 17) & 1 == 1 then (y >> 17) & 1 else (z >> 17) & 1)
    && ((r >> 18) & 1 == if (x >> 18) & 1 == 1 then (y >> 18) & 1 else (z >> 18) & 1)
    && ((r >> 19) & 1 == if (x >> 19) & 1 == 1 then (y >> 19) & 1 else (z >> 19) & 1)
    && ((r >> 20) & 1 == if (x >> 20) & 1 == 1 then (y >> 20) & 1 else (z >> 20) & 1)
    && ((r >> 21) & 1 == if (x >> 21) & 1 == 1 then (y >> 21) & 1 else (z >> 21) & 1)
    && ((r >> 22) & 1 == if (x >> 22) & 1 == 1 then (y >> 22) & 1 else (z >> 22) & 1)
    && ((r >> 23) & 1 == if (x >> 23) & 1 == 1 then (y >> 23) & 1 else (z >> 23) & 1)
    && ((r >> 24) & 1 == if (x >> 24) & 1 == 1 then (y >> 24) & 1 else (z >> 24) & 1)
    && ((r >> 25) & 1 == if (x >> 25) & 1 == 1 then (y >> 25) & 1 else (z >> 25) & 1)
    && ((r >> 26) & 1 == if (x >> 26) & 1 == 1 then (y >> 26) & 1 else (z >> 26) & 1)
    && ((r >> 27) & 1 == if (x >> 27) & 1 == 1 then (y >> 27) & 1 else (z >> 27) & 1)
    && ((r >> 28) & 1 == if (x >> 28) & 1 == 1 then (y >> 28) & 1 else (z >> 28) & 1)
    && ((r >> 29) & 1 == if (x >> 29) & 1 == 1 then (y >> 29) & 1 else (z >> 29) & 1)
    && ((r >> 30) & 1 == if (x >> 30) & 1 == 1 then (y >> 30) & 1 else (z >> 30) & 1)
    && ((r >> 31) & 1 == if (x >> 31) & 1 == 1 then (y >> 31) & 1 else (z >> 31) & 1)
  }

  lemma ChUnfolds(x: word, y: word, z: word)
    ensures Ch(x, y, z) == (x & y) ^ ((!x) & z)
  {
  }

  lemma ChOf(x: word, y: word, z: word, r: word)
    requires r == (x & y) ^ ((!x) & z)
    ensures ChBits(x, y, z, r)
  {
  }

  lemma ChIsBits(x: word, y: word, z: word)
    ensures ChBits(x, y, z, Ch(x, y, z))
  {
    hide Ch, ChBits;
    ChUnfolds(x, y, z);
    ChOf(x, y, z, Ch(x, y, z));
  }

  /** Each bit of r is that of x where it agrees with y, and that of z elsewhere. */
  predicate MajBits(x: word, y: word, z: word, r: word) {
    && ((r >> 0) & 1 == if ((x ^ y) >> 0) & 1 == 0 then (x >> 0) & 1 else (z >> 0) & 1)
    && ((r >> 1) & 1 == if ((x ^ y) >> 1) & 1 == 0 then (x >> 1) & 1 else (z >> 1) & 1)
    && ((r >> 2) & 1 == if ((x ^ y) >> 2) & 1 == 0 then (x >> 2) & 1 else (z >> 2) & 1)
    && ((r >> 3) & 1 == if ((x ^ y) >> 3) & 1 == 0 then (x >> 3) & 1 else (z >> 3) & 1)
    && ((r >> 4) & 1 == if ((x ^ y) >> 4) & 1 == 0 then (x >> 4) & 1 else (z >> 4) & 1)
    && ((r >> 5) & 1 == if ((x ^ y) >> 5) & 1 == 0 then (x >> 5) & 1 else (z >> 5) & 1)
    && ((r >> 6) & 1 == if ((x ^ y) >> 6) & 1 == 0 then (x >> 6) & 1 else (z >> 6) & 1)
    && ((r >> 7) & 1 == if ((x ^ y) >> 7) & 1 == 0 then (x >> 7) & 1 else (z >> 7) & 1)
    && ((r >> 8) & 1 == if ((x ^ y) >> 8) & 1 == 0 then (x >> 8) & 1 else (z >> 8) & 1)
    && ((r >> 9) & 1 == if ((x ^ y) >> 9) & 1 == 0 then (x >> 9) & 1 else (z >> 9) & 1)
    && ((r >> 10) & 1 == if ((x ^ y) >> 10) & 1 == 0 then (x >> 10) & 1 else (z >> 10) & 1)
    && ((r >> 11) & 1 == if ((x ^ y) >> 11) & 1 == 0 then (x >> 11) & 1 else (z >> 11) & 1)
    && ((r >> 12) & 1 == if ((x ^ y) >> 12) & 1 == 0 then (x >> 12) & 1 else (z >> 12) & 1)
    && ((r >> 13) & 1 == if ((x ^ y) >> 13) & 1 == 0 then (x >> 13) & 1 else (z >> 13) & 1)
    && ((r >> 14) & 1 == if ((x ^ y) >> 14) & 1 == 0 then (x >> 14) & 1 else (z >> 14) & 1)
    && ((r >> 15) & 1 == if ((x ^ y) >> 15) & 1 == 0 then (x >> 15) & 1 else (z >> 15) & 1)
    && ((r >> 16) & 1 == if ((x ^ y) >> 16) & 1 == 0 then (x >> 16) & 1 else (z >> 16) & 1)
    && ((r >> 17) & 1 == if ((x ^ y) >> 17) & 1 == 0 then (x >> 17) & 1 else (z >> 17) & 1)
    && ((r >> 18) & 1 == if ((x ^ y) >> 18) & 1 == 0 then (x >> 18) & 1 else (z >> 18) & 1)
    && ((r >> 19) & 1 == if ((x ^ y) >> 19) & 1 == 0 then (x >> 19) & 1 else (z >> 19) & 1)
    && ((r >> 20) & 1 == if ((x ^ y) >> 20) & 1 == 0 then (x >> 20) & 1 else (z >> 20) & 1)
    && ((r >> 21) & 1 == if ((x ^ y) >> 21) & 1 == 0 then (x >> 21) & 1 else (z >> 21) & 1)
    && ((r >> 22) & 1 == if ((x ^ y) >> 22) & 1 == 0 then (x >> 22) & 1 else (z >> 22) & 1)
    && ((r >> 23) & 1 == if ((x ^ y) >> 23) & 1 == 0 then (x >> 23) & 1 else (z >> 23) & 1)
    && ((r >> 24) & 1 == if ((x ^ y) >> 24) & 1 == 0 then (x >> 24) & 1 else (z >> 24) & 1)
    && ((r >> 25) & 1 == if ((x ^ y) >> 25) & 1 == 0 then (x >> 25) & 1 else (z >> 25) & 1)
    && ((r >> 26) & 1 == if ((x ^ y) >> 26) & 1 == 0 then (x >> 26) & 1 else (z >> 26) & 1)
    && ((r >> 27) & 1 == if ((x ^ y) >> 27) & 1 == 0 then (x >> 27) & 1 else (z >> 27) & 1)
    && ((r >> 28) & 1 == if ((x ^ y) >> 28) & 1 == 0 then (x >> 28) & 1 else (z >> 28) & 1)
    && ((r >> 29) & 1 == if ((x ^ y) >> 29) & 1 == 0 then (x >> 29) & 1 else (z >> 29) & 1)
    && ((r >> 30) & 1 == if ((x ^ y) >> 30) & 1 == 0 then (x >> 30) & 1 else (z >> 30) & 1)
    && ((r >> 31) & 1 == if ((x ^ y) >> 31) & 1 == 0 then (x >> 31) & 1 else (z >> 31) & 1)
  }

  lemma MajUnfolds(x: word, y: word, z: word)
    ensures Maj(x, y, z) == (x & y) ^ (x & z) ^ (y & z)
  {
  }

  lemma MajOf(x: word, y: word, z: word, r: word)
    requires r == (x & y) ^ (x & z) ^ (y & z)
    ensures MajBits(x, y, z, r)
  {
  }

  lemma MajIsBits(x: word, y: word, z: word)
    ensures MajBits(x, y, z, Maj(x, y, z))
  {
    hide Maj, MajBits;
    MajUnfolds(x, y, z);
    MajOf(x, y, z, Maj(x, y, z));
  }
}
