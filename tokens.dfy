/**
 * Authentication tokens: two 64-bit generator outputs written as zero-padded lower-case
 * hexadecimal, sixteen digits each (`PlayerTokens::GenerateToken`).
 */
module Tokens {
  import opened Machine

  /** The tagged token string. */
  datatype Token = Token(value: string)

  /** Digits per generator output (`std::setw(16)`). */
  const HALF_WIDTH: nat := 16

  function Pow16(n: nat): (p: nat)
    ensures p >= 1
  {
    if n == 0 then 1 else 16 * Pow16(n - 1)
  }

  /** Sixteen hex digits hold exactly the 64-bit values. */
  lemma Pow16HalfWidth()
    ensures Pow16(HALF_WIDTH) == SIZE_MOD
  {
    assert Pow16(4) == 0x1_0000;
    assert Pow16(8) == 0x1_0000_0000;
    assert Pow16(12) == 0x1_0000_0000_0000;
  }

  /** The digits `std::hex` writes: lower case. */
  predicate IsHexDigit(c: char) {
    '0' <= c <= '9' || 'a' <= c <= 'f'
  }

  predicate IsHexString(s: string) {
    forall i | 0 <= i < |s| :: IsHexDigit(s[i])
  }

  function DigitValue(c: char): (v: nat)
    requires IsHexDigit(c)
    ensures v < 16
  {
    if '0' <= c <= '9' then c as int - '0' as int else c as int - 'a' as int + 10
  }

  function HexDigit(v: nat): (c: char)
    requires v < 16
    ensures IsHexDigit(c) && DigitValue(c) == v
  {
    if v < 10 then ('0' as int + v) as char else ('a' as int + v - 10) as char
  }

  /** The value of a string of hex digits, most significant first. */
  function HexValue(s: string): (n: nat)
    requires IsHexString(s)
    ensures n < Pow16(|s|)
  {
    if s == [] then 0 else HexValue(s[..|s| - 1]) * 16 + DigitValue(s[|s| - 1])
  }

  /**
   * `n` in hex on exactly `width` digits, padded on the left with '0'
   * (`std::hex << std::setw(width) << std::setfill('0') << n` for an `n` that fits).
   */
  function PaddedHex(n: nat, width: nat): (s: string)
    requires n < Pow16(width)
    ensures |s| == width && IsHexString(s)
  {
    if width == 0 then [] else PaddedHex(n / 16, width - 1) + [HexDigit(n % 16)]
  }

  /** Reading back the padded digits gives the number written. */
  lemma {:induction false} PaddedHexRoundTrip(n: nat, width: nat)
    requires n < Pow16(width)
    ensures HexValue(PaddedHex(n, width)) == n
  {
    if width > 0 {
      var s := PaddedHex(n, width);
      assert s[..|s| - 1] == PaddedHex(n / 16, width - 1);
      PaddedHexRoundTrip(n / 16, width - 1);
    }
  }

  /** Every hex string of a given width is the padded form of its value. */
  lemma {:induction false} HexStringRoundTrip(s: string)
    requires IsHexString(s)
    ensures PaddedHex(HexValue(s), |s|) == s
  {
    if s != [] {
      var init, last := s[..|s| - 1], s[|s| - 1];
      assert IsHexString(init);
      HexStringRoundTrip(init);
      var n := HexValue(s);
      assert n / 16 == HexValue(init) && n % 16 == DigitValue(last);
      assert HexDigit(DigitValue(last)) == last;
      assert s == init + [last];
    }
  }

  /** `GenerateToken`, given the outputs of the two generators. */
  function GenerateToken(draw1: nat, draw2: nat): (t: Token)
    requires draw1 < SIZE_MOD && draw2 < SIZE_MOD
    ensures |t.value| == 2 * HALF_WIDTH && IsHexString(t.value)
  {
    Pow16HalfWidth();
    Token(PaddedHex(draw1, HALF_WIDTH) + PaddedHex(draw2, HALF_WIDTH))
  }

  /** Each half of a token reads back as the generator output it was made from. */
  lemma TokenRoundTrip(draw1: nat, draw2: nat)
    requires draw1 < SIZE_MOD && draw2 < SIZE_MOD
    ensures HexValue(GenerateToken(draw1, draw2).value[..HALF_WIDTH]) == draw1
    ensures HexValue(GenerateToken(draw1, draw2).value[HALF_WIDTH..]) == draw2
  {
    Pow16HalfWidth();
    var t := GenerateToken(draw1, draw2).value;
    assert t[..HALF_WIDTH] == PaddedHex(draw1, HALF_WIDTH);
    assert t[HALF_WIDTH..] == PaddedHex(draw2, HALF_WIDTH);
    PaddedHexRoundTrip(draw1, HALF_WIDTH);
    PaddedHexRoundTrip(draw2, HALF_WIDTH);
  }

  /** Two tokens are equal exactly when both generator outputs are. */
  lemma TokenInjective(a1: nat, a2: nat, b1: nat, b2: nat)
    requires a1 < SIZE_MOD && a2 < SIZE_MOD && b1 < SIZE_MOD && b2 < SIZE_MOD
    ensures GenerateToken(a1, a2) == GenerateToken(b1, b2) <==> a1 == b1 && a2 == b2
  {
    TokenRoundTrip(a1, a2);
    TokenRoundTrip(b1, b2);
  }

  /** Every 32-digit hex string is a token some pair of outputs produces. */
  lemma EveryHexStringIsAToken(s: string)
    requires |s| == 2 * HALF_WIDTH && IsHexString(s)
    ensures HexValue(s[..HALF_WIDTH]) < SIZE_MOD && HexValue(s[HALF_WIDTH..]) < SIZE_MOD
    ensures GenerateToken(HexValue(s[..HALF_WIDTH]), HexValue(s[HALF_WIDTH..])) == Token(s)
  {
    Pow16HalfWidth();
    var hi, lo := s[..HALF_WIDTH], s[HALF_WIDTH..];
    assert IsHexString(hi) && IsHexString(lo);
    HexStringRoundTrip(hi);
    HexStringRoundTrip(lo);
    assert s == hi + lo;
  }
}

/** The (dog id, map id) key of the player table, and its hasher. */
module DogMapKeys {
  import opened Machine
  import opened Model

  datatype DogMapKey = DogMapKey(dogId: int, mapId: MapId)

  const HASH_FACTOR: nat := 37

  /** `static_cast<size_t>` of an `int`: reduction modulo 2^64. */
  function SizeCast(x: int): (h: nat)
    ensures h < SIZE_MOD && (x - h) % SIZE_MOD == 0
  {
    x % SIZE_MOD
  }

  /**
   * `DogMapKeyHasher`: `h1 * 37 + h2 * 37 * 37` in `size_t`, where `h1` is the dog id and
   * `mapHash` the string hash of the map id (a library function, passed in).
   */
  function DogMapHash(dogId: int, mapHash: nat): (h: nat)
    requires mapHash < SIZE_MOD
    ensures h < SIZE_MOD
    ensures (dogId * HASH_FACTOR + mapHash * HASH_FACTOR * HASH_FACTOR - h) % SIZE_MOD == 0
  {
    var y := SizeCast(dogId) * HASH_FACTOR + mapHash * HASH_FACTOR * HASH_FACTOR;
    MultipleOfSize(dogId * HASH_FACTOR + mapHash * HASH_FACTOR * HASH_FACTOR - y % SIZE_MOD,
                   (dogId / SIZE_MOD) * HASH_FACTOR + y / SIZE_MOD);
    y % SIZE_MOD
  }

  lemma MultipleOfSize(x: int, q: int)
    requires x == SIZE_MOD * q
    ensures x % SIZE_MOD == 0
  {
  }

  /** Two `size_t` values congruent to the same number are equal. */
  lemma CongruentResiduesEqual(x: int, a: nat, b: nat)
    requires a < SIZE_MOD && b < SIZE_MOD
    requires (x - a) % SIZE_MOD == 0 && (x - b) % SIZE_MOD == 0
    ensures a == b
  {
    var qa, qb := (x - a) / SIZE_MOD, (x - b) / SIZE_MOD;
    assert x - a == SIZE_MOD * qa && x - b == SIZE_MOD * qb;
    assert a - b == SIZE_MOD * (qb - qa);
  }

  /**
   * The hash is not injective: moving 37 from the map part to the dog part collides,
   * so key (d + 37, m) hashes like (d, m + 1).
   */
  lemma DogMapHashCollision(dogId: int, mapHash: nat)
    requires mapHash + 1 < SIZE_MOD
    ensures DogMapHash(dogId + HASH_FACTOR, mapHash) == DogMapHash(dogId, mapHash + 1)
  {
    var x := (dogId + HASH_FACTOR) * HASH_FACTOR + mapHash * HASH_FACTOR * HASH_FACTOR;
    assert x == dogId * HASH_FACTOR + (mapHash + 1) * HASH_FACTOR * HASH_FACTOR;
    CongruentResiduesEqual(x, DogMapHash(dogId + HASH_FACTOR, mapHash),
                           DogMapHash(dogId, mapHash + 1));
  }
}
