/**
  Handles of the host resource heap (src/host_resource.rs): the packed lifecycle token
  kept in each slot, and the arithmetic between addresses and slot numbers.

  Machine words are naturals; a left shift of a 64-bit word drops what leaves the word,
  and `|` and `&` work bit by bit.
*/
module ResourceTokens {
  import opened Bags

  const WORD := 0x1_0000_0000_0000_0000
  const TOKEN_INDEX_BITS := 16
  const TOKEN_INDEX_MASK := 0xffff
  const MAX_GENERATION := 0xffff_ffff_ffff

  function Pow2(n: nat): (p: nat)
    ensures p >= 1
  {
    if n == 0 then 1 else 2 * Pow2(n - 1)
  }

  function BitOr(a: nat, b: nat): nat {
    if a == 0 && b == 0 then 0 else 2 * BitOr(a / 2, b / 2) + if a % 2 == 1 || b % 2 == 1 then 1 else 0
  }

  function BitAnd(a: nat, b: nat): nat {
    if a == 0 || b == 0 then 0 else 2 * BitAnd(a / 2, b / 2) + if a % 2 == 1 && b % 2 == 1 then 1 else 0
  }

  function ShiftLeft(a: nat, n: nat): nat { a * Pow2(n) % WORD }

  function ShiftRight(a: nat, n: nat): nat { if n == 0 then a else ShiftRight(a / 2, n - 1) }

  function EncodeToken(index: nat, generation: nat): nat {
    BitOr(ShiftLeft(generation, TOKEN_INDEX_BITS), index + 1)
  }

  function DecodeToken(token: nat): Option<(nat, nat)> {
    var encodedIndex := BitAnd(token, TOKEN_INDEX_MASK);
    var generation := ShiftRight(token, TOKEN_INDEX_BITS);
    if encodedIndex == 0 || generation == 0 then None else Some((encodedIndex - 1, generation))
  }

  // ------------------------------------------------------ bits as arithmetic

  /** Or-ing into zeroed low bits is addition. */
  lemma {:induction false} OrIsSum(high: nat, low: nat, n: nat)
    requires low < Pow2(n)
    ensures BitOr(high * Pow2(n), low) == high * Pow2(n) + low
    decreases n
  {
    if n == 0 {
      OrWithZero(high);
    } else {
      var h := high * Pow2(n - 1);
      assert high * Pow2(n) == 2 * h;
      assert (2 * h) / 2 == h && (2 * h) % 2 == 0;
      OrIsSum(high, low / 2, n - 1);
      if 2 * h == 0 && low == 0 {
      } else {
        assert BitOr(2 * h, low) == 2 * BitOr(h, low / 2) + low % 2;
      }
    }
  }

  lemma {:induction false} OrWithZero(a: nat)
    ensures BitOr(a, 0) == a
  {
    if a != 0 {
      OrWithZero(a / 2);
    }
  }

  /** A mask of `n` ones takes the low bits and a shift by `n` the others. */
  lemma {:induction false} MaskAndShift(high: nat, low: nat, n: nat)
    requires low < Pow2(n)
    ensures BitAnd(high * Pow2(n) + low, Pow2(n) - 1) == low
    ensures ShiftRight(high * Pow2(n) + low, n) == high
    decreases n
  {
    if n > 0 {
      var p := Pow2(n - 1);
      var a := high * Pow2(n) + low;
      Halves(high, p, low);
      MaskAndShift(high, low / 2, n - 1);
      assert (2 * p - 1) / 2 == p - 1 && (2 * p - 1) % 2 == 1;
      if a > 0 {
        assert BitAnd(a, 2 * p - 1) == 2 * BitAnd(a / 2, p - 1) + a % 2;
      }
    }
  }

  lemma Halves(high: nat, p: nat, low: nat)
    ensures (high * (2 * p) + low) / 2 == high * p + low / 2
    ensures (high * (2 * p) + low) % 2 == low % 2
  {
    var h := high * p;
    assert high * (2 * p) == 2 * h;
  }

  lemma Pow2Of16()
    ensures Pow2(TOKEN_INDEX_BITS) == 0x1_0000
  {
    assert Pow2(4) == 16;
    assert Pow2(8) == 256;
    assert Pow2(12) == 4096;
    assert Pow2(16) == 65536;
  }

  /** What the token holds, in arithmetic: nothing is shifted out and no bits overlap. */
  lemma EncodeIsPacking(index: nat, generation: nat)
    requires index < TOKEN_INDEX_MASK && generation <= MAX_GENERATION
    ensures EncodeToken(index, generation) == generation * 0x1_0000 + index + 1 < WORD
  {
    ShiftIsPower(generation, TOKEN_INDEX_BITS);
    OrIsSum(generation, index + 1, TOKEN_INDEX_BITS);
  }

  lemma ShiftIsPower(a: nat, n: nat)
    requires n == TOKEN_INDEX_BITS && a <= MAX_GENERATION
    ensures Pow2(n) == 0x1_0000 && ShiftLeft(a, n) == a * 0x1_0000
  {
    Pow2Of16();
  }

  lemma DecodeIsUnpacking(token: nat)
    ensures BitAnd(token, TOKEN_INDEX_MASK) == token % 0x1_0000
    ensures ShiftRight(token, TOKEN_INDEX_BITS) == token / 0x1_0000
  {
    Pow2Of16();
    MaskAndShift(token / 0x1_0000, token % 0x1_0000, TOKEN_INDEX_BITS);
  }

  // ------------------------------------------------------------- round trips

  lemma TokenRoundTrip(index: nat, generation: nat)
    requires index < TOKEN_INDEX_MASK && 1 <= generation <= MAX_GENERATION
    ensures DecodeToken(EncodeToken(index, generation)) == Some((index, generation))
  {
    EncodeIsPacking(index, generation);
    DecodePacked(index + 1, generation, EncodeToken(index, generation));
  }

  lemma DecodePacked(low: nat, high: nat, token: nat)
    requires 0 < low < 0x1_0000 && 0 < high && token == high * 0x1_0000 + low
    ensures DecodeToken(token) == Some((low - 1, high))
  {
    DecodeIsUnpacking(token);
    assert token % 0x1_0000 == low && token / 0x1_0000 == high;
  }

  /** Every 64-bit word that decodes is the token of what it decodes to. */
  lemma DecodedTokenIsEncoded(token: nat)
    requires token < WORD && DecodeToken(token).Some?
    ensures var (index, generation) := DecodeToken(token).value;
      && index < TOKEN_INDEX_MASK && 1 <= generation <= MAX_GENERATION
      && EncodeToken(index, generation) == token
  {
    DecodeIsUnpacking(token);
    var (index, generation) := DecodeToken(token).value;
    EncodeIsPacking(index, generation);
  }

  lemma TokensAreInjective(i: nat, g: nat, j: nat, h: nat)
    requires i < TOKEN_INDEX_MASK && 1 <= g <= MAX_GENERATION
    requires j < TOKEN_INDEX_MASK && 1 <= h <= MAX_GENERATION
    requires EncodeToken(i, g) == EncodeToken(j, h)
    ensures i == j && g == h
  {
    TokenRoundTrip(i, g);
    TokenRoundTrip(j, h);
  }

  /** One generation past the limit is indistinguishable from an earlier one. */
  lemma GenerationsPastTheLimitCollide(index: nat)
    requires index < TOKEN_INDEX_MASK
    ensures EncodeToken(index, MAX_GENERATION + 2) == EncodeToken(index, 1)
  {
    Pow2Of16();
    assert ShiftLeft(MAX_GENERATION + 2, TOKEN_INDEX_BITS) == ShiftLeft(1, TOKEN_INDEX_BITS);
  }

  // --------------------------------------------------------------- addresses

  const TOKEN_OFFSET := 8

  /** The slab of slots: `len` of them, each `stride` bytes, from address `start`. */
  datatype Slab = Slab(start: nat, stride: nat, len: nat)

  predicate ValidSlab(s: Slab) { s.stride > TOKEN_OFFSET && s.start + s.stride * s.len <= WORD }

  function BaseAddress(s: Slab, index: nat): nat { s.start + s.stride * index }

  function Payload(s: Slab, index: nat): nat { BaseAddress(s, index) + TOKEN_OFFSET }

  predicate Contains(s: Slab, address: nat) { s.start <= address < s.start + s.stride * s.len }

  function IndexForBase(s: Slab, address: nat): Option<nat>
    requires s.stride > 0
  {
    if address < s.start then None
    else
      var offset := address - s.start;
      if offset % s.stride != 0 then None
      else
        var index := offset / s.stride;
        if index < s.len then Some(index) else None
  }

  function PayloadIndex(s: Slab, handle: nat): Option<nat>
    requires s.stride > 0
  {
    if handle == 0 || handle < TOKEN_OFFSET then None
    else
      var index := IndexForBase(s, handle - TOKEN_OFFSET);
      if index.Some? && Payload(s, index.value) == handle then index else None
  }

  lemma Multiple(d: nat, q: nat)
    requires d >= 1
    ensures d * q % d == 0 && d * q / d == q
    decreases q
  {
    if q > 0 {
      Multiple(d, q - 1);
      var a := d * (q - 1);
      assert d * q == a + d;
      DivStep(a, d);
    }
  }

  lemma DivStep(a: nat, d: nat)
    requires d >= 1
    ensures (a + d) / d == a / d + 1 && (a + d) % d == a % d
  {
    var q, r := a / d, a % d;
    var q', r' := (a + d) / d, (a + d) % d;
    assert a == d * q + r;
    assert a + d == d * q' + r';
    assert d * (q' - q - 1) == d * q' - d * q - d;
    Squeeze(d, q' - q - 1, r - r');
  }

  lemma Product(d: int, x: int)
    requires d >= 0
    ensures x >= 1 ==> d * x >= d
    ensures x <= -1 ==> d * x <= -d
  {
  }

  lemma Squeeze(d: int, x: int, r: int)
    requires d >= 0 && d * x == r && -d < r < d
    ensures x == 0
  {
    Product(d, x);
  }

  /** The search is exactly inverse to slot addressing. */
  lemma BaseInverse(s: Slab, address: nat, index: nat)
    requires ValidSlab(s)
    ensures IndexForBase(s, address) == Some(index) <==> index < s.len && address == BaseAddress(s, index)
  {
    Multiple(s.stride, index);
    if address >= s.start {
      var offset := address - s.start;
      assert offset == s.stride * (offset / s.stride) + offset % s.stride;
    }
  }

  lemma PayloadInverse(s: Slab, handle: nat, index: nat)
    requires ValidSlab(s)
    ensures PayloadIndex(s, handle) == Some(index) <==> index < s.len && handle == Payload(s, index)
  {
    if handle >= TOKEN_OFFSET {
      BaseInverse(s, handle - TOKEN_OFFSET, index);
    }
  }

  lemma BaseInside(s: Slab, index: nat)
    requires ValidSlab(s) && index < s.len
    ensures Contains(s, BaseAddress(s, index))
  {
    assert s.stride * (index + 1) <= s.stride * s.len;
  }
}
