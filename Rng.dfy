/** The generator of src/rng.c: xoshiro128++ over a four-word state,
    seeded by four splitmix32 steps whose output goes through the
    MurmurHash3 32-bit finaliser. Every operation is 32-bit wrap-around
    arithmetic on `uint32_t`, which `bv32` gives exactly.

    The word operations the step uses (wrapping add, xor, shift left,
    rotate left) are named functions, and the generator's state and the
    closed forms are written with them, so that a method's update and the
    function that specifies it meet term for term. */
module Rng {
  /** The increment splitmix32 adds to its seed (src/rng.c:10). */
  const Golden: bv32 := 0x9E3779B9
  /** The seed used in place of 0 (src/rng.c:18-20). */
  const ZeroSeed: bv32 := 0xA3C59AC3
  /** The all-zero state of the static array before any seeding (src/rng.c:3). */
  const Zeros: seq<bv32> := [0, 0, 0, 0]

  // ----- Word operations -----

  /** `uint32_t` addition, modulo 2^32. */
  function Add(a: bv32, b: bv32): bv32
  {
    a + b
  }

  /** 0 is the unit of addition modulo 2^32. */
  lemma AddZero(a: bv32)
    ensures Add(0, a) == a && Add(a, 0) == a
  {
  }

  function Xor(a: bv32, b: bv32): bv32
  {
    a ^ b
  }

  /** `x << k` on `uint32_t`: the bits shifted out are lost. */
  function Shl(x: bv32, k: bv32): bv32
    requires k < 32
  {
    x << k
  }

  /** rotl32 (src/rng.c:5-7). The C shift by 32 - k is undefined for
      k == 0, so k is kept in 1..31; the file only uses 7 and 11. */
  function Rotl32(x: bv32, k: bv32): bv32
    requires 0 < k < 32
  {
    (x << k) | (x >> (32 - k))
  }

  /** Rotating left by 11 and by 21 undo each other. */
  lemma Rotl11Inverse(x: bv32)
    ensures Rotl32(Rotl32(x, 11), 21) == x
    ensures Rotl32(Rotl32(x, 21), 11) == x
  {
  }

  lemma XorCancel(x: bv32, y: bv32)
    ensures Xor(Xor(x, y), y) == x
    ensures Xor(x, Xor(y, x)) == y
  {
  }

  lemma XorMiddle(x: bv32, t: bv32, u: bv32)
    ensures Xor(Xor(x, t), Xor(t, u)) == Xor(x, u)
  {
  }

  lemma XorAssociates(a: bv32, b: bv32, c: bv32)
    ensures Xor(Xor(a, b), c) == Xor(a, Xor(b, c))
  {
  }

  lemma XorCommutes(a: bv32, b: bv32)
    ensures Xor(a, b) == Xor(b, a)
  {
  }

  lemma {:induction false} XorDrop(x: bv32, y: bv32, z: bv32)
    ensures Xor(Xor(Xor(x, y), z), y) == Xor(x, z)
  {
    XorAssociates(Xor(x, y), z, y);
    XorCommutes(z, y);
    XorMiddle(x, y, z);
  }

  lemma XorRegroup(u: bv32, r: bv32, v: bv32)
    ensures Xor(u, Xor(r, v)) == Xor(Xor(u, v), r)
  {
  }

  // ----- The finaliser -----

  /** The finaliser splitmix32 applies to the advanced seed
      (src/rng.c:11-13): xor-shift 16, multiply by 0x85EBCA6B, xor-shift
      13, multiply by 0xC2B2AE35, xor-shift 16, all modulo 2^32. It sends
      0, and only 0, to 0. */
  function Fmix32(z: bv32): (r: bv32)
    ensures r == 0 <==> z == 0
  {
    var a := (z ^ (z >> 16)) * 0x85EBCA6B;
    var b := (a ^ (a >> 13)) * 0xC2B2AE35;
    b ^ (b >> 16)
  }

  // ----- Seeding -----

  /** The state rng_seed leaves (src/rng.c:17-26): four successive
      splitmix32 outputs (src/rng.c:9-15), each advancing the seed by
      Golden and finalising it, from the seed with 0 standing for
      ZeroSeed. */
  function SeededState(seed: bv32): (w: seq<bv32>)
    ensures |w| == 4
  {
    var s0 := if seed == 0 then ZeroSeed else seed;
    var s1 := Add(s0, Golden);
    var s2 := Add(s1, Golden);
    var s3 := Add(s2, Golden);
    var s4 := Add(s3, Golden);
    [Fmix32(s1), Fmix32(s2), Fmix32(s3), Fmix32(s4)]
  }

  /** Seeding with 0 is seeding with ZeroSeed. */
  lemma SeedZeroAlias()
    ensures SeededState(0) == SeededState(ZeroSeed)
  {
  }

  lemma GoldenNonZero(x: bv32)
    ensures x == 0 ==> Add(x, Golden) != 0
  {
  }

  /** Seeding never leaves the all-zero state, on which xoshiro128++
      would be stuck: the first two words cannot both be zero, since the
      finaliser only maps 0 to 0 and the two splitmix seeds differ by the
      nonzero Golden. */
  lemma {:induction false} SeededNonZero(seed: bv32)
    ensures SeededState(seed) != Zeros
  {
    var s1 := Add(if seed == 0 then ZeroSeed else seed, Golden);
    var w := SeededState(seed);
    assert w[0] == Fmix32(s1) && w[1] == Fmix32(Add(s1, Golden));
    GoldenNonZero(s1);
  }

  // ----- One step of xoshiro128++ -----

  /** The value rng_u32 returns, from the state before the update
      (src/rng.c:29). */
  function Output(w: seq<bv32>): (r: bv32)
    requires |w| == 4
    ensures w[0] == 0 ==> r == Rotl32(w[3], 7)
    ensures w[0] == 0 && w[3] == 0 ==> r == 0
  {
    AddZero(w[3]);
    AddZero(Rotl32(Add(w[0], w[3]), 7));
    Add(Rotl32(Add(w[0], w[3]), 7), w[0])
  }

  /** The state after rng_u32, each word in closed form
      (src/rng.c:31-39). */
  function NextState(w: seq<bv32>): (r: seq<bv32>)
    requires |w| == 4
    ensures |r| == 4
  {
    [Xor(w[0], Xor(w[3], w[1])),
     Xor(w[1], Xor(w[2], w[0])),
     Xor(Xor(w[2], w[0]), Shl(w[1], 9)),
     Rotl32(Xor(w[3], w[1]), 11)]
  }

  /** Undoes `x ^ (x << 9)`. */
  function UnXorShl9(y: bv32): bv32
  {
    y ^ (y << 9) ^ (y << 18) ^ (y << 27)
  }

  /** The step run backwards: word 3 rotated back gives s3 ^ s1, word 0
      then gives s0, words 1 and 2 together give s1 ^ (s1 << 9). */
  function PreviousState(r: seq<bv32>): (w: seq<bv32>)
    requires |r| == 4
    ensures |w| == 4
  {
    var a := Rotl32(r[3], 21);
    var s0 := Xor(r[0], a);
    var s1 := UnXorShl9(Xor(r[1], r[2]));
    [s0, s1, Xor(Xor(r[2], s0), Shl(s1, 9)), Xor(a, s1)]
  }

  // Byte-wise facts about `x ^ (x << 9)`, combined by ByteWiseEqual.

  lemma UnXorShl9Byte0(x: bv32, y: bv32)
    requires y == Xor(x, Shl(x, 9))
    ensures (UnXorShl9(y) ^ x) & 0xFF == 0
  {
  }

  lemma UnXorShl9Byte1(x: bv32, y: bv32)
    requires y == Xor(x, Shl(x, 9))
    ensures (UnXorShl9(y) ^ x) & 0xFF00 == 0
  {
  }

  lemma UnXorShl9Byte2(x: bv32, y: bv32)
    requires y == Xor(x, Shl(x, 9))
    ensures (UnXorShl9(y) ^ x) & 0xFF0000 == 0
  {
  }

  lemma UnXorShl9Byte3(x: bv32, y: bv32)
    requires y == Xor(x, Shl(x, 9))
    ensures (UnXorShl9(y) ^ x) & 0xFF000000 == 0
  {
  }

  lemma XorShl9Byte0(x: bv32, y: bv32)
    requires x == UnXorShl9(y)
    ensures (Xor(x, Shl(x, 9)) ^ y) & 0xFF == 0
  {
  }

  lemma XorShl9Byte1(x: bv32, y: bv32)
    requires x == UnXorShl9(y)
    ensures (Xor(x, Shl(x, 9)) ^ y) & 0xFF00 == 0
  {
  }

  lemma XorShl9Byte2(x: bv32, y: bv32)
    requires x == UnXorShl9(y)
    ensures (Xor(x, Shl(x, 9)) ^ y) & 0xFF0000 == 0
  {
  }

  lemma XorShl9Byte3(x: bv32, y: bv32)
    requires x == UnXorShl9(y)
    ensures (Xor(x, Shl(x, 9)) ^ y) & 0xFF000000 == 0
  {
  }

  lemma ByteWiseEqual(a: bv32, b: bv32)
    ensures ((a ^ b) & 0xFF == 0 && (a ^ b) & 0xFF00 == 0 && (a ^ b) & 0xFF0000 == 0 &&
             (a ^ b) & 0xFF000000 == 0) ==> a == b
  {
  }

  /** UnXorShl9 and the xor-shift-left by 9 of the step undo each other. */
  lemma UnXorShl9Inverse(x: bv32, y: bv32)
    ensures UnXorShl9(Xor(x, Shl(x, 9))) == x
    ensures Xor(UnXorShl9(y), Shl(UnXorShl9(y), 9)) == y
  {
    UnXorShl9Undoes(x);
    XorShl9Undoes(y);
  }

  lemma {:induction false} UnXorShl9Undoes(x: bv32)
    ensures UnXorShl9(Xor(x, Shl(x, 9))) == x
  {
    var fx := Xor(x, Shl(x, 9));
    UnXorShl9Byte0(x, fx);
    UnXorShl9Byte1(x, fx);
    UnXorShl9Byte2(x, fx);
    UnXorShl9Byte3(x, fx);
    ByteWiseEqual(UnXorShl9(fx), x);
  }

  lemma {:induction false} XorShl9Undoes(y: bv32)
    ensures Xor(UnXorShl9(y), Shl(UnXorShl9(y), 9)) == y
  {
    XorShl9Bytes(UnXorShl9(y), y);
    ByteWiseEqual(Xor(UnXorShl9(y), Shl(UnXorShl9(y), 9)), y);
  }

  lemma {:induction false} XorShl9Bytes(u: bv32, y: bv32)
    requires u == UnXorShl9(y)
    ensures (Xor(u, Shl(u, 9)) ^ y) & 0xFF == 0 && (Xor(u, Shl(u, 9)) ^ y) & 0xFF00 == 0
    ensures (Xor(u, Shl(u, 9)) ^ y) & 0xFF0000 == 0 && (Xor(u, Shl(u, 9)) ^ y) & 0xFF000000 == 0
  {
    XorShl9Byte0(u, y);
    XorShl9Byte1(u, y);
    XorShl9Byte2(u, y);
    XorShl9Byte3(u, y);
  }

  /** PreviousState undoes the step. */
  lemma {:induction false} NextStateRoundTrip(w: seq<bv32>)
    requires |w| == 4
    ensures PreviousState(NextState(w)) == w
  {
    var r := NextState(w);
    var p := PreviousState(r);
    Rotl11Inverse(Xor(w[3], w[1]));
    XorCancel(w[0], Xor(w[3], w[1]));
    assert p[0] == w[0];
    XorMiddle(w[1], Xor(w[2], w[0]), Shl(w[1], 9));
    UnXorShl9Inverse(w[1], 0);
    assert p[1] == w[1];
    XorDrop(Xor(w[2], w[0]), Shl(w[1], 9), w[0]);
    XorCancel(w[2], w[0]);
    XorCancel(Xor(w[2], w[0]), Shl(w[1], 9));
    assert p[2] == w[2];
    XorCancel(w[3], w[1]);
    assert p[3] == w[3];
  }

  /** The step undoes PreviousState: together with NextStateRoundTrip,
      the step is a bijection on states. */
  lemma {:induction false} PreviousStateRoundTrip(r: seq<bv32>)
    requires |r| == 4
    ensures NextState(PreviousState(r)) == r
  {
    var w := PreviousState(r);
    var n := NextState(w);
    var a := Rotl32(r[3], 21);
    var u := UnXorShl9(Xor(r[1], r[2]));
    UnXorShl9Inverse(0, Xor(r[1], r[2]));
    XorCancel(a, u);
    XorCancel(r[0], a);
    assert n[0] == r[0];
    XorDrop(r[2], w[0], Shl(u, 9));
    assert Xor(w[2], w[0]) == Xor(r[2], Shl(u, 9));
    XorRegroup(u, r[2], Shl(u, 9));
    XorCancel(r[1], r[2]);
    assert n[1] == r[1];
    XorCancel(r[2], Shl(u, 9));
    assert n[2] == r[2];
    Rotl11Inverse(r[3]);
    assert n[3] == r[3];
  }

  /** Different states step to different states. */
  lemma NextStateInjective(v: seq<bv32>, w: seq<bv32>)
    requires |v| == 4 && |w| == 4
    ensures NextState(v) == NextState(w) ==> v == w
  {
    NextStateRoundTrip(v);
    NextStateRoundTrip(w);
  }

  /** The all-zero state is a fixed point that outputs 0, and it is the
      only state the step sends to zero: a seeded generator never reaches
      it. */
  lemma {:induction false} ZeroOnlyFixedPoint(w: seq<bv32>)
    requires |w| == 4
    ensures NextState(Zeros) == Zeros && Output(Zeros) == 0
    ensures NextState(w) == Zeros <==> w == Zeros
  {
    assert NextState(Zeros) == Zeros;
    NextStateInjective(w, Zeros);
  }

  /** The static `rng_state[4]` with rng_seed and rng_u32. */
  class Xoshiro128 {
    const state: array<bv32>

    ghost predicate Valid()
      reads this
    {
      state.Length == 4
    }

    /** The zero-initialised static array (src/rng.c:3). */
    constructor ()
      ensures Valid() && state[..] == Zeros && fresh(state)
    {
      state := new bv32[4](_ => 0);
    }

    /** rng_seed (src/rng.c:17-26), with the four splitmix32 calls
        (src/rng.c:9-15) written out: each advances the seed and stores
        its finalised value. */
    method Seed(seed: bv32)
      requires Valid()
      modifies state
      ensures Valid() && state[..] == SeededState(seed)
    {
      var s := seed;
      if s == 0 {
        s := ZeroSeed;
      }
      s := Add(s, Golden);
      state[0] := Fmix32(s);
      s := Add(s, Golden);
      state[1] := Fmix32(s);
      s := Add(s, Golden);
      state[2] := Fmix32(s);
      s := Add(s, Golden);
      state[3] := Fmix32(s);
    }

    /** rng_u32 (src/rng.c:28-42): the result from the old state, then
        the state updated word by word in place. */
    method Next() returns (result: bv32)
      requires Valid()
      modifies state
      ensures Valid() && result == Output(old(state[..])) && state[..] == NextState(old(state[..]))
    {
      ghost var w := state[..];
      result := Add(Rotl32(Add(state[0], state[3]), 7), state[0]);
      var t := Shl(state[1], 9);
      state[2] := Xor(state[2], state[0]);
      state[3] := Xor(state[3], state[1]);
      state[1] := Xor(state[1], state[2]);
      state[0] := Xor(state[0], state[3]);
      state[2] := Xor(state[2], t);
      state[3] := Rotl32(state[3], 11);
      assert state[..] == NextState(w);
    }
  }
}
