/**
 The workload generator's random numbers (crates/attemptdb-bench/src/rng.rs): xoshiro256** seeded
 through SplitMix64. Words are 64-bit vectors, so `wrapping_add` and `wrapping_mul` are `+` and `*`.
 The word operations are named, so that a lemma about one of them is about that name and the
 lemmas about whole states never look inside a word.
 */
module Rng {

  type Word = bv64

  function Xor(a: Word, b: Word): Word {
    a ^ b
  }

  function Times(a: Word, b: Word): Word {
    a * b
  }

  // ---------------------------------------------------------------------------
  // Word operations and their inverses
  // ---------------------------------------------------------------------------

  function Xorshift30(z: Word): Word {
    z ^ (z >> 30)
  }

  function Xorshift27(z: Word): Word {
    z ^ (z >> 27)
  }

  function Xorshift31(z: Word): Word {
    z ^ (z >> 31)
  }

  function Unshift30(z: Word): Word {
    z ^ (z >> 30) ^ (z >> 60)
  }

  function Unshift27(z: Word): Word {
    z ^ (z >> 27) ^ (z >> 54)
  }

  function Unshift31(z: Word): Word {
    z ^ (z >> 31) ^ (z >> 62)
  }

  function Shift17(x: Word): Word {
    x << 17
  }

  function Unshift17(x: Word): Word {
    x ^ (x << 17) ^ (x << 34) ^ (x << 51)
  }

  function RotateLeft7(x: Word): Word {
    (x << 7) | (x >> 57)
  }

  function RotateLeft45(x: Word): Word {
    (x << 45) | (x >> 19)
  }

  function RotateRight45(x: Word): Word {
    (x >> 45) | (x << 19)
  }

  lemma BitsOfMix(z: Word)
    ensures Unshift30(z ^ (z >> 30)) == z && Unshift27(z ^ (z >> 27)) == z && Unshift31(z ^ (z >> 31)) == z
  {
  }

  /** The xorshifts of the finaliser can be undone. */
  lemma UnshiftXorshift(z: Word)
    ensures Unshift30(Xorshift30(z)) == z && Unshift27(Xorshift27(z)) == z && Unshift31(Xorshift31(z)) == z
  {
    BitsOfMix(z);
  }

  lemma Bits17(x: Word)
    ensures Unshift17(x ^ (x << 17)) == x
    ensures Xor(x ^ (x << 17) ^ (x << 34) ^ (x << 51), (x ^ (x << 17) ^ (x << 34) ^ (x << 51)) << 17) == x
  {
  }

  lemma Names17(x: Word)
    ensures Unshift17(Xor(x, x << 17)) == x && Xor(Unshift17(x), Unshift17(x) << 17) == x
  {
    Bits17(x);
  }

  /** So can the shift of the step, */
  lemma Back17(x: Word)
    ensures Unshift17(Xor(x, Shift17(x))) == x
  {
    Names17(x);
  }

  /** and every word is reached by it. */
  lemma Forth17(x: Word)
    ensures Xor(Unshift17(x), Shift17(Unshift17(x))) == x
  {
    Names17(x);
  }

  lemma Rotations(x: Word)
    ensures RotateRight45(RotateLeft45(x)) == x && RotateLeft45(RotateRight45(x)) == x
  {
  }

  lemma XorCancels(a: Word, b: Word)
    ensures Xor(Xor(a, b), b) == a
    ensures Xor(Xor(a, b), a) == b
    ensures Xor(a, Xor(b, a)) == b
    ensures Xor(a, Xor(a, b)) == b
  {
  }

  lemma XorTelescopes(a: Word, b: Word, c: Word)
    ensures Xor(Xor(a, b), Xor(b, c)) == Xor(a, c)
  {
  }

  lemma XorAssociates(a: Word, b: Word, c: Word)
    ensures Xor(Xor(a, b), c) == Xor(a, Xor(b, c))
  {
  }

  lemma ProductAssociates(z: Word, c: Word, d: Word)
    ensures Times(z * c, d) == Times(z, c * d)
  {
  }

  lemma TimesAssociates(z: Word, c: Word, d: Word)
    ensures Times(Times(z, c), d) == Times(z, Times(c, d))
  {
    ProductAssociates(z, c, d);
  }

  // ---------------------------------------------------------------------------
  // SplitMix64
  // ---------------------------------------------------------------------------

  function Multiply1(z: Word): Word {
    Times(z, 0xbf58_476d_1ce4_e5b9)
  }

  function Multiply2(z: Word): Word {
    Times(z, 0x94d0_49bb_1331_11eb)
  }

  function Mix(z: Word): Word {
    Xorshift31(Multiply2(Xorshift27(Multiply1(Xorshift30(z)))))
  }

  /** The finaliser run backwards; the factors are the inverses of the two multipliers modulo 2^64. */
  function Unmix(z: Word): Word {
    Unshift30(Times(Unshift27(Times(Unshift31(z), 0x3196_42b2_d24d_8ec3)), 0x96de_1b17_3f11_9089))
  }

  lemma Unmultiply(z: Word)
    ensures Times(Multiply1(z), 0x96de_1b17_3f11_9089) == z
    ensures Times(Multiply2(z), 0x3196_42b2_d24d_8ec3) == z
  {
    TimesAssociates(z, 0xbf58_476d_1ce4_e5b9, 0x96de_1b17_3f11_9089);
    TimesAssociates(z, 0x94d0_49bb_1331_11eb, 0x3196_42b2_d24d_8ec3);
  }

  /** The finaliser loses nothing: `Unmix` takes every output back to its input. */
  lemma UnmixMix(z: Word)
    ensures Unmix(Mix(z)) == z
  {
    var a := Multiply1(Xorshift30(z));
    var b := Multiply2(Xorshift27(a));
    UnshiftXorshift(b);
    Unmultiply(Xorshift27(a));
    UnshiftXorshift(a);
    Unmultiply(Xorshift30(z));
    UnshiftXorshift(z);
  }

  /** The counter `splitmix` keeps, one call later. */
  function Counter(state: Word): Word {
    state + 0x9e37_79b9_7f4a_7c15
  }

  /** `splitmix`, the counter it is lent returned with the output. */
  method Splitmix(state: Word) returns (state': Word, output: Word)
    ensures state' == Counter(state)
    ensures output == Mix(state')
    ensures Unmix(output) == state'
  {
    state' := state + 0x9e37_79b9_7f4a_7c15;
    var z := state';
    z := Times(Xorshift30(z), 0xbf58_476d_1ce4_e5b9);
    z := Times(Xorshift27(z), 0x94d0_49bb_1331_11eb);
    output := Xorshift31(z);
    UnmixMix(state');
  }

  lemma CountersDiffer(seed: Word)
    ensures var a := Counter(seed); var b := Counter(a); var c := Counter(b); var d := Counter(c);
      a != b && a != c && a != d && b != c && b != d && c != d
  {
    assert Counter(seed) == seed + 0x9e37_79b9_7f4a_7c15;
  }

  // ---------------------------------------------------------------------------
  // xoshiro256**
  // ---------------------------------------------------------------------------

  datatype State = State(s0: Word, s1: Word, s2: Word, s3: Word)

  const ZERO := State(0, 0, 0, 0)

  function Seeded(seed: Word): State {
    var a := Counter(seed);
    var b := Counter(a);
    var c := Counter(b);
    State(Mix(a), Mix(b), Mix(c), Mix(Counter(c)))
  }

  function Output(s: State): Word {
    Times(RotateLeft7(Times(s.s1, 5)), 9)
  }

  function Step(s: State): State {
    State(
      Xor(s.s0, Xor(s.s3, s.s1)),
      Xor(s.s1, Xor(s.s2, s.s0)),
      Xor(Xor(s.s2, s.s0), Shift17(s.s1)),
      RotateLeft45(Xor(s.s3, s.s1)))
  }

  /** The step run backwards. */
  function Unstep(s: State): State {
    var d := RotateRight45(s.s3);
    var s1 := Unshift17(Xor(s.s1, s.s2));
    var s0 := Xor(s.s0, d);
    State(s0, s1, Xor(Xor(s.s1, s1), s0), Xor(d, s1))
  }

  lemma UnstepStep(s: State)
    ensures Unstep(Step(s)) == s
  {
    Rotations(Xor(s.s3, s.s1));
    XorTelescopes(s.s1, Xor(s.s2, s.s0), Shift17(s.s1));
    Back17(s.s1);
    XorCancels(s.s0, Xor(s.s3, s.s1));
    XorCancels(s.s1, Xor(s.s2, s.s0));
    XorCancels(s.s2, s.s0);
    XorCancels(s.s3, s.s1);
  }

  lemma StepUnstep(s: State)
    ensures Step(Unstep(s)) == s
  {
    var p := Unstep(s);
    var d := RotateRight45(s.s3);
    Rotations(s.s3);
    XorCancels(d, p.s1);
    XorCancels(s.s0, d);
    XorCancels(Xor(s.s1, p.s1), p.s0);
    XorCancels(p.s1, s.s1);
    Forth17(Xor(s.s1, s.s2));
    XorAssociates(s.s1, p.s1, Shift17(p.s1));
    XorCancels(s.s1, s.s2);
  }

  /** The four seed words differ from each other, so no seed gives the state zero. */
  lemma SeedWordsDiffer(seed: Word)
    ensures var s := Seeded(seed);
      s.s0 != s.s1 && s.s0 != s.s2 && s.s0 != s.s3 && s.s1 != s.s2 && s.s1 != s.s3 && s.s2 != s.s3
    ensures Seeded(seed) != ZERO
  {
    var a := Counter(seed);
    var b := Counter(a);
    var c := Counter(b);
    UnmixMix(a);
    UnmixMix(b);
    UnmixMix(c);
    UnmixMix(Counter(c));
    CountersDiffer(seed);
  }

  /** The state after `n` draws. */
  function Run(s: State, n: nat): State {
    if n == 0 then s else Step(Run(s, n - 1))
  }

  /** No run enters or leaves the state zero. */
  lemma {:induction false} NeverZero(s: State, n: nat)
    ensures Run(s, n) == ZERO <==> s == ZERO
  {
    if n > 0 {
      NeverZero(s, n - 1);
      UnstepStep(Run(s, n - 1));
      UnstepStep(ZERO);
    }
  }

  lemma SeededRunIsNeverZero(seed: Word, n: nat)
    ensures Run(Seeded(seed), n) != ZERO
  {
    SeedWordsDiffer(seed);
    NeverZero(Seeded(seed), n);
  }

  lemma {:induction false} RunAdds(s: State, m: nat, n: nat)
    ensures Run(Run(s, m), n) == Run(s, m + n)
  {
    if n > 0 {
      RunAdds(s, m, n - 1);
    }
  }

  lemma {:induction false} RunIsInjective(s: State, t: State, n: nat)
    requires Run(s, n) == Run(t, n)
    ensures s == t
  {
    if n > 0 {
      UnstepStep(Run(s, n - 1));
      UnstepStep(Run(t, n - 1));
      RunIsInjective(s, t, n - 1);
    }
  }

  /** A run repeats a state only after it has come back to where it started. */
  lemma RepeatMeansReturn(s: State, i: nat, j: nat)
    requires i < j && Run(s, i) == Run(s, j)
    ensures Run(s, j - i) == s
  {
    RunAdds(s, j - i, i);
    RunIsInjective(s, Run(s, j - i), i);
  }

  // ---------------------------------------------------------------------------
  // The output
  // ---------------------------------------------------------------------------

  function RotateRight7(x: Word): Word {
    (x >> 7) | (x << 57)
  }

  /** The scrambler run backwards; the factors are the inverses of 9 and 5 modulo 2^64. */
  function Unscramble(w: Word): Word {
    Times(RotateRight7(Times(w, 0x8e38_e38e_38e3_8e39)), 0xcccc_cccc_cccc_cccd)
  }

  lemma RotateBack7(x: Word)
    ensures RotateRight7(RotateLeft7(x)) == x
  {
  }

  lemma UnmultiplyOutput(x: Word)
    ensures Times(Times(x, 9), 0x8e38_e38e_38e3_8e39) == x && Times(Times(x, 5), 0xcccc_cccc_cccc_cccd) == x
  {
    TimesAssociates(x, 9, 0x8e38_e38e_38e3_8e39);
    TimesAssociates(x, 5, 0xcccc_cccc_cccc_cccd);
  }

  /** The output is the second word scrambled, and nothing of that word is lost. */
  lemma OutputIsTheSecondWord(s: State, t: State)
    ensures Unscramble(Output(s)) == s.s1
    ensures Output(s) == Output(t) <==> s.s1 == t.s1
  {
    UnscrambleOutput(s);
    UnscrambleOutput(t);
  }

  lemma UnscrambleOutput(s: State)
    ensures Unscramble(Output(s)) == s.s1
  {
    var five := Times(s.s1, 5);
    UnmultiplyOutput(RotateLeft7(five));
    RotateBack7(five);
    UnmultiplyOutput(s.s1);
  }

  /** The published generators: SplitMix64 from 0, and the first outputs of xoshiro256** from (1, 2, 3, 4). */
  lemma ReferenceOutputs()
    ensures Mix(Counter(0)) == 0xe220_a839_7b1d_cdaf
    ensures var a := State(1, 2, 3, 4); var b := Step(a); var c := Step(b);
      Output(a) == 11520 && Output(b) == 0 && Output(c) == 1509978240
  {
  }

  // ---------------------------------------------------------------------------
  // Every run is periodic from its start
  // ---------------------------------------------------------------------------

  const WORDS: nat := 0x1_0000_0000_0000_0000

  function Index(w: Word): (n: nat)
    ensures n < WORDS
  {
    w as nat
  }

  lemma IndexIsInjective(a: Word, b: Word)
    requires Index(a) == Index(b)
    ensures a == b
  {
    assert a as nat as Word == a;
    assert b as nat as Word == b;
  }

  /** Two digits to the base `WORDS`. */
  function Pair(h: nat, l: nat): nat {
    h * WORDS + l
  }

  lemma PairIsInjective(h: nat, l: nat, h': nat, l': nat)
    requires l < WORDS && l' < WORDS && Pair(h, l) == Pair(h', l')
    ensures h == h' && l == l'
  {
  }

  /** A state as one number of four digits. */
  function Code(s: State): nat {
    Pair(Pair(Pair(Index(s.s0), Index(s.s1)), Index(s.s2)), Index(s.s3))
  }

  lemma DigitsAreUnique(a: nat, b: nat, c: nat, d: nat, a': nat, b': nat, c': nat, d': nat)
    requires b < WORDS && c < WORDS && d < WORDS && b' < WORDS && c' < WORDS && d' < WORDS
    requires Pair(Pair(Pair(a, b), c), d) == Pair(Pair(Pair(a', b'), c'), d')
    ensures a == a' && b == b' && c == c' && d == d'
  {
    PairIsInjective(Pair(Pair(a, b), c), d, Pair(Pair(a', b'), c'), d');
    PairIsInjective(Pair(a, b), c, Pair(a', b'), c');
    PairIsInjective(a, b, a', b');
  }

  lemma CodeGivesIndices(s: State, t: State)
    requires Code(s) == Code(t)
    ensures Index(s.s0) == Index(t.s0) && Index(s.s1) == Index(t.s1)
    ensures Index(s.s2) == Index(t.s2) && Index(s.s3) == Index(t.s3)
  {
    DigitsAreUnique(Index(s.s0), Index(s.s1), Index(s.s2), Index(s.s3),
                    Index(t.s0), Index(t.s1), Index(t.s2), Index(t.s3));
  }

  lemma CodeIsInjective(s: State, t: State)
    requires Code(s) == Code(t)
    ensures s == t
  {
    CodeGivesIndices(s, t);
    IndexIsInjective(s.s0, t.s0);
    IndexIsInjective(s.s1, t.s1);
    IndexIsInjective(s.s2, t.s2);
    IndexIsInjective(s.s3, t.s3);
  }

  /** More values than there are holes: two of them agree. */
  lemma {:induction false} Pigeonhole(values: seq<nat>, holes: nat) returns (i: nat, j: nat)
    requires |values| > holes
    requires forall k :: 0 <= k < |values| ==> values[k] < holes
    ensures i < j < |values| && values[i] == values[j]
    decreases holes
  {
    var n := |values| - 1;
    var last := values[n];
    if k :| 0 <= k < n && values[k] == last {
      return k, n;
    }
    // Rename the topmost hole to the one `last` vacates, and drop `last`.
    var rest := seq(n, k requires 0 <= k < n => if values[k] == holes - 1 then last else values[k]);
    i, j := Pigeonhole(rest, holes - 1);
    assert values[i] == values[j];
  }

  /**
   Every generator's run returns to its first state, within 2^256 draws, and repeats from there:
   nothing is drawn that is not drawn again.
   */
  lemma RunIsPeriodic(s: State) returns (period: nat)
    ensures 0 < period <= WORDS * WORDS * WORDS * WORDS
    ensures forall n: nat :: Run(s, period + n) == Run(s, n)
  {
    var holes := WORDS * WORDS * WORDS * WORDS;
    var codes := seq(holes + 1, k requires 0 <= k => Code(Run(s, k)));
    forall k | 0 <= k < |codes|
      ensures codes[k] < holes
    {
    }
    var i, j := Pigeonhole(codes, holes);
    CodeIsInjective(Run(s, i), Run(s, j));
    RepeatMeansReturn(s, i, j);
    period := j - i;
    forall n: nat
      ensures Run(s, period + n) == Run(s, n)
    {
      RunAdds(s, period, n);
    }
  }

  // ---------------------------------------------------------------------------
  // The generator object
  // ---------------------------------------------------------------------------

  class Generator {
    var s0: Word
    var s1: Word
    var s2: Word
    var s3: Word

    ghost function Contents(): State
      reads this
    {
      State(s0, s1, s2, s3)
    }

    /** `Rng::new`. */
    constructor New(seed: Word)
      ensures Contents() == Seeded(seed)
    {
      var st, a := Splitmix(seed);
      var b, c, d;
      st, b := Splitmix(st);
      st, c := Splitmix(st);
      st, d := Splitmix(st);
      s0, s1, s2, s3 := a, b, c, d;
    }

    /** `next_u64`: the six updates of the state words, in order. */
    method NextU64() returns (result: Word)
      modifies this
      ensures Contents() == Step(old(Contents()))
      ensures result == Output(old(Contents()))
      ensures Unstep(Contents()) == old(Contents())
      ensures Contents() == ZERO <==> old(Contents()) == ZERO
    {
      UnstepStep(Contents());
      UnstepStep(ZERO);
      result := Times(RotateLeft7(Times(s1, 5)), 9);
      var t := Shift17(s1);
      s2 := Xor(s2, s0);
      s3 := Xor(s3, s1);
      s1 := Xor(s1, s2);
      s0 := Xor(s0, s3);
      s2 := Xor(s2, t);
      s3 := RotateLeft45(s3);
    }

    /** `fork`: a child seeded by the next draw. */
    method Fork() returns (child: Generator)
      modifies this
      ensures Contents() == Step(old(Contents()))
      ensures fresh(child) && child.Contents() == Seeded(Output(old(Contents())))
    {
      var seed := NextU64();
      child := new Generator.New(seed);
    }
  }
}
