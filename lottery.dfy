/** The deterministic number generator of the widget: the UTF-16 code units of
    the name and the birthday are summed into a seed, and a linear congruential
    step is then run six times, each step emitting one ball in [1,49]. */
module Lottery {

  /** One UTF-16 code unit, as `charCodeAt` returns it (surrogate halves are
      separate units). */
  type CodeUnit = c: int | 0 <= c < 0x1_0000

  const Multiplier: nat := 9301
  const Increment: nat := 49297
  const Modulus: nat := 233280
  /** Number of balls in a draw. */
  const BallCount: nat := 6
  /** Highest ball value; balls are 1..MaxBall. */
  const MaxBall: nat := 49

  /** A draw: exactly six balls, each in [1,49]; duplicates are allowed. */
  predicate IsDraw(s: seq<int>) {
    |s| == BallCount && forall k :: 0 <= k < |s| ==> 1 <= s[k] <= MaxBall
  }

  /** Sum of the code units of `s`, accumulated left to right. */
  function Sum(s: seq<CodeUnit>): nat {
    if s == [] then 0 else Sum(s[..|s| - 1]) + s[|s| - 1]
  }

  /** One step of the generator. The seed is never negative, so the
      truncating `%` of the source and Dafny's Euclidean `%` agree. */
  function Step(seed: nat): (next: nat)
    ensures next < Modulus
  {
    (seed * Multiplier + Increment) % Modulus
  }

  /** The seed after `k` steps from `seed0`. */
  function SeedAfter(seed0: nat, k: nat): nat {
    if k == 0 then seed0 else Step(SeedAfter(seed0, k - 1))
  }

  /** The ball a freshly stepped seed emits. */
  function Ball(seed: nat): int {
    seed % MaxBall + 1
  }

  /** The draw determined by an initial seed: ball k is emitted by seed k+1. */
  function Draw(seed0: nat): seq<int> {
    seq(BallCount, k requires 0 <= k < BallCount => Ball(SeedAfter(seed0, k + 1)))
  }

  /** The generator on its inputs: the draw of the code-unit total. */
  function Generate(name: seq<CodeUnit>, birthday: seq<CodeUnit>): seq<int> {
    Draw(Sum(name) + Sum(birthday))
  }

  /** Sums the code units of `name`, then of `birthday`, into a seed and runs
      the linear congruential step six times, pushing one ball per step. */
  method GenerateLotteryNumbers(name: seq<CodeUnit>, birthday: seq<CodeUnit>) returns (numbers: seq<int>)
    ensures numbers == Generate(name, birthday)
    ensures IsDraw(numbers)
  {
    var seed: nat := 0;
    for i := 0 to |name|
      invariant seed == Sum(name[..i])
    {
      assert name[..i + 1][..i] == name[..i];
      seed := seed + name[i];
    }
    assert name[..|name|] == name;
    for i := 0 to |birthday|
      invariant seed == Sum(name) + Sum(birthday[..i])
    {
      assert birthday[..i + 1][..i] == birthday[..i];
      seed := seed + birthday[i];
    }
    assert birthday[..|birthday|] == birthday;
    ghost var seed0 := seed;
    numbers := [];
    for i := 0 to BallCount
      invariant seed == SeedAfter(seed0, i)
      invariant |numbers| == i
      invariant forall k :: 0 <= k < i ==> numbers[k] == Ball(SeedAfter(seed0, k + 1))
    {
      seed := Step(seed);
      numbers := numbers + [Ball(seed)];
    }
    DrawIsDraw(seed0);
  }

  /** Every seed after the first step lies in [0, Modulus). */
  lemma {:induction false} SeedBound(seed0: nat, k: nat)
    requires k >= 1
    ensures SeedAfter(seed0, k) < Modulus
  {
  }

  /** The recurrence on the inputs: seed 0 is the code-unit total of name and
      birthday, seed k+1 is one step from seed k, and ball k comes from seed
      k+1. */
  lemma DrawRecurrence(name: seq<CodeUnit>, birthday: seq<CodeUnit>, k: nat)
    requires k < BallCount
    ensures SeedAfter(Sum(name + birthday), 0) == Sum(name + birthday)
    ensures SeedAfter(Sum(name + birthday), k + 1) == (SeedAfter(Sum(name + birthday), k) * 9301 + 49297) % 233280
    ensures |Generate(name, birthday)| == BallCount
    ensures Generate(name, birthday)[k] == SeedAfter(Sum(name + birthday), k + 1) % 49 + 1
  {
    SumConcat(name, birthday);
  }

  /** Whatever the seed, the result is six balls in [1,49]. */
  lemma DrawIsDraw(seed0: nat)
    ensures IsDraw(Draw(seed0))
  {
  }

  /** The code-unit sum of a concatenation is the sum of the sums. */
  lemma {:induction false} SumConcat(a: seq<CodeUnit>, b: seq<CodeUnit>)
    ensures Sum(a + b) == Sum(a) + Sum(b)
  {
    if b == [] {
      assert a + b == a;
    } else {
      calc {
        Sum(a + b);
        { assert (a + b)[..|a + b| - 1] == a + b[..|b| - 1]; }
        Sum(a + b[..|b| - 1]) + b[|b| - 1];
        { SumConcat(a, b[..|b| - 1]); }
        Sum(a) + Sum(b[..|b| - 1]) + b[|b| - 1];
      }
    }
  }

  /** Reordering code units does not change their sum. */
  lemma {:induction false} SumPermutation(a: seq<CodeUnit>, b: seq<CodeUnit>)
    requires multiset(a) == multiset(b)
    ensures Sum(a) == Sum(b)
  {
    if a == [] {
      assert |b| == |multiset(b)| == 0;
    } else {
      var x := a[|a| - 1];
      var a' := a[..|a| - 1];
      assert a == a' + [x];
      assert x in multiset(b);
      var j :| 0 <= j < |b| && b[j] == x;
      var b' := b[..j] + b[j + 1..];
      assert b == b[..j] + [x] + b[j + 1..];
      calc {
        multiset(a');
        multiset(a) - multiset{x};
        multiset(b) - multiset{x};
        multiset(b[..j]) + multiset(b[j + 1..]);
        multiset(b');
      }
      SumPermutation(a', b');
      SumConcat(b[..j], [x]);
      SumConcat(b[..j] + [x], b[j + 1..]);
      SumConcat(b[..j], b[j + 1..]);
      assert Sum([x]) == x by { assert [x][..0] == []; }
    }
  }

  /** The draw depends only on the multiset of code units in name and
      birthday together: swapping the two arguments, moving characters between
      them or reordering them yields the same draw. */
  lemma {:induction false} GenerateDependsOnlyOnCodeUnits(name: seq<CodeUnit>, birthday: seq<CodeUnit>,
                                                          name': seq<CodeUnit>, birthday': seq<CodeUnit>)
    requires multiset(name + birthday) == multiset(name' + birthday')
    ensures Generate(name, birthday) == Generate(name', birthday')
  {
    SumConcat(name, birthday);
    SumConcat(name', birthday');
    SumPermutation(name + birthday, name' + birthday');
  }

  /** Swapping the two inputs yields the same draw. */
  lemma GenerateSymmetric(name: seq<CodeUnit>, birthday: seq<CodeUnit>)
    ensures Generate(name, birthday) == Generate(birthday, name)
  {
  }

  /** A fixed vector pinning the exact algorithm: name "A" (65) and birthday
      "1" (49) give seed 114. */
  lemma RegressionVector()
    ensures Generate([65], [49]) == [43, 43, 34, 1, 43, 15]
  {
    assert [65][..0] == [] && [49][..0] == [];
    assert Sum([65]) + Sum([49]) == 114;
    assert SeedAfter(114, 1) == 176491;
    assert SeedAfter(114, 2) == 728;
    assert SeedAfter(114, 3) == 55305;
    assert SeedAfter(114, 4) == 58702;
    assert SeedAfter(114, 5) == 161399;
    assert SeedAfter(114, 6) == 64596;
  }
}
