/** The gain law shared by the peak limiter and the bass guard: a gain may fall at
    once but may rise by at most `slew` dB per sample. */
module SlewRelease {
  import opened Numerics

  /** The sequential recursion g[n] = min(target[n], g[n-1] + slew), started from the
      gain `held` by the previous chunk. */
  function ReleaseAt(target: seq<real>, held: real, slew: real, n: nat): real
    requires n < |target|
  {
    Min(target[n], (if n == 0 then held else ReleaseAt(target, held, slew, n - 1)) + slew)
  }

  function Release(target: seq<real>, held: real, slew: real): (g: seq<real>)
    ensures |g| == |target|
    ensures forall n :: 0 <= n < |g| ==> g[n] == ReleaseAt(target, held, slew, n)
  {
    seq(|target|, n requires 0 <= n < |target| => ReleaseAt(target, held, slew, n))
  }

  function MinUpTo(s: seq<real>, n: nat): real
    requires n < |s|
  {
    if n == 0 then s[0] else Min(MinUpTo(s, n - 1), s[n])
  }

  /** numpy's minimum.accumulate. */
  function MinAccumulate(s: seq<real>): (m: seq<real>)
    ensures |m| == |s|
  {
    seq(|s|, n requires 0 <= n < |s| => MinUpTo(s, n))
  }

  /** slew * n, as the recursion sees it: one more slew per sample. */
  function Ramp(slew: real, n: nat): real {
    if n == 0 then 0.0 else Ramp(slew, n - 1) + slew
  }

  lemma {:induction false} RampIsProduct(slew: real, n: nat)
    ensures Ramp(slew, n) == slew * (n as real)
  {
    if n > 0 {
      RampIsProduct(slew, n - 1);
      var r := (n - 1) as real;
      assert n as real == r + 1.0;
      assert slew * (r + 1.0) == slew * r + slew;
    }
  }

  /** What the vectorised code computes: shear, seed element 0, running minimum, unshear. */
  method ShearedRunningMin(target: seq<real>, held: real, slew: real) returns (g: seq<real>)
    requires |target| > 0
    ensures g == Release(target, held, slew)
  {
    var sheared := seq(|target|, n requires 0 <= n < |target| => target[n] - slew * (n as real));
    sheared := sheared[0 := Min(sheared[0], held + slew)];
    var m := MinAccumulate(sheared);
    g := seq(|m|, n requires 0 <= n < |m| => slew * (n as real) + m[n]);
    forall n | 0 <= n < |g| ensures g[n] == ReleaseAt(target, held, slew, n) {
      forall i | 0 <= i < |target| ensures slew * (i as real) == Ramp(slew, i) {
        RampIsProduct(slew, i);
      }
      ShearIsRecursion(target, sheared, held, slew, n);
    }
  }

  /** Unshearing the running minimum of the seeded, sheared targets is the recursion. */
  lemma {:induction false} ShearIsRecursion(target: seq<real>, seeded: seq<real>, held: real, slew: real, n: nat)
    requires n < |target| == |seeded|
    requires seeded[0] == Min(target[0], held + slew)
    requires forall i :: 0 < i < |target| ==> seeded[i] == target[i] - Ramp(slew, i)
    ensures Ramp(slew, n) + MinUpTo(seeded, n) == ReleaseAt(target, held, slew, n)
  {
    if n > 0 {
      ShearIsRecursion(target, seeded, held, slew, n - 1);
    }
  }

  /** A gain curve the law allows: under the target, rising at most `slew` a sample,
      the first sample counted from the held gain. */
  ghost predicate Admissible(g: seq<real>, target: seq<real>, held: real, slew: real) {
    && |g| == |target|
    && (forall n :: 0 <= n < |g| ==> g[n] <= target[n])
    && (|g| > 0 ==> g[0] <= held + slew)
    && (forall n :: 0 < n < |g| ==> g[n] <= g[n - 1] + slew)
  }

  /** The released gain is admissible, and no admissible gain exceeds it anywhere:
      nothing is attenuated more, or longer, than the law demands. */
  lemma ReleaseIsGreatest(target: seq<real>, held: real, slew: real)
    ensures Admissible(Release(target, held, slew), target, held, slew)
    ensures forall h :: Admissible(h, target, held, slew) ==>
              forall n :: 0 <= n < |h| ==> h[n] <= Release(target, held, slew)[n]
  {
    forall h | Admissible(h, target, held, slew)
      ensures forall n :: 0 <= n < |h| ==> h[n] <= Release(target, held, slew)[n]
    {
      forall n | 0 <= n < |h| ensures h[n] <= Release(target, held, slew)[n] {
        AdmissibleBelow(h, target, held, slew, n);
      }
    }
  }

  lemma {:induction false} AdmissibleBelow(h: seq<real>, target: seq<real>, held: real, slew: real, n: nat)
    requires Admissible(h, target, held, slew) && n < |h|
    ensures h[n] <= ReleaseAt(target, held, slew, n)
  {
    if n > 0 {
      AdmissibleBelow(h, target, held, slew, n - 1);
    }
  }

  /** A gain never falls below a floor that neither the targets nor the first permitted
      step are below. */
  lemma {:induction false} ReleaseFloor(target: seq<real>, held: real, slew: real, floor: real, n: nat)
    requires n < |target| && slew >= 0.0
    requires forall i :: 0 <= i < |target| ==> target[i] >= floor
    ensures ReleaseAt(target, held, slew, n) >= Min(floor, held + Ramp(slew, n + 1))
  {
    if n > 0 {
      ReleaseFloor(target, held, slew, floor, n - 1);
    }
  }

  /** The recursion looks at nothing after index n. */
  lemma {:induction false} ReleasePrefix(t1: seq<real>, t2: seq<real>, held: real, slew: real, n: nat)
    requires n < |t1| && n < |t2|
    requires forall i :: 0 <= i <= n ==> t1[i] == t2[i]
    ensures ReleaseAt(t1, held, slew, n) == ReleaseAt(t2, held, slew, n)
  {
    if n > 0 {
      ReleasePrefix(t1, t2, held, slew, n - 1);
    }
  }

  /** Splitting the targets at k and restarting from the gain reached just before k
      changes nothing: the carried gain plus one step of rise is the whole history. */
  lemma {:induction false} ReleaseSplit(target: seq<real>, held: real, slew: real, k: nat, n: nat)
    requires 0 < k && k + n < |target|
    ensures ReleaseAt(target, held, slew, k + n)
         == ReleaseAt(target[k..], ReleaseAt(target, held, slew, k - 1), slew, n)
  {
    if n > 0 {
      ReleaseSplit(target, held, slew, k, n - 1);
    }
  }

  /** Releasing a concatenation is releasing the parts, the second from the last gain of the first. */
  lemma ReleaseConcat(ta: seq<real>, tb: seq<real>, held: real, slew: real)
    requires |ta| > 0
    ensures var g1 := Release(ta, held, slew);
            Release(ta + tb, held, slew) == g1 + Release(tb, g1[|ta| - 1], slew)
  {
    var t := ta + tb;
    var g, g1 := Release(t, held, slew), Release(ta, held, slew);
    var g2 := Release(tb, g1[|ta| - 1], slew);
    forall n | 0 <= n < |ta| ensures g[n] == g1[n] {
      ReleasePrefix(t, ta, held, slew, n);
    }
    assert t[|ta|..] == tb;
    forall n | 0 <= n < |tb| ensures g[|ta|..][n] == g2[n] {
      ReleaseSplit(t, held, slew, |ta|, n);
    }
  }

  /** Where nothing asks for a cut, the gain climbs back to 0 dB by one slew a sample, and stays there. */
  lemma {:induction false} ReleaseClimbs(target: seq<real>, held: real, slew: real, n: nat)
    requires n < |target| && slew >= 0.0 && held <= 0.0
    requires forall i :: 0 <= i <= n ==> target[i] == 0.0
    ensures ReleaseAt(target, held, slew, n) == Min(0.0, held + Ramp(slew, n + 1))
  {
    if n > 0 {
      ReleaseClimbs(target, held, slew, n - 1);
    }
  }

  /** A target that stays put, at or under the carried gain, is the gain at once. */
  lemma {:induction false} ReleaseSteady(target: seq<real>, held: real, slew: real, t: real, n: nat)
    requires n < |target| && slew >= 0.0 && t <= held
    requires forall i :: 0 <= i <= n ==> target[i] == t
    ensures ReleaseAt(target, held, slew, n) == t
  {
    if n > 0 {
      ReleaseSteady(target, held, slew, t, n - 1);
    }
  }
}
