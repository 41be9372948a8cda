/** Real arithmetic shared by the audio stages, and the decibel scale they work in. */
module Numerics {

  function Min(a: real, b: real): real {
    if a <= b then a else b
  }

  function Max(a: real, b: real): real {
    if a >= b then a else b
  }

  function Abs(a: real): real {
    if a < 0.0 then -a else a
  }

  /** `Gain` stands for g => 10^(g/20), `Level` for t => 20*log10(t) and `Amplify` for a
      sample under a gain, (x, g) => x * 10^(g/20). */
  datatype Scale = Scale(Gain: real -> real, Level: real -> real, Amplify: (real, real) -> real)

  predicate Less(x: real, y: real) {
    x < y
  }

  /** The facts about 10^(x/20) that the audio stages rely on. */
  ghost predicate IsDecibel(db: Scale) {
    && db.Gain(0.0) == 1.0
    && (forall x {:trigger db.Gain(x)} :: db.Gain(x) > 0.0)
    && (forall x, y {:trigger Less(x, y)} :: Less(x, y) ==> db.Gain(x) < db.Gain(y))
    && (forall t {:trigger db.Level(t)} :: Less(0.0, t) ==> db.Gain(db.Level(t)) == t)
    && (forall x, g {:trigger Sample(x, g)} :: Sample(x, g) ==> db.Amplify(x, g) == x * db.Gain(g))
  }

  /** Marks a sample and a gain whose product is to be looked at. */
  predicate Sample(x: real, g: real) {
    true
  }

  lemma AmplifyIsProduct(db: Scale, x: real, g: real)
    requires IsDecibel(db)
    ensures db.Amplify(x, g) == x * db.Gain(g)
  {
    assert Sample(x, g);
  }

  lemma GainMonotone(db: Scale, x: real, y: real)
    requires IsDecibel(db) && x <= y
    ensures db.Gain(x) <= db.Gain(y)
  {
    assert x == y || Less(x, y);
  }

  /** Levels order the way their linear values do; a ratio up to one is at most 0 dB. */
  lemma LevelMonotone(db: Scale, s: real, t: real)
    requires IsDecibel(db) && 0.0 < s <= t
    ensures db.Level(s) <= db.Level(t)
    ensures t <= 1.0 ==> db.Level(t) <= 0.0
  {
    assert db.Gain(db.Level(s)) == s && db.Gain(db.Level(t)) == t;
    if db.Level(s) > db.Level(t) {
      GainMonotone(db, db.Level(t), db.Level(s));
    }
    if db.Level(t) > 0.0 {
      assert Less(0.0, db.Level(t));
    }
  }

  lemma MulLe(a: real, b: real, c: real)
    requires 0.0 <= a && b <= c
    ensures a * b <= a * c
  {
  }

  /** A scalar law applied to every element of a vector. */
  function MapAll(f: real -> real, x: seq<real>): (r: seq<real>)
    ensures |r| == |x|
    ensures forall i :: 0 <= i < |x| ==> r[i] == f(x[i])
  {
    seq(|x|, i requires 0 <= i < |x| => f(x[i]))
  }

  lemma MapAllSuffix(f: real -> real, x: seq<real>, k: nat)
    requires k <= |x|
    ensures MapAll(f, x)[k..] == MapAll(f, x[k..])
  {
  }

  lemma MapAllConcat(f: real -> real, a: seq<real>, b: seq<real>)
    ensures MapAll(f, a + b) == MapAll(f, a) + MapAll(f, b)
  {
  }

  /** numpy's abs over a vector. */
  function AbsAll(x: seq<real>): (r: seq<real>)
    ensures |r| == |x|
  {
    seq(|x|, i requires 0 <= i < |x| => Abs(x[i]))
  }

  /** The largest element of a non-empty vector. */
  function MaxOf(s: seq<real>): (m: real)
    requires |s| > 0
    ensures m in s
    ensures forall i :: 0 <= i < |s| ==> s[i] <= m
  {
    if |s| == 1 then s[0] else Max(MaxOf(s[..|s| - 1]), s[|s| - 1])
  }

  /** The largest element of two vectors with the same members is the same. */
  lemma MaxOfUnique(s: seq<real>, m: real)
    requires |s| > 0
    requires m in s
    requires forall i :: 0 <= i < |s| ==> s[i] <= m
    ensures MaxOf(s) == m
  {
  }

  /** `now` is the deepest of the cut recorded `before` and the cuts of these gains. */
  ghost predicate DeepestCut(now: real, before: real, gains: seq<real>) {
    && now >= before && (forall i :: 0 <= i < |gains| ==> now >= -gains[i])
    && (now == before || exists i :: 0 <= i < |gains| && now == -gains[i])
  }
}
