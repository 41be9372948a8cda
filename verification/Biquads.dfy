/** Second-order filter sections run sample by sample, as scipy's sosfilt does. */
module Biquads {
  /** One normalised section (a0 = 1). */
  datatype Biquad = Biquad(b0: real, b1: real, b2: real, a1: real, a2: real)

  datatype Delay = Delay(z1: real, z2: real)

  /** One section, transposed direct form II. */
  function Section(q: Biquad, d: Delay, x: real): (real, Delay) {
    var y := q.b0 * x + d.z1;
    (y, Delay(q.b1 * x - q.a1 * y + d.z2, q.b2 * x - q.a2 * y))
  }

  /** One sample through every section in turn. */
  function Cascade(sos: seq<Biquad>, zi: seq<Delay>, x: real): (r: (real, seq<Delay>))
    requires |zi| == |sos|
    ensures |r.1| == |sos|
    decreases |sos|
  {
    if |sos| == 0 then (x, [])
    else
      var (y, d) := Section(sos[0], zi[0], x);
      var (out, rest) := Cascade(sos[1..], zi[1..], y);
      (out, [d] + rest)
  }

  function SosFilt(sos: seq<Biquad>, zi: seq<Delay>, x: seq<real>): (r: (seq<real>, seq<Delay>))
    requires |zi| == |sos|
    ensures |r.0| == |x| && |r.1| == |sos|
    decreases |x|
  {
    if |x| == 0 then ([], zi)
    else
      var (y, z) := Cascade(sos, zi, x[0]);
      var (rest, zf) := SosFilt(sos, z, x[1..]);
      ([y] + rest, zf)
  }

  function Silent(n: nat): (zi: seq<Delay>)
    ensures |zi| == n
  {
    seq(n, i => Delay(0.0, 0.0))
  }

  /** Filtering a then b from the state a left is filtering a + b. */
  lemma {:induction false} SosFiltSplit(sos: seq<Biquad>, zi: seq<Delay>, a: seq<real>, b: seq<real>)
    requires |zi| == |sos|
    ensures var (out1, z1) := SosFilt(sos, zi, a);
            var (out2, z2) := SosFilt(sos, z1, b);
            SosFilt(sos, zi, a + b) == (out1 + out2, z2)
    decreases |a|
  {
    if |a| == 0 {
      assert a + b == b;
      assert [] + SosFilt(sos, zi, b).0 == SosFilt(sos, zi, b).0;
    } else {
      var (y, z) := Cascade(sos, zi, a[0]);
      SosFiltSplit(sos, z, a[1..], b);
      var (rest1, z1) := SosFilt(sos, z, a[1..]);
      var rest2 := SosFilt(sos, z1, b).0;
      assert [y] + (rest1 + rest2) == ([y] + rest1) + rest2;
      assert (a + b)[0] == a[0] && (a + b)[1..] == a[1..] + b;
    }
  }

  /** A section whose numerator is its denominator. */
  predicate IsUnity(q: Biquad) {
    q.b0 == 1.0 && q.b1 == q.a1 && q.b2 == q.a2
  }

  lemma SameProduct(a: real, b: real, x: real, y: real)
    requires a == b && x == y
    ensures a * x == b * y
  {
  }

  lemma UnitySection(q: Biquad, x: real)
    requires IsUnity(q)
    ensures Section(q, Delay(0.0, 0.0), x) == (x, Delay(0.0, 0.0))
  {
    var (y, d) := Section(q, Delay(0.0, 0.0), x);
    assert y == q.b0 * x + 0.0;
    SameProduct(q.b0, 1.0, x, x);
    assert y == x;
    SameProduct(q.b1, q.a1, x, y);
    SameProduct(q.b2, q.a2, x, y);
    assert d.z1 == q.b1 * x - q.a1 * y + 0.0;
    assert d.z2 == q.b2 * x - q.a2 * y;
    assert d.z1 == 0.0 && d.z2 == 0.0;
    assert d == Delay(0.0, 0.0);
  }

  lemma {:induction false} UnityCascade(sos: seq<Biquad>, x: real)
    requires forall i :: 0 <= i < |sos| ==> IsUnity(sos[i])
    ensures Cascade(sos, Silent(|sos|), x) == (x, Silent(|sos|))
    decreases |sos|
  {
    if |sos| > 0 {
      assert Silent(|sos|)[1..] == Silent(|sos| - 1);
      UnitySection(sos[0], x);
      UnityCascade(sos[1..], x);
      assert [Delay(0.0, 0.0)] + Silent(|sos| - 1) == Silent(|sos|);
    }
  }

  /** Unity sections at rest pass the signal through and stay at rest. */
  lemma {:induction false} UnityPasses(sos: seq<Biquad>, x: seq<real>)
    requires forall i :: 0 <= i < |sos| ==> IsUnity(sos[i])
    ensures SosFilt(sos, Silent(|sos|), x) == (x, Silent(|sos|))
    decreases |x|
  {
    if |x| > 0 {
      UnityCascade(sos, x[0]);
      UnityPasses(sos, x[1..]);
      assert [x[0]] + x[1..] == x;
    }
  }

  // ---- What a cascade computes

  /** The element k places before index n of a signal that was silent before it began. */
  function Back(x: seq<real>, n: nat, k: nat): real
    requires n < |x|
  {
    if k <= n then x[n - k] else 0.0
  }

  /** The signal one section makes of x, from a state of its own. */
  function One(q: Biquad, d: Delay, x: seq<real>): (y: seq<real>)
    ensures |y| == |x|
  {
    SosFilt([q], [d], x).0
  }

  lemma OneStep(q: Biquad, d: Delay, x: seq<real>)
    requires |x| > 0
    ensures One(q, d, x) == [Section(q, d, x[0]).0] + One(q, Section(q, d, x[0]).1, x[1..])
  {
    var (y, next) := Section(q, d, x[0]);
    assert [q][1..] == [] && [d][1..] == [];
    assert Cascade([q], [d], x[0]) == (y, [next] + []);
    assert [next] + [] == [next];
  }

  /** From any state: the first two outputs see what was held, and from the third on each output is the section's
      difference equation over the last two inputs and outputs. */
  lemma {:induction false} SectionFrom(q: Biquad, d: Delay, x: seq<real>, n: nat)
    requires n < |x|
    ensures var y := One(q, d, x);
            && (n == 0 ==> y[0] == q.b0 * x[0] + d.z1)
            && (n == 1 ==> y[1] == q.b0 * x[1] + (q.b1 * x[0] - q.a1 * y[0] + d.z2))
            && (n >= 2 ==> y[n] == q.b0 * x[n] + (q.b1 * x[n - 1] - q.a1 * y[n - 1]
                                                  + (q.b2 * x[n - 2] - q.a2 * y[n - 2])))
    decreases |x|
  {
    OneStep(q, d, x);
    if n > 0 {
      SectionFrom(q, Section(q, d, x[0]).1, x[1..], n - 1);
      if n == 1 {
        OneStep(q, Section(q, d, x[0]).1, x[1..]);
      }
    }
  }

  lemma NoProduct(a: real, b: real)
    requires b == 0.0
    ensures a * b == 0.0
  {
  }

  /** A section at rest computes y[n] = b0 x[n] + b1 x[n-1] + b2 x[n-2] - a1 y[n-1] - a2 y[n-2]. */
  lemma DifferenceEquation(q: Biquad, x: seq<real>, n: nat)
    requires n < |x|
    ensures var y := One(q, Delay(0.0, 0.0), x);
            y[n] == q.b0 * x[n] + q.b1 * Back(x, n, 1) + q.b2 * Back(x, n, 2)
                    - q.a1 * Back(y, n, 1) - q.a2 * Back(y, n, 2)
  {
    var y := One(q, Delay(0.0, 0.0), x);
    SectionFrom(q, Delay(0.0, 0.0), x, n);
    if n < 2 {
      NoProduct(q.b2, Back(x, n, 2));
      NoProduct(q.a2, Back(y, n, 2));
    }
    if n < 1 {
      NoProduct(q.b1, Back(x, n, 1));
      NoProduct(q.a1, Back(y, n, 1));
    }
  }

  lemma CascadeStep(sos: seq<Biquad>, zi: seq<Delay>, x: seq<real>)
    requires |zi| == |sos| > 0 && |x| > 0
    ensures var (y, d) := Section(sos[0], zi[0], x[0]);
            var (out, rest) := Cascade(sos[1..], zi[1..], y);
            SosFilt(sos, zi, x).0 == [out] + SosFilt(sos, [d] + rest, x[1..]).0
  {
  }

  /** Sections act in series: the whole signal through the first, what comes out through the rest. */
  lemma {:induction false} SectionsInSeries(sos: seq<Biquad>, zi: seq<Delay>, x: seq<real>)
    requires |zi| == |sos| > 0
    ensures SosFilt(sos, zi, x).0 == SosFilt(sos[1..], zi[1..], One(sos[0], zi[0], x)).0
    decreases |x|
  {
    if |x| > 0 {
      var (y, d) := Section(sos[0], zi[0], x[0]);
      var (out, rest) := Cascade(sos[1..], zi[1..], y);
      CascadeStep(sos, zi, x);
      OneStep(sos[0], zi[0], x);
      SectionsInSeries(sos, [d] + rest, x[1..]);
      assert ([d] + rest)[1..] == rest;
      var z := One(sos[0], zi[0], x);
      assert z[0] == y && z[1..] == One(sos[0], d, x[1..]);
    }
  }
}
