/**
 * The bilinear s-to-z transform of an analog transfer function.
 *
 * Analog coefficients come in ascending powers of s (index 0 is the constant
 * term); the substitution s = 2*fs*(z-1)/(z+1), multiplied through by
 * (z+1)^order, gives digital coefficients in descending powers of z.
 * Polynomials in z are coefficient sequences, highest power first.
 */
module Bilinear {
  import opened Series

  /** `x` raised to a natural power (the source's `powf(float, int)`). */
  function Power(x: real, n: nat): real
  {
    if n == 0 then 1.0 else x * Power(x, n - 1)
  }

  // ---------------------------------------------------------------------
  // Convolution and polynomial powers
  // ---------------------------------------------------------------------

  /** The j-th product contributing to entry i of the convolution, 0 when out of range. */
  function ConvTerm(h: seq<real>, g: seq<real>, i: nat, j: nat): real
  {
    if j < |h| && j <= i && i - j < |g| then h[j] * g[i - j] else 0.0
  }

  /** Sum of the first n products contributing to entry i. */
  function ConvSum(h: seq<real>, g: seq<real>, i: nat, n: nat): real
  {
    if n == 0 then 0.0 else ConvSum(h, g, i, n - 1) + ConvTerm(h, g, i, n - 1)
  }

  /**
   * Discrete convolution: entry i is the sum of h[j]*g[i-j] over every valid
   * j. The product has degree deg h + deg g and leading coefficient h[0]*g[0].
   */
  function Conv(h: seq<real>, g: seq<real>): (r: seq<real>)
    requires |h| >= 1 && |g| >= 1
    ensures |r| == |h| + |g| - 1
    ensures r[0] == h[0] * g[0]
  {
    assert ConvSum(h, g, 0, 1) == ConvTerm(h, g, 0, 0);
    seq(|h| + |g| - 1, i requires 0 <= i < |h| + |g| - 1 => ConvSum(h, g, i, i + 1))
  }

  /** The source's double loop for `Conv`, accumulating each entry from zero. */
  method ConvLoop(h: seq<real>, g: seq<real>) returns (output: seq<real>)
    requires |h| >= 1 && |g| >= 1
    ensures output == Conv(h, g)
  {
    output := seq(|h| + |g| - 1, _ => 0.0);
    var i := 0;
    while i < |output|
      invariant 0 <= i <= |output| == |h| + |g| - 1
      invariant forall k :: 0 <= k < i ==> output[k] == ConvSum(h, g, k, k + 1)
      invariant forall k :: i <= k < |output| ==> output[k] == 0.0
    {
      var j := 0;
      while j <= i
        invariant 0 <= j <= i + 1
        invariant |output| == |h| + |g| - 1
        invariant output[i] == ConvSum(h, g, i, j)
        invariant forall k :: 0 <= k < i ==> output[k] == ConvSum(h, g, k, k + 1)
        invariant forall k :: i < k < |output| ==> output[k] == 0.0
      {
        assert ConvSum(h, g, i, j + 1) == ConvSum(h, g, i, j) + ConvTerm(h, g, i, j);
        if j < |h| && i - j < |g| {
          output := output[i := output[i] + h[j] * g[i - j]];
        }
        j := j + 1;
      }
      i := i + 1;
    }
  }

  /** a convolved with itself n times, starting from the polynomial 1: degree n deg a, leading coefficient a[0]^n. */
  function ArrayPower(a: seq<real>, n: nat): (r: seq<real>)
    requires |a| >= 1
    ensures |r| == n * (|a| - 1) + 1
    ensures r[0] == Power(a[0], n)
  {
    if n == 0 then [1.0] else Conv(ArrayPower(a, n - 1), a)
  }

  /** The source's loop for `ArrayPower`: n convolutions starting from [1]. */
  method ArrayPowerLoop(a: seq<real>, n: nat) returns (output: seq<real>)
    requires |a| >= 1
    ensures output == ArrayPower(a, n)
  {
    output := [1.0];
    var i := 0;
    while i < n
      invariant 0 <= i <= n
      invariant output == ArrayPower(a, i)
    {
      output := ConvLoop(output, a);
      i := i + 1;
    }
  }

  /** Products past the diagonal are all zero. */
  lemma {:induction false} ConvSumPastDiagonal(h: seq<real>, g: seq<real>, i: nat, n: nat)
    requires n >= i + 1
    ensures ConvSum(h, g, i, n) == ConvSum(h, g, i, i + 1)
    decreases n
  {
    if n > i + 1 {
      ConvSumPastDiagonal(h, g, i, n - 1);
    }
  }

  /** Entry i of a convolution of at most five coefficients, written out. */
  function SmallConvEntry(h: seq<real>, g: seq<real>, i: nat): real
  {
    ConvTerm(h, g, i, 0) + ConvTerm(h, g, i, 1) + ConvTerm(h, g, i, 2) + ConvTerm(h, g, i, 3) + ConvTerm(h, g, i, 4)
  }

  lemma SmallConv(h: seq<real>, g: seq<real>)
    requires |h| >= 1 && |g| >= 1 && |h| + |g| <= 6
    ensures forall i :: 0 <= i < |h| + |g| - 1 ==> Conv(h, g)[i] == SmallConvEntry(h, g, i)
  {
    forall i | 0 <= i < |h| + |g| - 1
      ensures Conv(h, g)[i] == SmallConvEntry(h, g, i)
    {
      ConvSumPastDiagonal(h, g, i, 5);
      assert ConvSum(h, g, i, 1) == ConvTerm(h, g, i, 0);
      assert ConvSum(h, g, i, 2) == ConvSum(h, g, i, 1) + ConvTerm(h, g, i, 1);
      assert ConvSum(h, g, i, 3) == ConvSum(h, g, i, 2) + ConvTerm(h, g, i, 2);
      assert ConvSum(h, g, i, 4) == ConvSum(h, g, i, 3) + ConvTerm(h, g, i, 3);
    }
  }

  /** A power of a monic polynomial is monic. */
  lemma {:induction false} ArrayPowerMonic(a: seq<real>, n: nat)
    requires |a| >= 1 && a[0] == 1.0
    ensures ArrayPower(a, n)[0] == 1.0
    decreases n
  {
    if n > 0 {
      ArrayPowerMonic(a, n - 1);
    }
  }

  // ---------------------------------------------------------------------
  // The general transform
  // ---------------------------------------------------------------------

  const ZPlus1: seq<real> := [1.0, 1.0]
  const ZMinus1: seq<real> := [1.0, -1.0]

  /** (z+1)^(order-j) * (z-1)^j, the polynomial that multiplies the s^j coefficient. */
  function Poly(order: nat, j: nat): (r: seq<real>)
    requires j <= order
    ensures |r| == order + 1
  {
    Conv(ArrayPower(ZPlus1, order - j), ArrayPower(ZMinus1, j))
  }

  /** The table of every Poly(order, j), as the source's `polys` vector. */
  function Polys(order: nat): (r: seq<seq<real>>)
    ensures Square(r, order + 1)
    ensures forall j :: 0 <= j <= order ==> r[j] == Poly(order, j)
  {
    seq(order + 1, j requires 0 <= j <= order => Poly(order, j))
  }

  /** An n-by-n table. */
  ghost predicate Square(polys: seq<seq<real>>, n: nat)
  {
    |polys| == n && forall j :: 0 <= j < n ==> |polys[j]| == n
  }

  /** Sum over the first n analog coefficients of their contribution to digital entry i. */
  function Contribution(polys: seq<seq<real>>, c: seq<real>, fs: real, i: nat, n: nat): real
    requires Square(polys, |c|) && n <= |c| && i < |c|
  {
    if n == 0 then 0.0
    else Contribution(polys, c, fs, i, n - 1) + polys[n - 1][i] * c[n - 1] * Power(2.0 * fs, n - 1)
  }

  /** The substitution through a given table of polynomials. */
  function SubstituteWith(polys: seq<seq<real>>, c: seq<real>, fs: real): (r: seq<real>)
    requires Square(polys, |c|)
    ensures |r| == |c|
  {
    seq(|c|, i requires 0 <= i < |c| => Contribution(polys, c, fs, i, |c|))
  }

  /** The general substitution applied to one coefficient array. */
  function Substitute(c: seq<real>, fs: real): (r: seq<real>)
    requires |c| >= 1
    ensures |r| == |c|
  {
    SubstituteWith(Polys(|c| - 1), c, fs)
  }

  /** The generic template's `Supertransform`: numerator and denominator through the same map. */
  function Supertransform(b: seq<real>, a: seq<real>, fs: real): (r: (seq<real>, seq<real>))
    requires |b| == |a| >= 1
    ensures |r.0| == |r.1| == |b|
  {
    (Substitute(b, fs), Substitute(a, fs))
  }

  /** The first n analog terms evaluated at s = 2*fs. */
  function LeadingN(c: seq<real>, fs: real, n: nat): real
    requires n <= |c|
  {
    if n == 0 then 0.0 else LeadingN(c, fs, n - 1) + c[n - 1] * Power(2.0 * fs, n - 1)
  }

  /** The value of the analog polynomial at s = 2*fs: the z^order coefficient of every transform. */
  function Leading(c: seq<real>, fs: real): real
  {
    LeadingN(c, fs, |c|)
  }

  /** Every (z+1)^(order-j) * (z-1)^j is monic. */
  lemma PolyMonic(order: nat, j: nat)
    requires j <= order
    ensures Poly(order, j)[0] == 1.0
  {
    ArrayPowerMonic(ZPlus1, order - j);
    ArrayPowerMonic(ZMinus1, j);
  }

  lemma {:induction false} ContributionLeading(polys: seq<seq<real>>, c: seq<real>, fs: real, n: nat)
    requires 1 <= |c| && Square(polys, |c|) && n <= |c|
    requires forall j :: 0 <= j < |c| ==> polys[j][0] == 1.0
    ensures Contribution(polys, c, fs, 0, n) == LeadingN(c, fs, n)
    decreases n
  {
    if n > 0 {
      ContributionLeading(polys, c, fs, n - 1);
    }
  }

  /** The general transform's highest-order coefficient is the analog polynomial at s = 2*fs. */
  lemma SubstituteLeading(c: seq<real>, fs: real)
    requires |c| >= 1
    ensures Substitute(c, fs)[0] == Leading(c, fs)
  {
    var polys := Polys(|c| - 1);
    forall j | 0 <= j < |c|
      ensures polys[j][0] == 1.0
    {
      PolyMonic(|c| - 1, j);
    }
    ContributionLeading(polys, c, fs, |c|);
  }

  // ---------------------------------------------------------------------
  // Normalisation
  // ---------------------------------------------------------------------

  /** Divides every coefficient by the original za[0], so the denominator becomes monic. */
  function Invert(zb: seq<real>, za: seq<real>): (r: (seq<real>, seq<real>))
    requires |zb| == |za| >= 1 && za[0] != 0.0
    ensures |r.0| == |r.1| == |zb|
    ensures r.1[0] == 1.0
    ensures forall i :: 0 <= i < |zb| ==> r.0[i] * za[0] == zb[i] && r.1[i] * za[0] == za[i]
  {
    var gInv := 1.0 / za[0];
    (seq(|zb|, i requires 0 <= i < |zb| => zb[i] * gInv), seq(|za|, i requires 0 <= i < |za| => za[i] * gInv))
  }

  /** Normalising leaves every numerator/denominator coefficient ratio unchanged. */
  lemma InvertKeepsRatios(zb: seq<real>, za: seq<real>, i: nat, j: nat)
    requires |zb| == |za| >= 1 && za[0] != 0.0
    requires i < |zb| && j < |za|
    ensures Invert(zb, za).0[i] * za[j] == zb[i] * Invert(zb, za).1[j]
  {
    var r := Invert(zb, za);
    assert r.0[i] == zb[i] / za[0];
    assert r.1[j] == za[j] / za[0];
  }

  lemma InvertScales(zb: seq<real>, za: seq<real>, g: real)
    requires |zb| == |za| >= 1 && za[0] == g && g != 0.0
    ensures Scaled(Invert(zb, za).0, zb, g) && Scaled(Invert(zb, za).1, za, g)
  {
  }

  lemma PowerSmall(x: real)
    ensures Power(2.0 * x, 0) == 1.0
    ensures Power(2.0 * x, 1) == 2.0 * x
    ensures Power(2.0 * x, 2) == 4.0 * (x * x)
    ensures Power(2.0 * x, 3) == 8.0 * (x * x * x)
    ensures Power(2.0 * x, 4) == 16.0 * (x * x * x * x)
  {
    var y := 2.0 * x;
    assert Power(y, 1) == y * Power(y, 0);
    assert Power(y, 2) == y * Power(y, 1) == y * y;
    assert Power(y, 3) == y * Power(y, 2) == y * (y * y);
    assert Power(y, 4) == y * Power(y, 3) == y * (y * (y * y));
  }

  /** The analog polynomial at s = 2*fs, written out for up to five coefficients. */
  lemma LeadingSmall(c: seq<real>, fs: real)
    requires 2 <= |c| <= 5
    ensures |c| == 2 ==> Leading(c, fs) == c[0] + 2.0 * c[1] * fs
    ensures |c| == 3 ==> Leading(c, fs) == c[0] + 2.0 * c[1] * fs + 4.0 * c[2] * (fs * fs)
    ensures |c| == 4 ==> Leading(c, fs) == c[0] + 2.0 * c[1] * fs + 4.0 * c[2] * (fs * fs) + 8.0 * c[3] * (fs * fs * fs)
    ensures |c| == 5 ==> Leading(c, fs) == c[0] + 2.0 * c[1] * fs + 4.0 * c[2] * (fs * fs) + 8.0 * c[3] * (fs * fs * fs) + 16.0 * c[4] * (fs * fs * fs * fs)
  {
    PowerSmall(fs);
    assert LeadingN(c, fs, 1) == c[0];
    assert LeadingN(c, fs, 2) == c[0] + c[1] * (2.0 * fs);
    if |c| >= 3 {
      assert LeadingN(c, fs, 3) == LeadingN(c, fs, 2) + c[2] * (4.0 * (fs * fs));
    }
    if |c| >= 4 {
      assert LeadingN(c, fs, 4) == LeadingN(c, fs, 3) + c[3] * (8.0 * (fs * fs * fs));
    }
    if |c| >= 5 {
      assert LeadingN(c, fs, 5) == LeadingN(c, fs, 4) + c[4] * (16.0 * (fs * fs * fs * fs));
    }
  }

  /** Sum of the coefficients of a short polynomial: its value at z = 1. */
  lemma SumSmall(s: seq<real>)
    requires 2 <= |s| <= 5
    ensures |s| == 2 ==> Sum(s) == s[0] + s[1]
    ensures |s| == 3 ==> Sum(s) == s[0] + s[1] + s[2]
    ensures |s| == 4 ==> Sum(s) == s[0] + s[1] + s[2] + s[3]
    ensures |s| == 5 ==> Sum(s) == s[0] + s[1] + s[2] + s[3] + s[4]
  {
    assert Sum(s) == s[0] + Sum(s[1..]);
    assert Sum(s[1..]) == s[1] + Sum(s[2..]);
    if |s| >= 3 {
      assert Sum(s[2..]) == s[2] + Sum(s[3..]);
    }
    if |s| >= 4 {
      assert Sum(s[3..]) == s[3] + Sum(s[4..]);
    }
    if |s| >= 5 {
      assert Sum(s[4..]) == s[4] + Sum(s[5..]);
    }
  }

  /** r is z divided through by g. */
  ghost predicate Scaled(r: seq<real>, z: seq<real>, g: real)
  {
    |r| == |z| && forall i :: 0 <= i < |r| ==> r[i] * g == z[i]
  }

  /** Scaling every entry scales the sum. */
  lemma {:induction false} SumScale(r: seq<real>, z: seq<real>, g: real)
    requires Scaled(r, z, g)
    ensures Sum(r) * g == Sum(z)
    decreases |r|
  {
    if |r| > 0 {
      SumScale(r[1..], z[1..], g);
    }
  }

  /**
   * If both halves of a normalised pair are their unnormalised sums divided by g,
   * and those sums are p*b0 and p*a0, the ratio of the normalised sums is b0/a0.
   */
  lemma NormalisedDcGain(r: (seq<real>, seq<real>), z: (seq<real>, seq<real>), g: real, p: real, b0: real, a0: real)
    requires g != 0.0 && p > 0.0 && a0 != 0.0
    requires Scaled(r.0, z.0, g) && Scaled(r.1, z.1, g)
    requires Sum(z.0) == p * b0 && Sum(z.1) == p * a0
    ensures Sum(r.1) != 0.0
    ensures Sum(r.0) / Sum(r.1) == b0 / a0
  {
    var sb, sa := Sum(r.0), Sum(r.1);
    SumScale(r.0, z.0, g);
    assert sb * g == p * b0;
    SumScale(r.1, z.1, g);
    assert sa * g == p * a0;
    ScaledRatio(sb, sa, g, p, b0, a0);
  }

  /** sb and sa are p*b0 and p*a0 divided by the same g, so their ratio is b0/a0. */
  lemma ScaledRatio(sb: real, sa: real, g: real, p: real, b0: real, a0: real)
    requires g != 0.0 && p > 0.0 && a0 != 0.0
    requires sb * g == p * b0 && sa * g == p * a0
    ensures sa != 0.0 && sb / sa == b0 / a0
  {
    var pa := p * a0;
    assert pa != 0.0;
    assert sa != 0.0;
    assert (sb * a0) * (p * g) == (sa * b0) * (p * g) by {
      assert (sb * a0) * (p * g) == (sb * g) * pa;
      assert (sa * b0) * (p * g) == (sa * g) * (p * b0);
    }
    Cancel(sb * a0, sa * b0, p * g);
    CrossRatio(sb, sa, b0, a0);
  }

  lemma Cancel(x: real, y: real, k: real)
    requires k != 0.0 && x * k == y * k
    ensures x == y
  {
  }

  lemma CrossRatio(x: real, y: real, u: real, v: real)
    requires y != 0.0 && v != 0.0 && x * v == y * u
    ensures x / y == u / v
  {
  }

  /** The generic template's `Transform`: fresh arrays, `Supertransform`, then normalisation. */
  function TransformGeneral(b: seq<real>, a: seq<real>, fs: real): (r: (seq<real>, seq<real>))
    requires |b| == |a| >= 1
    requires Leading(a, fs) != 0.0
    ensures |r.0| == |r.1| == |b|
    ensures r.1[0] == 1.0
    ensures Scaled(r.0, Supertransform(b, a, fs).0, Leading(a, fs))
    ensures Scaled(r.1, Supertransform(b, a, fs).1, Leading(a, fs))
  {
    var z := Supertransform(b, a, fs);
    SubstituteLeading(a, fs);
    InvertScales(z.0, z.1, Leading(a, fs));
    Invert(z.0, z.1)
  }

  // ---------------------------------------------------------------------
  // Closed forms (the Bilinear<2..5> specialisations)
  // ---------------------------------------------------------------------

  // Each closed form has order + 1 coefficients, the first of them the
  // analog polynomial at s = 2 * fs, as for the general transform.

  function ClosedForm1(c: seq<real>, fs: real): (r: seq<real>)
    requires |c| == 2
    ensures |r| == 2 && r[0] == Leading(c, fs)
  {
    LeadingSmall(c, fs);
    [c[0] + 2.0 * c[1] * fs,
     c[0] - 2.0 * c[1] * fs]
  }

  function ClosedForm2(c: seq<real>, fs: real): (r: seq<real>)
    requires |c| == 3
    ensures |r| == 3 && r[0] == Leading(c, fs)
  {
    LeadingSmall(c, fs);
    var fs2 := fs * fs;
    [c[0] + 2.0 * c[1] * fs + 4.0 * c[2] * fs2,
     2.0 * c[0] - 8.0 * c[2] * fs2,
     c[0] - 2.0 * c[1] * fs + 4.0 * c[2] * fs2]
  }

  function ClosedForm3(c: seq<real>, fs: real): (r: seq<real>)
    requires |c| == 4
    ensures |r| == 4 && r[0] == Leading(c, fs)
  {
    LeadingSmall(c, fs);
    var fs2 := fs * fs;
    var fs3 := fs * fs * fs;
    [c[0] + 2.0 * c[1] * fs + 4.0 * c[2] * fs2 + 8.0 * c[3] * fs3,
     3.0 * c[0] + 2.0 * c[1] * fs - 4.0 * c[2] * fs2 - 24.0 * c[3] * fs3,
     3.0 * c[0] - 2.0 * c[1] * fs - 4.0 * c[2] * fs2 + 24.0 * c[3] * fs3,
     c[0] - 2.0 * c[1] * fs + 4.0 * c[2] * fs2 - 8.0 * c[3] * fs3]
  }

  function ClosedForm4(c: seq<real>, fs: real): (r: seq<real>)
    requires |c| == 5
    ensures |r| == 5 && r[0] == Leading(c, fs)
  {
    LeadingSmall(c, fs);
    var fs2 := fs * fs;
    var fs3 := fs * fs * fs;
    var fs4 := fs * fs * fs * fs;
    [c[0] + 2.0 * c[1] * fs + 4.0 * c[2] * fs2 + 8.0 * c[3] * fs3 + 16.0 * c[4] * fs4,
     4.0 * c[0] + 4.0 * c[1] * fs - 16.0 * c[3] * fs3 - 64.0 * c[4] * fs4,
     6.0 * c[0] - 8.0 * c[2] * fs2 + 96.0 * c[4] * fs4,
     4.0 * c[0] - 4.0 * c[1] * fs + 16.0 * c[3] * fs3 - 64.0 * c[4] * fs4,
     c[0] - 2.0 * c[1] * fs + 4.0 * c[2] * fs2 - 8.0 * c[3] * fs3 + 16.0 * c[4] * fs4]
  }

  lemma ClosedForm1Dc(c: seq<real>, fs: real)
    requires |c| == 2
    ensures Sum(ClosedForm1(c, fs)) == 2.0 * c[0]
  {
    var r := ClosedForm1(c, fs);
    SumSmall(r);
  }

  lemma ClosedForm2Dc(c: seq<real>, fs: real)
    requires |c| == 3
    ensures Sum(ClosedForm2(c, fs)) == 4.0 * c[0]
  {
    var r := ClosedForm2(c, fs);
    SumSmall(r);
    var t1, t2 := c[1] * fs, c[2] * (fs * fs);
    assert r[0] == c[0] + 2.0 * t1 + 4.0 * t2;
    assert r[1] == 2.0 * c[0] - 8.0 * t2;
    assert r[2] == c[0] - 2.0 * t1 + 4.0 * t2;
  }

  lemma ClosedForm3Dc(c: seq<real>, fs: real)
    requires |c| == 4
    ensures Sum(ClosedForm3(c, fs)) == 8.0 * c[0]
  {
    var r := ClosedForm3(c, fs);
    SumSmall(r);
    var t1, t2, t3 := c[1] * fs, c[2] * (fs * fs), c[3] * (fs * fs * fs);
    assert r[0] == c[0] + 2.0 * t1 + 4.0 * t2 + 8.0 * t3;
    assert r[1] == 3.0 * c[0] + 2.0 * t1 - 4.0 * t2 - 24.0 * t3;
    assert r[2] == 3.0 * c[0] - 2.0 * t1 - 4.0 * t2 + 24.0 * t3;
    assert r[3] == c[0] - 2.0 * t1 + 4.0 * t2 - 8.0 * t3;
  }

  lemma ClosedForm4Dc(c: seq<real>, fs: real)
    requires |c| == 5
    ensures Sum(ClosedForm4(c, fs)) == 16.0 * c[0]
  {
    var r := ClosedForm4(c, fs);
    SumSmall(r);
    var t1, t2, t3, t4 := c[1] * fs, c[2] * (fs * fs), c[3] * (fs * fs * fs), c[4] * (fs * fs * fs * fs);
    assert r[0] == c[0] + 2.0 * t1 + 4.0 * t2 + 8.0 * t3 + 16.0 * t4;
    assert r[1] == 4.0 * c[0] + 4.0 * t1 - 16.0 * t3 - 64.0 * t4;
    assert r[2] == 6.0 * c[0] - 8.0 * t2 + 96.0 * t4;
    assert r[3] == 4.0 * c[0] - 4.0 * t1 + 16.0 * t3 - 64.0 * t4;
    assert r[4] == c[0] - 2.0 * t1 + 4.0 * t2 - 8.0 * t3 + 16.0 * t4;
  }

  /** `StoZ1`: the order-1 closed form applied to numerator and denominator. */
  function StoZ1(b: seq<real>, a: seq<real>, fs: real): (r: (seq<real>, seq<real>))
    requires |b| == |a| == 2
    ensures |r.0| == |r.1| == 2
    ensures r.0[0] == Leading(b, fs) && r.1[0] == Leading(a, fs)
    ensures Sum(r.0) == 2.0 * b[0] && Sum(r.1) == 2.0 * a[0]
  {
    LeadingSmall(b, fs);
    LeadingSmall(a, fs);
    ClosedForm1Dc(b, fs);
    ClosedForm1Dc(a, fs);
    (ClosedForm1(b, fs), ClosedForm1(a, fs))
  }

  /** `Bilinear<2>::Transform`: fresh arrays, the order-1 closed form, then normalisation. */
  function Transform1(b: seq<real>, a: seq<real>, fs: real): (r: (seq<real>, seq<real>))
    requires |b| == |a| == 2
    requires Leading(a, fs) != 0.0
    ensures |r.0| == |r.1| == 2
    ensures r.1[0] == 1.0
    ensures Scaled(r.0, StoZ1(b, a, fs).0, Leading(a, fs))
    ensures Scaled(r.1, StoZ1(b, a, fs).1, Leading(a, fs))
  {
    var z := StoZ1(b, a, fs);
    InvertScales(z.0, z.1, Leading(a, fs));
    Invert(z.0, z.1)
  }

  /** The order-1 closed form is the general convolution path of the same order. */
  lemma StoZ1IsSupertransform(b: seq<real>, a: seq<real>, fs: real)
    requires |b| == |a| == 2
    ensures StoZ1(b, a, fs) == Supertransform(b, a, fs)
  {
    ClosedForm1IsSubstitute(b, fs);
    ClosedForm1IsSubstitute(a, fs);
  }

  /** The order-1 specialisation computes exactly what the generic template computes. */
  lemma Transform1IsGeneral(b: seq<real>, a: seq<real>, fs: real)
    requires |b| == |a| == 2
    requires Leading(a, fs) != 0.0
    ensures Transform1(b, a, fs) == TransformGeneral(b, a, fs)
  {
    StoZ1IsSupertransform(b, a, fs);
  }

  /** The digital gain at z = 1 equals the analog gain at s = 0. */
  lemma Transform1DcGain(b: seq<real>, a: seq<real>, fs: real)
    requires |b| == |a| == 2
    requires Leading(a, fs) != 0.0 && a[0] != 0.0
    ensures Sum(Transform1(b, a, fs).1) != 0.0
    ensures Sum(Transform1(b, a, fs).0) / Sum(Transform1(b, a, fs).1) == b[0] / a[0]
  {
    var r, z := Transform1(b, a, fs), StoZ1(b, a, fs);
    NormalisedDcGain(r, z, Leading(a, fs), 2.0, b[0], a[0]);
  }

  /** `StoZ2`: the order-2 closed form applied to numerator and denominator. */
  function StoZ2(b: seq<real>, a: seq<real>, fs: real): (r: (seq<real>, seq<real>))
    requires |b| == |a| == 3
    ensures |r.0| == |r.1| == 3
    ensures r.0[0] == Leading(b, fs) && r.1[0] == Leading(a, fs)
    ensures Sum(r.0) == 4.0 * b[0] && Sum(r.1) == 4.0 * a[0]
  {
    LeadingSmall(b, fs);
    LeadingSmall(a, fs);
    ClosedForm2Dc(b, fs);
    ClosedForm2Dc(a, fs);
    (ClosedForm2(b, fs), ClosedForm2(a, fs))
  }

  /** `Bilinear<3>::Transform`: fresh arrays, the order-2 closed form, then normalisation. */
  function Transform2(b: seq<real>, a: seq<real>, fs: real): (r: (seq<real>, seq<real>))
    requires |b| == |a| == 3
    requires Leading(a, fs) != 0.0
    ensures |r.0| == |r.1| == 3
    ensures r.1[0] == 1.0
    ensures Scaled(r.0, StoZ2(b, a, fs).0, Leading(a, fs))
    ensures Scaled(r.1, StoZ2(b, a, fs).1, Leading(a, fs))
  {
    var z := StoZ2(b, a, fs);
    InvertScales(z.0, z.1, Leading(a, fs));
    Invert(z.0, z.1)
  }

  /** The order-2 closed form is the general convolution path of the same order. */
  lemma StoZ2IsSupertransform(b: seq<real>, a: seq<real>, fs: real)
    requires |b| == |a| == 3
    ensures StoZ2(b, a, fs) == Supertransform(b, a, fs)
  {
    ClosedForm2IsSubstitute(b, fs);
    ClosedForm2IsSubstitute(a, fs);
  }

  /** The order-2 specialisation computes exactly what the generic template computes. */
  lemma Transform2IsGeneral(b: seq<real>, a: seq<real>, fs: real)
    requires |b| == |a| == 3
    requires Leading(a, fs) != 0.0
    ensures Transform2(b, a, fs) == TransformGeneral(b, a, fs)
  {
    StoZ2IsSupertransform(b, a, fs);
  }

  /** The digital gain at z = 1 equals the analog gain at s = 0. */
  lemma Transform2DcGain(b: seq<real>, a: seq<real>, fs: real)
    requires |b| == |a| == 3
    requires Leading(a, fs) != 0.0 && a[0] != 0.0
    ensures Sum(Transform2(b, a, fs).1) != 0.0
    ensures Sum(Transform2(b, a, fs).0) / Sum(Transform2(b, a, fs).1) == b[0] / a[0]
  {
    var r, z := Transform2(b, a, fs), StoZ2(b, a, fs);
    NormalisedDcGain(r, z, Leading(a, fs), 4.0, b[0], a[0]);
  }

  /** `StoZ3`: the order-3 closed form applied to numerator and denominator. */
  function StoZ3(b: seq<real>, a: seq<real>, fs: real): (r: (seq<real>, seq<real>))
    requires |b| == |a| == 4
    ensures |r.0| == |r.1| == 4
    ensures r.0[0] == Leading(b, fs) && r.1[0] == Leading(a, fs)
    ensures Sum(r.0) == 8.0 * b[0] && Sum(r.1) == 8.0 * a[0]
  {
    LeadingSmall(b, fs);
    LeadingSmall(a, fs);
    ClosedForm3Dc(b, fs);
    ClosedForm3Dc(a, fs);
    (ClosedForm3(b, fs), ClosedForm3(a, fs))
  }

  /** `Bilinear<4>::Transform`: fresh arrays, the order-3 closed form, then normalisation. */
  function Transform3(b: seq<real>, a: seq<real>, fs: real): (r: (seq<real>, seq<real>))
    requires |b| == |a| == 4
    requires Leading(a, fs) != 0.0
    ensures |r.0| == |r.1| == 4
    ensures r.1[0] == 1.0
    ensures Scaled(r.0, StoZ3(b, a, fs).0, Leading(a, fs))
    ensures Scaled(r.1, StoZ3(b, a, fs).1, Leading(a, fs))
  {
    var z := StoZ3(b, a, fs);
    InvertScales(z.0, z.1, Leading(a, fs));
    Invert(z.0, z.1)
  }

  /** The order-3 closed form is the general convolution path of the same order. */
  lemma StoZ3IsSupertransform(b: seq<real>, a: seq<real>, fs: real)
    requires |b| == |a| == 4
    ensures StoZ3(b, a, fs) == Supertransform(b, a, fs)
  {
    ClosedForm3IsSubstitute(b, fs);
    ClosedForm3IsSubstitute(a, fs);
  }

  /** The order-3 specialisation computes exactly what the generic template computes. */
  lemma Transform3IsGeneral(b: seq<real>, a: seq<real>, fs: real)
    requires |b| == |a| == 4
    requires Leading(a, fs) != 0.0
    ensures Transform3(b, a, fs) == TransformGeneral(b, a, fs)
  {
    StoZ3IsSupertransform(b, a, fs);
  }

  /** The digital gain at z = 1 equals the analog gain at s = 0. */
  lemma Transform3DcGain(b: seq<real>, a: seq<real>, fs: real)
    requires |b| == |a| == 4
    requires Leading(a, fs) != 0.0 && a[0] != 0.0
    ensures Sum(Transform3(b, a, fs).1) != 0.0
    ensures Sum(Transform3(b, a, fs).0) / Sum(Transform3(b, a, fs).1) == b[0] / a[0]
  {
    var r, z := Transform3(b, a, fs), StoZ3(b, a, fs);
    NormalisedDcGain(r, z, Leading(a, fs), 8.0, b[0], a[0]);
  }

  /** `StoZ4`: the order-4 closed form applied to numerator and denominator. */
  function StoZ4(b: seq<real>, a: seq<real>, fs: real): (r: (seq<real>, seq<real>))
    requires |b| == |a| == 5
    ensures |r.0| == |r.1| == 5
    ensures r.0[0] == Leading(b, fs) && r.1[0] == Leading(a, fs)
    ensures Sum(r.0) == 16.0 * b[0] && Sum(r.1) == 16.0 * a[0]
  {
    LeadingSmall(b, fs);
    LeadingSmall(a, fs);
    ClosedForm4Dc(b, fs);
    ClosedForm4Dc(a, fs);
    (ClosedForm4(b, fs), ClosedForm4(a, fs))
  }

  /** `Bilinear<5>::Transform`: fresh arrays, the order-4 closed form, then normalisation. */
  function Transform4(b: seq<real>, a: seq<real>, fs: real): (r: (seq<real>, seq<real>))
    requires |b| == |a| == 5
    requires Leading(a, fs) != 0.0
    ensures |r.0| == |r.1| == 5
    ensures r.1[0] == 1.0
    ensures Scaled(r.0, StoZ4(b, a, fs).0, Leading(a, fs))
    ensures Scaled(r.1, StoZ4(b, a, fs).1, Leading(a, fs))
  {
    var z := StoZ4(b, a, fs);
    InvertScales(z.0, z.1, Leading(a, fs));
    Invert(z.0, z.1)
  }

  /** The order-4 closed form is the general convolution path of the same order. */
  lemma StoZ4IsSupertransform(b: seq<real>, a: seq<real>, fs: real)
    requires |b| == |a| == 5
    ensures StoZ4(b, a, fs) == Supertransform(b, a, fs)
  {
    ClosedForm4IsSubstitute(b, fs);
    ClosedForm4IsSubstitute(a, fs);
  }

  /** The order-4 specialisation computes exactly what the generic template computes. */
  lemma Transform4IsGeneral(b: seq<real>, a: seq<real>, fs: real)
    requires |b| == |a| == 5
    requires Leading(a, fs) != 0.0
    ensures Transform4(b, a, fs) == TransformGeneral(b, a, fs)
  {
    StoZ4IsSupertransform(b, a, fs);
  }

  /** The digital gain at z = 1 equals the analog gain at s = 0. */
  lemma Transform4DcGain(b: seq<real>, a: seq<real>, fs: real)
    requires |b| == |a| == 5
    requires Leading(a, fs) != 0.0 && a[0] != 0.0
    ensures Sum(Transform4(b, a, fs).1) != 0.0
    ensures Sum(Transform4(b, a, fs).0) / Sum(Transform4(b, a, fs).1) == b[0] / a[0]
  {
    var r, z := Transform4(b, a, fs), StoZ4(b, a, fs);
    NormalisedDcGain(r, z, Leading(a, fs), 16.0, b[0], a[0]);
  }

  // ---------------------------------------------------------------------
  // The closed forms agree with the general convolution path
  // ---------------------------------------------------------------------

  /** The source's `polys` for orders 1 to 4: row j holds (z+1)^(order-j) * (z-1)^j. */
  const Table1: seq<seq<real>> := [[1.0, 1.0], [1.0, -1.0]]
  const Table2: seq<seq<real>> := [[1.0, 2.0, 1.0], [1.0, 0.0, -1.0], [1.0, -2.0, 1.0]]
  const Table3: seq<seq<real>> := [[1.0, 3.0, 3.0, 1.0], [1.0, 1.0, -1.0, -1.0], [1.0, -1.0, -1.0, 1.0], [1.0, -3.0, 3.0, -1.0]]
  const Table4: seq<seq<real>> := [[1.0, 4.0, 6.0, 4.0, 1.0], [1.0, 2.0, 0.0, -2.0, -1.0], [1.0, 0.0, -2.0, 0.0, 1.0], [1.0, -2.0, 0.0, 2.0, -1.0], [1.0, -4.0, 6.0, -4.0, 1.0]]

  /** One more factor: the next power is the written-out convolution of the previous one with the factor. */
  lemma PowerStep(a: seq<real>, n: nat, p: seq<real>, q: seq<real>)
    requires |a| >= 1 && |p| >= 1 && |p| + |a| <= 6 && ArrayPower(a, n) == p
    requires |q| == |p| + |a| - 1
    requires forall i :: 0 <= i < |q| ==> q[i] == SmallConvEntry(p, a, i)
    ensures ArrayPower(a, n + 1) == q
  {
    SmallConv(p, a);
  }

  /** The powers of z + 1 up to the fourth: the rows of Pascal's triangle. */
  lemma PlusPowers()
    ensures ArrayPower(ZPlus1, 0) == [1.0]
    ensures ArrayPower(ZPlus1, 1) == [1.0, 1.0]
    ensures ArrayPower(ZPlus1, 2) == [1.0, 2.0, 1.0]
    ensures ArrayPower(ZPlus1, 3) == [1.0, 3.0, 3.0, 1.0]
    ensures ArrayPower(ZPlus1, 4) == [1.0, 4.0, 6.0, 4.0, 1.0]
  {
    PowerStep(ZPlus1, 0, [1.0], [1.0, 1.0]);
    PowerStep(ZPlus1, 1, [1.0, 1.0], [1.0, 2.0, 1.0]);
    PowerStep(ZPlus1, 2, [1.0, 2.0, 1.0], [1.0, 3.0, 3.0, 1.0]);
    PowerStep(ZPlus1, 3, [1.0, 3.0, 3.0, 1.0], [1.0, 4.0, 6.0, 4.0, 1.0]);
  }

  /** The powers of z - 1 up to the fourth: Pascal's triangle with alternating signs. */
  lemma MinusPowers()
    ensures ArrayPower(ZMinus1, 0) == [1.0]
    ensures ArrayPower(ZMinus1, 1) == [1.0, -1.0]
    ensures ArrayPower(ZMinus1, 2) == [1.0, -2.0, 1.0]
    ensures ArrayPower(ZMinus1, 3) == [1.0, -3.0, 3.0, -1.0]
    ensures ArrayPower(ZMinus1, 4) == [1.0, -4.0, 6.0, -4.0, 1.0]
  {
    PowerStep(ZMinus1, 0, [1.0], [1.0, -1.0]);
    PowerStep(ZMinus1, 1, [1.0, -1.0], [1.0, -2.0, 1.0]);
    PowerStep(ZMinus1, 2, [1.0, -2.0, 1.0], [1.0, -3.0, 3.0, -1.0]);
    PowerStep(ZMinus1, 3, [1.0, -3.0, 3.0, -1.0], [1.0, -4.0, 6.0, -4.0, 1.0]);
  }

  lemma PolyTable1()
    ensures Poly(1, 0) == [1.0, 1.0] && Poly(1, 1) == [1.0, -1.0]
    ensures Polys(1) == Table1
  {
    PlusPowers();
    MinusPowers();
    SmallConv([1.0, 1.0], [1.0]);
    SmallConv([1.0], [1.0, -1.0]);
  }

  lemma PolyTable2()
    ensures Poly(2, 0) == [1.0, 2.0, 1.0]
    ensures Poly(2, 1) == [1.0, 0.0, -1.0]
    ensures Poly(2, 2) == [1.0, -2.0, 1.0]
    ensures Polys(2) == Table2
  {
    PlusPowers();
    MinusPowers();
    SmallConv([1.0, 2.0, 1.0], [1.0]);
    SmallConv([1.0, 1.0], [1.0, -1.0]);
    SmallConv([1.0], [1.0, -2.0, 1.0]);
  }

  lemma PolyTable3()
    ensures Poly(3, 0) == [1.0, 3.0, 3.0, 1.0]
    ensures Poly(3, 1) == [1.0, 1.0, -1.0, -1.0]
    ensures Poly(3, 2) == [1.0, -1.0, -1.0, 1.0]
    ensures Poly(3, 3) == [1.0, -3.0, 3.0, -1.0]
    ensures Polys(3) == Table3
  {
    PlusPowers();
    MinusPowers();
    SmallConv([1.0, 3.0, 3.0, 1.0], [1.0]);
    SmallConv([1.0, 2.0, 1.0], [1.0, -1.0]);
    SmallConv([1.0, 1.0], [1.0, -2.0, 1.0]);
    SmallConv([1.0], [1.0, -3.0, 3.0, -1.0]);
  }

  lemma PolyTable4()
    ensures Poly(4, 0) == [1.0, 4.0, 6.0, 4.0, 1.0]
    ensures Poly(4, 1) == [1.0, 2.0, 0.0, -2.0, -1.0]
    ensures Poly(4, 2) == [1.0, 0.0, -2.0, 0.0, 1.0]
    ensures Poly(4, 3) == [1.0, -2.0, 0.0, 2.0, -1.0]
    ensures Poly(4, 4) == [1.0, -4.0, 6.0, -4.0, 1.0]
    ensures Polys(4) == Table4
  {
    PlusPowers();
    MinusPowers();
    SmallConv([1.0, 4.0, 6.0, 4.0, 1.0], [1.0]);
    SmallConv([1.0, 3.0, 3.0, 1.0], [1.0, -1.0]);
    SmallConv([1.0, 2.0, 1.0], [1.0, -2.0, 1.0]);
    SmallConv([1.0, 1.0], [1.0, -3.0, 3.0, -1.0]);
    SmallConv([1.0], [1.0, -4.0, 6.0, -4.0, 1.0]);
  }

  /** The order-1 closed form as a combination of the weighted coefficients c[j]*(2fs)^j. */
  lemma ClosedForm1Weighted(c: seq<real>, fs: real, w0: real, w1: real)
    requires |c| == 2
    requires w0 == c[0] * Power(2.0 * fs, 0)
    requires w1 == c[1] * Power(2.0 * fs, 1)
    ensures ClosedForm1(c, fs) ==
      [1.0 * w0 + 1.0 * w1,
       1.0 * w0 + -1.0 * w1]
  {
    PowerSmall(fs);
    assert w1 == 2.0 * (c[1] * fs);
  }

  lemma ClosedForm1Rows(c: seq<real>, fs: real, w0: real, w1: real, i: nat)
    requires |c| == 2 && i < 2
    requires w0 == c[0] * Power(2.0 * fs, 0)
    requires w1 == c[1] * Power(2.0 * fs, 1)
    ensures ClosedForm1(c, fs)[i] == Table1[0][i] * w0 + Table1[1][i] * w1
  {
    ClosedForm1Weighted(c, fs, w0, w1);
  }


  lemma Table1Entry(c: seq<real>, fs: real, i: nat)
    requires |c| == 2 && i < 2
    ensures SubstituteWith(Table1, c, fs)[i] == Table1[0][i] * (c[0] * Power(2.0 * fs, 0)) + Table1[1][i] * (c[1] * Power(2.0 * fs, 1))
  {
    ContributionStep(Table1, c, fs, i, 1);
    ContributionStep(Table1, c, fs, i, 2);
  }

  lemma ClosedForm1IsTable(c: seq<real>, fs: real)
    requires |c| == 2
    ensures ClosedForm1(c, fs) == SubstituteWith(Table1, c, fs)
  {
    var w0, w1 := c[0] * Power(2.0 * fs, 0), c[1] * Power(2.0 * fs, 1);
    forall i | 0 <= i < 2
      ensures ClosedForm1(c, fs)[i] == SubstituteWith(Table1, c, fs)[i]
    {
      Table1Entry(c, fs, i);
      ClosedForm1Rows(c, fs, w0, w1, i);
    }
  }


  lemma ClosedForm1IsSubstitute(c: seq<real>, fs: real)
    requires |c| == 2
    ensures ClosedForm1(c, fs) == Substitute(c, fs)
  {
    PolyTable1();
    ClosedForm1IsTable(c, fs);
  }



  /** The order-2 closed form as a combination of the weighted coefficients c[j]*(2fs)^j. */
  lemma ClosedForm2Weighted(c: seq<real>, fs: real, w0: real, w1: real, w2: real)
    requires |c| == 3
    requires w0 == c[0] * Power(2.0 * fs, 0)
    requires w1 == c[1] * Power(2.0 * fs, 1)
    requires w2 == c[2] * Power(2.0 * fs, 2)
    ensures ClosedForm2(c, fs) ==
      [1.0 * w0 + 1.0 * w1 + 1.0 * w2,
       2.0 * w0 + 0.0 * w1 + -2.0 * w2,
       1.0 * w0 + -1.0 * w1 + 1.0 * w2]
  {
    PowerSmall(fs);
    assert w1 == 2.0 * (c[1] * fs);
    assert w2 == 4.0 * (c[2] * (fs * fs));
  }

  lemma ClosedForm2Rows(c: seq<real>, fs: real, w0: real, w1: real, w2: real, i: nat)
    requires |c| == 3 && i < 3
    requires w0 == c[0] * Power(2.0 * fs, 0)
    requires w1 == c[1] * Power(2.0 * fs, 1)
    requires w2 == c[2] * Power(2.0 * fs, 2)
    ensures ClosedForm2(c, fs)[i] == Table2[0][i] * w0 + Table2[1][i] * w1 + Table2[2][i] * w2
  {
    ClosedForm2Weighted(c, fs, w0, w1, w2);
  }


  lemma Table2Entry(c: seq<real>, fs: real, i: nat)
    requires |c| == 3 && i < 3
    ensures SubstituteWith(Table2, c, fs)[i] == Table2[0][i] * (c[0] * Power(2.0 * fs, 0)) + Table2[1][i] * (c[1] * Power(2.0 * fs, 1)) + Table2[2][i] * (c[2] * Power(2.0 * fs, 2))
  {
    ContributionStep(Table2, c, fs, i, 1);
    ContributionStep(Table2, c, fs, i, 2);
    ContributionStep(Table2, c, fs, i, 3);
  }

  lemma ClosedForm2IsTable(c: seq<real>, fs: real)
    requires |c| == 3
    ensures ClosedForm2(c, fs) == SubstituteWith(Table2, c, fs)
  {
    var w0, w1, w2 := c[0] * Power(2.0 * fs, 0), c[1] * Power(2.0 * fs, 1), c[2] * Power(2.0 * fs, 2);
    forall i | 0 <= i < 3
      ensures ClosedForm2(c, fs)[i] == SubstituteWith(Table2, c, fs)[i]
    {
      Table2Entry(c, fs, i);
      ClosedForm2Rows(c, fs, w0, w1, w2, i);
    }
  }


  lemma ClosedForm2IsSubstitute(c: seq<real>, fs: real)
    requires |c| == 3
    ensures ClosedForm2(c, fs) == Substitute(c, fs)
  {
    PolyTable2();
    ClosedForm2IsTable(c, fs);
  }



  /** The order-3 closed form as a combination of the weighted coefficients c[j]*(2fs)^j. */
  lemma ClosedForm3Weighted(c: seq<real>, fs: real, w0: real, w1: real, w2: real, w3: real)
    requires |c| == 4
    requires w0 == c[0] * Power(2.0 * fs, 0)
    requires w1 == c[1] * Power(2.0 * fs, 1)
    requires w2 == c[2] * Power(2.0 * fs, 2)
    requires w3 == c[3] * Power(2.0 * fs, 3)
    ensures ClosedForm3(c, fs) ==
      [1.0 * w0 + 1.0 * w1 + 1.0 * w2 + 1.0 * w3,
       3.0 * w0 + 1.0 * w1 + -1.0 * w2 + -3.0 * w3,
       3.0 * w0 + -1.0 * w1 + -1.0 * w2 + 3.0 * w3,
       1.0 * w0 + -1.0 * w1 + 1.0 * w2 + -1.0 * w3]
  {
    PowerSmall(fs);
    assert w1 == 2.0 * (c[1] * fs);
    assert w2 == 4.0 * (c[2] * (fs * fs));
    assert w3 == 8.0 * (c[3] * (fs * fs * fs));
  }

  lemma ClosedForm3Rows(c: seq<real>, fs: real, w0: real, w1: real, w2: real, w3: real, i: nat)
    requires |c| == 4 && i < 4
    requires w0 == c[0] * Power(2.0 * fs, 0)
    requires w1 == c[1] * Power(2.0 * fs, 1)
    requires w2 == c[2] * Power(2.0 * fs, 2)
    requires w3 == c[3] * Power(2.0 * fs, 3)
    ensures ClosedForm3(c, fs)[i] == Table3[0][i] * w0 + Table3[1][i] * w1 + Table3[2][i] * w2 + Table3[3][i] * w3
  {
    ClosedForm3Weighted(c, fs, w0, w1, w2, w3);
  }


  lemma Table3Entry(c: seq<real>, fs: real, i: nat, w0: real, w1: real, w2: real, w3: real)
    requires |c| == 4 && i < 4
    requires w0 == c[0] * Power(2.0 * fs, 0)
    requires w1 == c[1] * Power(2.0 * fs, 1)
    requires w2 == c[2] * Power(2.0 * fs, 2)
    requires w3 == c[3] * Power(2.0 * fs, 3)
    ensures SubstituteWith(Table3, c, fs)[i] == Table3[0][i] * w0 + Table3[1][i] * w1 + Table3[2][i] * w2 + Table3[3][i] * w3
  {
    Contribution4(Table3, c, fs, i, w0, w1, w2, w3);
  }

  /** Four contributions written out. */
  lemma Contribution4(polys: seq<seq<real>>, c: seq<real>, fs: real, i: nat, w0: real, w1: real, w2: real, w3: real)
    requires Square(polys, 4) && |c| == 4 && i < 4
    requires w0 == c[0] * Power(2.0 * fs, 0)
    requires w1 == c[1] * Power(2.0 * fs, 1)
    requires w2 == c[2] * Power(2.0 * fs, 2)
    requires w3 == c[3] * Power(2.0 * fs, 3)
    ensures Contribution(polys, c, fs, i, 4) == polys[0][i] * w0 + polys[1][i] * w1 + polys[2][i] * w2 + polys[3][i] * w3
  {
    ContributionStep(polys, c, fs, i, 1);
    ContributionStep(polys, c, fs, i, 2);
    ContributionStep(polys, c, fs, i, 3);
    ContributionStep(polys, c, fs, i, 4);
  }

  lemma ClosedForm3IsTable(c: seq<real>, fs: real)
    requires |c| == 4
    ensures ClosedForm3(c, fs) == SubstituteWith(Table3, c, fs)
  {
    var w0, w1, w2, w3 := c[0] * Power(2.0 * fs, 0), c[1] * Power(2.0 * fs, 1), c[2] * Power(2.0 * fs, 2), c[3] * Power(2.0 * fs, 3);
    forall i | 0 <= i < 4
      ensures ClosedForm3(c, fs)[i] == SubstituteWith(Table3, c, fs)[i]
    {
      Table3Entry(c, fs, i, w0, w1, w2, w3);
      ClosedForm3Rows(c, fs, w0, w1, w2, w3, i);
    }
  }


  lemma ClosedForm3IsSubstitute(c: seq<real>, fs: real)
    requires |c| == 4
    ensures ClosedForm3(c, fs) == Substitute(c, fs)
  {
    PolyTable3();
    ClosedForm3IsTable(c, fs);
  }



  /** The order-4 closed form as a combination of the weighted coefficients c[j]*(2fs)^j. */
  lemma ClosedForm4Weighted(c: seq<real>, fs: real, w0: real, w1: real, w2: real, w3: real, w4: real)
    requires |c| == 5
    requires w0 == c[0] * Power(2.0 * fs, 0)
    requires w1 == c[1] * Power(2.0 * fs, 1)
    requires w2 == c[2] * Power(2.0 * fs, 2)
    requires w3 == c[3] * Power(2.0 * fs, 3)
    requires w4 == c[4] * Power(2.0 * fs, 4)
    ensures ClosedForm4(c, fs) ==
      [1.0 * w0 + 1.0 * w1 + 1.0 * w2 + 1.0 * w3 + 1.0 * w4,
       4.0 * w0 + 2.0 * w1 + 0.0 * w2 + -2.0 * w3 + -4.0 * w4,
       6.0 * w0 + 0.0 * w1 + -2.0 * w2 + 0.0 * w3 + 6.0 * w4,
       4.0 * w0 + -2.0 * w1 + 0.0 * w2 + 2.0 * w3 + -4.0 * w4,
       1.0 * w0 + -1.0 * w1 + 1.0 * w2 + -1.0 * w3 + 1.0 * w4]
  {
    PowerSmall(fs);
    assert w1 == 2.0 * (c[1] * fs);
    assert w2 == 4.0 * (c[2] * (fs * fs));
    assert w3 == 8.0 * (c[3] * (fs * fs * fs));
    assert w4 == 16.0 * (c[4] * (fs * fs * fs * fs));
  }

  lemma ClosedForm4Rows(c: seq<real>, fs: real, w0: real, w1: real, w2: real, w3: real, w4: real, i: nat)
    requires |c| == 5 && i < 5
    requires w0 == c[0] * Power(2.0 * fs, 0)
    requires w1 == c[1] * Power(2.0 * fs, 1)
    requires w2 == c[2] * Power(2.0 * fs, 2)
    requires w3 == c[3] * Power(2.0 * fs, 3)
    requires w4 == c[4] * Power(2.0 * fs, 4)
    ensures ClosedForm4(c, fs)[i] == Table4[0][i] * w0 + Table4[1][i] * w1 + Table4[2][i] * w2 + Table4[3][i] * w3 + Table4[4][i] * w4
  {
    ClosedForm4Weighted(c, fs, w0, w1, w2, w3, w4);
  }


  lemma Table4Entry(c: seq<real>, fs: real, i: nat, w0: real, w1: real, w2: real, w3: real, w4: real)
    requires |c| == 5 && i < 5
    requires w0 == c[0] * Power(2.0 * fs, 0)
    requires w1 == c[1] * Power(2.0 * fs, 1)
    requires w2 == c[2] * Power(2.0 * fs, 2)
    requires w3 == c[3] * Power(2.0 * fs, 3)
    requires w4 == c[4] * Power(2.0 * fs, 4)
    ensures SubstituteWith(Table4, c, fs)[i] == Table4[0][i] * w0 + Table4[1][i] * w1 + Table4[2][i] * w2 + Table4[3][i] * w3 + Table4[4][i] * w4
  {
    Contribution5(Table4, c, fs, i, w0, w1, w2, w3, w4);
  }

  /** Five contributions written out. */
  lemma Contribution5(polys: seq<seq<real>>, c: seq<real>, fs: real, i: nat, w0: real, w1: real, w2: real, w3: real, w4: real)
    requires Square(polys, 5) && |c| == 5 && i < 5
    requires w0 == c[0] * Power(2.0 * fs, 0)
    requires w1 == c[1] * Power(2.0 * fs, 1)
    requires w2 == c[2] * Power(2.0 * fs, 2)
    requires w3 == c[3] * Power(2.0 * fs, 3)
    requires w4 == c[4] * Power(2.0 * fs, 4)
    ensures Contribution(polys, c, fs, i, 5) == polys[0][i] * w0 + polys[1][i] * w1 + polys[2][i] * w2 + polys[3][i] * w3 + polys[4][i] * w4
  {
    ContributionStep(polys, c, fs, i, 1);
    ContributionStep(polys, c, fs, i, 2);
    ContributionStep(polys, c, fs, i, 3);
    ContributionStep(polys, c, fs, i, 4);
    ContributionStep(polys, c, fs, i, 5);
  }

  lemma ClosedForm4Matches0(c: seq<real>, fs: real)
    requires |c| == 5
    ensures ClosedForm4(c, fs)[0] == SubstituteWith(Table4, c, fs)[0]
  {
    var w0, w1, w2, w3, w4 := c[0] * Power(2.0 * fs, 0), c[1] * Power(2.0 * fs, 1), c[2] * Power(2.0 * fs, 2), c[3] * Power(2.0 * fs, 3), c[4] * Power(2.0 * fs, 4);
    Table4Entry(c, fs, 0, w0, w1, w2, w3, w4);
    ClosedForm4Rows(c, fs, w0, w1, w2, w3, w4, 0);
  }

  lemma ClosedForm4Matches1(c: seq<real>, fs: real)
    requires |c| == 5
    ensures ClosedForm4(c, fs)[1] == SubstituteWith(Table4, c, fs)[1]
  {
    var w0, w1, w2, w3, w4 := c[0] * Power(2.0 * fs, 0), c[1] * Power(2.0 * fs, 1), c[2] * Power(2.0 * fs, 2), c[3] * Power(2.0 * fs, 3), c[4] * Power(2.0 * fs, 4);
    Table4Entry(c, fs, 1, w0, w1, w2, w3, w4);
    ClosedForm4Rows(c, fs, w0, w1, w2, w3, w4, 1);
  }

  lemma ClosedForm4Matches2(c: seq<real>, fs: real)
    requires |c| == 5
    ensures ClosedForm4(c, fs)[2] == SubstituteWith(Table4, c, fs)[2]
  {
    var w0, w1, w2, w3, w4 := c[0] * Power(2.0 * fs, 0), c[1] * Power(2.0 * fs, 1), c[2] * Power(2.0 * fs, 2), c[3] * Power(2.0 * fs, 3), c[4] * Power(2.0 * fs, 4);
    Table4Entry(c, fs, 2, w0, w1, w2, w3, w4);
    ClosedForm4Rows(c, fs, w0, w1, w2, w3, w4, 2);
  }

  lemma ClosedForm4Matches3(c: seq<real>, fs: real)
    requires |c| == 5
    ensures ClosedForm4(c, fs)[3] == SubstituteWith(Table4, c, fs)[3]
  {
    var w0, w1, w2, w3, w4 := c[0] * Power(2.0 * fs, 0), c[1] * Power(2.0 * fs, 1), c[2] * Power(2.0 * fs, 2), c[3] * Power(2.0 * fs, 3), c[4] * Power(2.0 * fs, 4);
    Table4Entry(c, fs, 3, w0, w1, w2, w3, w4);
    ClosedForm4Rows(c, fs, w0, w1, w2, w3, w4, 3);
  }

  lemma ClosedForm4Matches4(c: seq<real>, fs: real)
    requires |c| == 5
    ensures ClosedForm4(c, fs)[4] == SubstituteWith(Table4, c, fs)[4]
  {
    var w0, w1, w2, w3, w4 := c[0] * Power(2.0 * fs, 0), c[1] * Power(2.0 * fs, 1), c[2] * Power(2.0 * fs, 2), c[3] * Power(2.0 * fs, 3), c[4] * Power(2.0 * fs, 4);
    Table4Entry(c, fs, 4, w0, w1, w2, w3, w4);
    ClosedForm4Rows(c, fs, w0, w1, w2, w3, w4, 4);
  }

  lemma ClosedForm4IsTable(c: seq<real>, fs: real)
    requires |c| == 5
    ensures ClosedForm4(c, fs) == SubstituteWith(Table4, c, fs)
  {
    ClosedForm4Matches0(c, fs);
    ClosedForm4Matches1(c, fs);
    ClosedForm4Matches2(c, fs);
    ClosedForm4Matches3(c, fs);
    ClosedForm4Matches4(c, fs);
  }

  lemma ClosedForm4IsSubstitute(c: seq<real>, fs: real)
    requires |c| == 5
    ensures ClosedForm4(c, fs) == Substitute(c, fs)
  {
    PolyTable4();
    ClosedForm4IsTable(c, fs);
  }



  /** Entry-wise a*x + b*y. */
  function Mix(x: seq<real>, y: seq<real>, a: real, b: real): (r: seq<real>)
    requires |x| == |y|
    ensures |r| == |x|
    ensures forall i :: 0 <= i < |x| ==> r[i] == a * x[i] + b * y[i]
  {
    seq(|x|, i requires 0 <= i < |x| => a * x[i] + b * y[i])
  }

  lemma {:induction false} ContributionLinear(polys: seq<seq<real>>, x: seq<real>, y: seq<real>, a: real, b: real, fs: real, i: nat, n: nat)
    requires |x| == |y| && Square(polys, |x|) && n <= |x| && i < |x|
    ensures Contribution(polys, Mix(x, y, a, b), fs, i, n) == a * Contribution(polys, x, fs, i, n) + b * Contribution(polys, y, fs, i, n)
    decreases n
  {
    if n > 0 {
      ContributionLinear(polys, x, y, a, b, fs, i, n - 1);
      Distribute(polys[n - 1][i], a, b, x[n - 1], y[n - 1], Power(2.0 * fs, n - 1));
    }
  }

  /** The transform is linear: numerator and denominator share one linear map. */
  lemma SubstituteLinear(x: seq<real>, y: seq<real>, a: real, b: real, fs: real)
    requires 1 <= |x| == |y|
    ensures Substitute(Mix(x, y, a, b), fs) == Mix(Substitute(x, fs), Substitute(y, fs), a, b)
  {
    SubstituteWithLinear(Polys(|x| - 1), x, y, a, b, fs);
  }

  lemma SubstituteWithLinear(polys: seq<seq<real>>, x: seq<real>, y: seq<real>, a: real, b: real, fs: real)
    requires |x| == |y| && Square(polys, |x|)
    ensures SubstituteWith(polys, Mix(x, y, a, b), fs) == Mix(SubstituteWith(polys, x, fs), SubstituteWith(polys, y, fs), a, b)
  {
    forall i | 0 <= i < |x|
      ensures SubstituteWith(polys, Mix(x, y, a, b), fs)[i] == Mix(SubstituteWith(polys, x, fs), SubstituteWith(polys, y, fs), a, b)[i]
    {
      ContributionLinear(polys, x, y, a, b, fs, i, |x|);
    }
  }

  lemma ContributionStep(polys: seq<seq<real>>, c: seq<real>, fs: real, i: nat, n: nat)
    requires Square(polys, |c|) && 1 <= n <= |c| && i < |c|
    ensures Contribution(polys, c, fs, i, n) == Contribution(polys, c, fs, i, n - 1) + polys[n - 1][i] * (c[n - 1] * Power(2.0 * fs, n - 1))
  {
    Reassociate(polys[n - 1][i], c[n - 1], Power(2.0 * fs, n - 1));
  }

  lemma Reassociate(k: real, c: real, p: real)
    ensures k * c * p == k * (c * p)
  {
  }

  lemma Distribute(k: real, a: real, b: real, u: real, v: real, q: real)
    ensures k * (a * u + b * v) * q == a * (k * u * q) + b * (k * v * q)
  {
  }


  lemma {:induction false} PowerPositive(x: real, n: nat)
    requires x > 0.0
    ensures Power(x, n) > 0.0
    decreases n
  {
    if n > 0 {
      PowerPositive(x, n - 1);
    }
  }
}
