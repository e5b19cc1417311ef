/**
 * The goal model: independent Poisson goal counts for the two sides, truncated
 * at six goals each. `exp` stands for the exponential function; `pow` with a
 * natural exponent is repeated multiplication.
 */
module Poisson {
  import opened Common

  const MaxGoals: nat := 6
  const HomeAdvantageFactor: real := 1.1
  const LowLambda: real := 0.90
  const LowLambdaPenalty: real := 0.90
  const LowLeagueAverage: real := 1.15
  const LowLeaguePenalty: real := 0.92

  function Fact(n: nat): (r: nat)
    ensures r >= 1
  {
    if n == 0 then 1 else n * Fact(n - 1)
  }

  /** The factorial loop: 1 for 0, otherwise 2 * 3 * ... * n. */
  method Factorial(n: nat) returns (res: nat)
    ensures res == Fact(n)
  {
    if n == 0 {
      return 1;
    }
    res := 1;
    var i := 2;
    while i <= n
      invariant 2 <= i <= n + 1
      invariant res == Fact(i - 1)
    {
      res := res * i;
      i := i + 1;
    }
  }

  function PowNat(x: real, k: nat): (r: real)
    ensures x >= 0.0 ==> r >= 0.0
  {
    if k == 0 then 1.0 else x * PowNat(x, k - 1)
  }

  /** P(X = k) for X ~ Poisson(lambda). */
  function Pmf(k: nat, lambda: real, exp: real -> real): real {
    PowNat(lambda, k) * exp(-lambda) / Fact(k) as real
  }

  lemma PmfNonNegative(k: nat, lambda: real, exp: real -> real)
    requires lambda >= 0.0 && exp(-lambda) >= 0.0
    ensures Pmf(k, lambda, exp) >= 0.0
  {
    ProductNonNegative(PowNat(lambda, k), exp(-lambda));
  }

  lemma ProductNonNegative(a: real, b: real)
    requires a >= 0.0 && b >= 0.0
    ensures a * b >= 0.0
  {
  }

  method PoissonPmf(k: nat, lambda: real, exp: real -> real) returns (p: real)
    ensures p == Pmf(k, lambda, exp)
  {
    var f := Factorial(k);
    p := (PowNat(lambda, k) * exp(-lambda)) / f as real;
  }

  datatype ExpectedGoals = ExpectedGoals(lambdaHome: real, lambdaAway: real)

  function GetExpectedGoals(leagueAvgGoals: real, homeAttackStrength: real, awayDefenseWeakness: real,
                            awayAttackStrength: real, homeDefenseWeakness: real): (g: ExpectedGoals)
    ensures g.lambdaHome == leagueAvgGoals * homeAttackStrength * awayDefenseWeakness * HomeAdvantageFactor
    ensures g.lambdaAway == leagueAvgGoals * awayAttackStrength * homeDefenseWeakness
  {
    ExpectedGoals(leagueAvgGoals * homeAttackStrength * awayDefenseWeakness * HomeAdvantageFactor,
                  leagueAvgGoals * awayAttackStrength * homeDefenseWeakness)
  }

  /** Two evenly matched sides: the home rate is the away rate raised by the 10% home advantage. */
  lemma EvenSidesFavourHome(avg: real, attack: real, defense: real)
    ensures GetExpectedGoals(avg, attack, defense, attack, defense).lambdaHome
         == HomeAdvantageFactor * GetExpectedGoals(avg, attack, defense, attack, defense).lambdaAway
  {
  }

  lemma ExpectedGoalsNonNegative(avg: real, ha: real, ad: real, aa: real, hd: real)
    requires avg >= 0.0 && ha >= 0.0 && ad >= 0.0 && aa >= 0.0 && hd >= 0.0
    ensures GetExpectedGoals(avg, ha, ad, aa, hd).lambdaHome >= 0.0
    ensures GetExpectedGoals(avg, ha, ad, aa, hd).lambdaAway >= 0.0
  {
    ProductNonNegative(avg, ha);
    ProductNonNegative(avg * ha, ad);
    ProductNonNegative(avg * ha * ad, HomeAdvantageFactor);
    ProductNonNegative(avg, aa);
    ProductNonNegative(avg * aa, hd);
  }

  /** pmf(0..6) for one rate. */
  function PmfTable(lambda: real, exp: real -> real): (t: seq<real>)
    ensures |t| == MaxGoals + 1
    ensures forall k :: 0 <= k <= MaxGoals ==> t[k] == Pmf(k, lambda, exp)
  {
    seq(MaxGoals + 1, k requires 0 <= k => Pmf(k, lambda, exp))
  }

  /** sum over j < m of ph_i * pa[j], counted only where i + j exceeds the line. */
  function RowOver(x: real, pa: seq<real>, i: nat, line: real, m: nat): real
    requires m <= |pa|
  {
    if m == 0 then 0.0
    else RowOver(x, pa, i, line, m - 1) + (if (i + (m - 1)) as real > line then x * pa[m - 1] else 0.0)
  }

  /** The probability mass of the grid rows i < n whose total exceeds the line. */
  function GridOver(ph: seq<real>, pa: seq<real>, line: real, n: nat): real
    requires n <= |ph|
  {
    if n == 0 then 0.0 else GridOver(ph, pa, line, n - 1) + RowOver(ph[n - 1], pa, n - 1, line, |pa|)
  }

  datatype Probabilities = Probabilities(
    btts: real, over15: real, over25: real, over35: real,
    under15: real, under25: real, under35: real)

  /** The probabilities from the two pmf tables. */
  function ProbabilitiesFrom(ph: seq<real>, pa: seq<real>): (r: Probabilities)
    requires |ph| >= 1 && |pa| >= 1
    ensures r.under15 == 1.0 - r.over15 && r.under25 == 1.0 - r.over25 && r.under35 == 1.0 - r.over35
  {
    var o15 := GridOver(ph, pa, 1.5, |ph|);
    var o25 := GridOver(ph, pa, 2.5, |ph|);
    var o35 := GridOver(ph, pa, 3.5, |ph|);
    Probabilities(1.0 - ph[0] - pa[0] + ph[0] * pa[0], o15, o25, o35, 1.0 - o15, 1.0 - o25, 1.0 - o35)
  }

  /** BTTS is the product of "home scores" and "away scores", so a probability when pmf(0) values are. */
  lemma BttsIsProduct(ph: seq<real>, pa: seq<real>)
    requires |ph| >= 1 && |pa| >= 1
    ensures ProbabilitiesFrom(ph, pa).btts == (1.0 - ph[0]) * (1.0 - pa[0])
    ensures 0.0 <= ph[0] <= 1.0 && 0.0 <= pa[0] <= 1.0 ==> 0.0 <= ProbabilitiesFrom(ph, pa).btts <= 1.0
  {
    if 0.0 <= ph[0] <= 1.0 && 0.0 <= pa[0] <= 1.0 {
      ProductNonNegative(1.0 - ph[0], 1.0 - pa[0]);
      ProductAtMostOne(1.0 - ph[0], 1.0 - pa[0]);
    }
  }

  lemma ProductAtMostOne(a: real, b: real)
    requires 0.0 <= a <= 1.0 && 0.0 <= b <= 1.0
    ensures a * b <= 1.0
  {
    ProductNonNegative(a, 1.0 - b);
    assert a * (1.0 - b) == a - a * b;
  }

  lemma {:induction false} RowOverMonotone(x: real, pa: seq<real>, i: nat, lo: real, hi: real, m: nat)
    requires m <= |pa| && lo <= hi && x >= 0.0
    requires forall j :: 0 <= j < |pa| ==> pa[j] >= 0.0
    ensures RowOver(x, pa, i, hi, m) <= RowOver(x, pa, i, lo, m)
  {
    if m > 0 {
      RowOverMonotone(x, pa, i, lo, hi, m - 1);
      ProductNonNegative(x, pa[m - 1]);
    }
  }

  lemma {:induction false} GridOverMonotone(ph: seq<real>, pa: seq<real>, lo: real, hi: real, n: nat)
    requires n <= |ph| && lo <= hi
    requires forall i :: 0 <= i < |ph| ==> ph[i] >= 0.0
    requires forall j :: 0 <= j < |pa| ==> pa[j] >= 0.0
    ensures GridOver(ph, pa, hi, n) <= GridOver(ph, pa, lo, n)
  {
    if n > 0 {
      GridOverMonotone(ph, pa, lo, hi, n - 1);
      RowOverMonotone(ph[n - 1], pa, n - 1, lo, hi, |pa|);
    }
  }

  /** With non-negative pmf values a higher line is never more likely to be beaten. */
  lemma OverProbabilitiesOrdered(ph: seq<real>, pa: seq<real>)
    requires |ph| >= 1 && |pa| >= 1
    requires forall i :: 0 <= i < |ph| ==> ph[i] >= 0.0
    requires forall j :: 0 <= j < |pa| ==> pa[j] >= 0.0
    ensures var r := ProbabilitiesFrom(ph, pa); r.over35 <= r.over25 <= r.over15
  {
    GridOverMonotone(ph, pa, 1.5, 2.5, |ph|);
    GridOverMonotone(ph, pa, 2.5, 3.5, |ph|);
  }

  /** For non-negative rates (and a positive exp) the ordering holds for the model's own tables. */
  lemma ModelOverProbabilitiesOrdered(lambdaHome: real, lambdaAway: real, exp: real -> real)
    requires lambdaHome >= 0.0 && lambdaAway >= 0.0
    requires forall x :: exp(x) > 0.0
    ensures var r := ProbabilitiesFrom(PmfTable(lambdaHome, exp), PmfTable(lambdaAway, exp));
      r.over35 <= r.over25 <= r.over15
  {
    var ph := PmfTable(lambdaHome, exp);
    var pa := PmfTable(lambdaAway, exp);
    forall k | 0 <= k < |ph| ensures ph[k] >= 0.0 {
      PmfNonNegative(k, lambdaHome, exp);
    }
    forall k | 0 <= k < |pa| ensures pa[k] >= 0.0 {
      PmfNonNegative(k, lambdaAway, exp);
    }
    OverProbabilitiesOrdered(ph, pa);
  }

  /** The first loop: pHome[i] and pAway[i] hold pmf(i) for i in 0..6. */
  method FillPmfTables(lambdaHome: real, lambdaAway: real, exp: real -> real)
    returns (pHome: array<real>, pAway: array<real>)
    ensures fresh(pHome) && fresh(pAway)
    ensures pHome[..] == PmfTable(lambdaHome, exp) && pAway[..] == PmfTable(lambdaAway, exp)
  {
    pHome := new real[MaxGoals + 1];
    pAway := new real[MaxGoals + 1];
    for i := 0 to MaxGoals + 1
      invariant forall k :: 0 <= k < i ==> pHome[k] == Pmf(k, lambdaHome, exp)
      invariant forall k :: 0 <= k < i ==> pAway[k] == Pmf(k, lambdaAway, exp)
    {
      pHome[i] := PoissonPmf(i, lambdaHome, exp);
      pAway[i] := PoissonPmf(i, lambdaAway, exp);
    }
  }

  /** The inner loop for home count i: adds ph_i * pa_j to each sum whose line i + j exceeds. */
  method AddRow(x: real, pAway: array<real>, i: nat, o15: real, o25: real, o35: real)
    returns (p15: real, p25: real, p35: real)
    ensures p15 == o15 + RowOver(x, pAway[..], i, 1.5, pAway.Length)
    ensures p25 == o25 + RowOver(x, pAway[..], i, 2.5, pAway.Length)
    ensures p35 == o35 + RowOver(x, pAway[..], i, 3.5, pAway.Length)
  {
    p15, p25, p35 := o15, o25, o35;
    for j := 0 to pAway.Length
      invariant p15 == o15 + RowOver(x, pAway[..], i, 1.5, j)
      invariant p25 == o25 + RowOver(x, pAway[..], i, 2.5, j)
      invariant p35 == o35 + RowOver(x, pAway[..], i, 3.5, j)
    {
      var jointProb := x * pAway[j];
      var totalGoals := i + j;
      if totalGoals as real > 1.5 { p15 := p15 + jointProb; }
      if totalGoals as real > 2.5 { p25 := p25 + jointProb; }
      if totalGoals as real > 3.5 { p35 := p35 + jointProb; }
    }
  }

  /** The outer loop of the grid sums. */
  method SumOverGrid(pHome: array<real>, pAway: array<real>) returns (o15: real, o25: real, o35: real)
    ensures o15 == GridOver(pHome[..], pAway[..], 1.5, pHome.Length)
    ensures o25 == GridOver(pHome[..], pAway[..], 2.5, pHome.Length)
    ensures o35 == GridOver(pHome[..], pAway[..], 3.5, pHome.Length)
  {
    o15, o25, o35 := 0.0, 0.0, 0.0;
    for i := 0 to pHome.Length
      invariant o15 == GridOver(pHome[..], pAway[..], 1.5, i)
      invariant o25 == GridOver(pHome[..], pAway[..], 2.5, i)
      invariant o35 == GridOver(pHome[..], pAway[..], 3.5, i)
    {
      o15, o25, o35 := AddRow(pHome[i], pAway, i, o15, o25, o35);
    }
  }

  method CalculateProbabilities(lambdaHome: real, lambdaAway: real, exp: real -> real) returns (r: Probabilities)
    ensures r == ProbabilitiesFrom(PmfTable(lambdaHome, exp), PmfTable(lambdaAway, exp))
  {
    var pHome, pAway := FillPmfTables(lambdaHome, lambdaAway, exp);
    ghost var ph, pa := pHome[..], pAway[..];
    assert pHome[0] == ph[0] && pAway[0] == pa[0];
    var pBtts := 1.0 - pHome[0] - pAway[0] + (pHome[0] * pAway[0]);
    var pOver15, pOver25, pOver35 := SumOverGrid(pHome, pAway);
    r := Probabilities(pBtts, pOver15, pOver25, pOver35, 1.0 - pOver15, 1.0 - pOver25, 1.0 - pOver35);
    assert r == ProbabilitiesFrom(ph, pa);
  }

  datatype PenalizedProbabilities = PenalizedProbabilities(probs: Probabilities, bttsRaw: real)

  /** BTTS is cut by 10% for a low-scoring side and by 8% for a low-scoring league; the raw value is kept. */
  function ApplyBttsPenalty(base: Probabilities, lambdaHome: real, lambdaAway: real,
                            leagueAvgGoalsPerTeam: real): (r: PenalizedProbabilities)
    ensures r.bttsRaw == base.btts
    ensures r.probs == base.(btts := r.probs.btts)
    ensures r.probs.btts == base.btts * (if Min(lambdaHome, lambdaAway) < LowLambda then LowLambdaPenalty else 1.0)
                                      * (if leagueAvgGoalsPerTeam < LowLeagueAverage then LowLeaguePenalty else 1.0)
  {
    var pBttsYes := base.btts;
    var afterLambda := if Min(lambdaHome, lambdaAway) < LowLambda then pBttsYes * LowLambdaPenalty else pBttsYes;
    var afterLeague := if leagueAvgGoalsPerTeam < LowLeagueAverage then afterLambda * LowLeaguePenalty else afterLambda;
    PenalizedProbabilities(base.(btts := afterLeague), base.btts)
  }

  /** The penalty only ever lowers a non-negative BTTS, and is absent when neither condition holds. */
  lemma PenaltyOnlyLowers(base: Probabilities, lambdaHome: real, lambdaAway: real, leagueAvg: real)
    ensures base.btts >= 0.0 ==>
      0.0 <= ApplyBttsPenalty(base, lambdaHome, lambdaAway, leagueAvg).probs.btts <= base.btts
    ensures lambdaHome >= LowLambda && lambdaAway >= LowLambda && leagueAvg >= LowLeagueAverage ==>
      ApplyBttsPenalty(base, lambdaHome, lambdaAway, leagueAvg).probs == base
  {
  }

  method CalculateProbabilitiesWithPenalty(lambdaHome: real, lambdaAway: real, leagueAvgGoalsPerTeam: real,
                                           exp: real -> real) returns (r: PenalizedProbabilities)
    ensures r == ApplyBttsPenalty(ProbabilitiesFrom(PmfTable(lambdaHome, exp), PmfTable(lambdaAway, exp)),
                                  lambdaHome, lambdaAway, leagueAvgGoalsPerTeam)
  {
    var base := CalculateProbabilities(lambdaHome, lambdaAway, exp);
    r := ApplyBttsPenalty(base, lambdaHome, lambdaAway, leagueAvgGoalsPerTeam);
  }
}
