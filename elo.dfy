/**
 * Elo ratings and 1X2 probabilities. `pow10` stands for x |-> 10^x and `exp`
 * for the exponential; each lemma states the laws of them it relies on.
 */
module Elo {
  import opened Common

  const HomeAdvantage: real := 60.0
  const EloScale: real := 400.0
  const DefaultKFactor: real := 20.0
  const DefaultDrawRate: real := 0.26
  const MinDraw: real := 0.10
  const MaxDraw: real := 0.30

  ghost predicate Positive(pow10: real -> real) {
    forall x :: pow10(x) > 0.0
  }

  ghost predicate Reciprocal(pow10: real -> real) {
    forall x :: pow10(-x) * pow10(x) == 1.0
  }

  ghost predicate StrictlyIncreasing(pow10: real -> real) {
    forall x, y :: x < y ==> pow10(x) < pow10(y)
  }

  /** The logistic 1 / (1 + t); `t` positive keeps it in (0, 1). */
  function Logistic(t: real): (r: real)
    requires t > 0.0
    ensures 0.0 < r < 1.0
    ensures r * (1.0 + t) == 1.0
  {
    1.0 / (1.0 + t)
  }

  /** Expected score of A against B. */
  function ExpectedScore(ratingA: real, ratingB: real, pow10: real -> real): (e: real)
    requires Positive(pow10)
    ensures 0.0 < e < 1.0
    ensures e * (1.0 + pow10((ratingB - ratingA) / EloScale)) == 1.0
  {
    Logistic(pow10((ratingB - ratingA) / EloScale))
  }

  lemma LogisticComplement(t: real, u: real)
    requires t > 0.0 && u * t == 1.0
    ensures Logistic(t) + Logistic(u) == 1.0
  {
    assert u > 0.0;
    assert Logistic(u) == t / (t + 1.0) by {
      assert (1.0 + u) * t == t + 1.0;
    }
  }

  /** The two players' expected scores add up to 1. */
  lemma ExpectedScoresComplement(a: real, b: real, pow10: real -> real)
    requires Positive(pow10) && Reciprocal(pow10)
    ensures ExpectedScore(a, b, pow10) + ExpectedScore(b, a, pow10) == 1.0
  {
    var x := (b - a) / EloScale;
    assert (a - b) / EloScale == -x;
    assert pow10(-x) * pow10(x) == 1.0;
    LogisticComplement(pow10(x), pow10(-x));
  }

  /** Equal ratings expect a half point each. */
  lemma EqualRatingsExpectHalf(a: real, pow10: real -> real)
    requires Positive(pow10) && Reciprocal(pow10)
    ensures ExpectedScore(a, a, pow10) == 0.5
  {
    ExpectedScoresComplement(a, a, pow10);
  }

  /** The new rating: `kFactor` times the surprise is added. */
  function UpdateElo(rating: real, actualScore: real, expectedScore: real, kFactor: real := DefaultKFactor): (r: real)
    ensures actualScore == expectedScore ==> r == rating
    ensures kFactor > 0.0 ==> (r > rating <==> actualScore > expectedScore)
    ensures kFactor > 0.0 ==> (r < rating <==> actualScore < expectedScore)
  {
    rating + kFactor * (actualScore - expectedScore)
  }

  /** A game moves ratings zero-sum: what one player gains the other loses. */
  lemma UpdateIsZeroSum(ra: real, rb: real, scoreA: real, k: real, pow10: real -> real)
    requires Positive(pow10) && Reciprocal(pow10)
    ensures UpdateElo(ra, scoreA, ExpectedScore(ra, rb, pow10), k)
          + UpdateElo(rb, 1.0 - scoreA, ExpectedScore(rb, ra, pow10), k) == ra + rb
  {
    ExpectedScoresComplement(ra, rb, pow10);
    var ea := ExpectedScore(ra, rb, pow10);
    var eb := ExpectedScore(rb, ra, pow10);
    assert (1.0 - scoreA) - eb == -(scoreA - ea);
  }

  datatype MatchProbabilities = MatchProbabilities(home: real, draw: real, away: real)

  function Abs(x: real): (r: real)
    ensures r >= 0.0 && (r == x || r == -x)
  {
    if x < 0.0 then -x else x
  }

  function EloDiff(homeElo: real, awayElo: real): real {
    (homeElo + HomeAdvantage) - awayElo
  }

  /** A zero draw rate is falsy and falls back to 0.26. */
  function BaseDraw(drawRate: real): (d: real)
    ensures drawRate == 0.0 ==> d == DefaultDrawRate
    ensures drawRate != 0.0 ==> d == drawRate
  {
    if drawRate != 0.0 then drawRate else DefaultDrawRate
  }

  function DrawProbability(eloDiff: real, drawRate: real, exp: real -> real): (d: real)
    ensures MinDraw <= d <= MaxDraw
  {
    var drawFactor := exp(-Abs(eloDiff) / EloScale);
    Min(Max(BaseDraw(drawRate) * drawFactor, MinDraw), MaxDraw)
  }

  function GetMatchProbabilities(homeElo: real, awayElo: real, drawRate: real,
                                 exp: real -> real, pow10: real -> real): (p: MatchProbabilities)
    requires Positive(pow10)
    ensures MinDraw <= p.draw <= MaxDraw
    ensures p.home + p.draw + p.away == 1.0
    ensures p.home >= 0.0 && p.away >= 0.0
    ensures p.draw == DrawProbability(EloDiff(homeElo, awayElo), drawRate, exp)
    ensures p.home == (1.0 - p.draw) * ExpectedScore(homeElo + HomeAdvantage, awayElo, pow10)
    ensures p.away == (1.0 - p.draw) * (1.0 - ExpectedScore(homeElo + HomeAdvantage, awayElo, pow10))
  {
    var eloDiff := EloDiff(homeElo, awayElo);
    var pDraw := DrawProbability(eloDiff, drawRate, exp);
    assert (awayElo - (homeElo + HomeAdvantage)) / EloScale == -eloDiff / EloScale;
    var pHomeWinNoDraw := Logistic(pow10(-eloDiff / EloScale));
    var pHome := (1.0 - pDraw) * pHomeWinNoDraw;
    var pAway := (1.0 - pDraw) * (1.0 - pHomeWinNoDraw);
    NonNegativeProduct(1.0 - pDraw, pHomeWinNoDraw);
    NonNegativeProduct(1.0 - pDraw, 1.0 - pHomeWinNoDraw);
    MatchProbabilities(pHome, pDraw, pAway)
  }

  /** What the draw leaves is split by the two sides' expected scores, the home side's rating raised by 60. */
  lemma SplitByExpectedScores(homeElo: real, awayElo: real, drawRate: real,
                              exp: real -> real, pow10: real -> real)
    requires Positive(pow10) && Reciprocal(pow10)
    ensures var p := GetMatchProbabilities(homeElo, awayElo, drawRate, exp, pow10);
      && p.home == (1.0 - p.draw) * ExpectedScore(homeElo + HomeAdvantage, awayElo, pow10)
      && p.away == (1.0 - p.draw) * ExpectedScore(awayElo, homeElo + HomeAdvantage, pow10)
  {
    ExpectedScoresComplement(homeElo + HomeAdvantage, awayElo, pow10);
  }

  lemma NonNegativeProduct(a: real, b: real)
    requires a >= 0.0 && b >= 0.0
    ensures a * b >= 0.0
  {
  }

  /** A zero draw rate gives the same probabilities as the default 0.26. */
  lemma ZeroDrawRateFallsBack(homeElo: real, awayElo: real, exp: real -> real, pow10: real -> real)
    requires Positive(pow10)
    ensures GetMatchProbabilities(homeElo, awayElo, 0.0, exp, pow10)
         == GetMatchProbabilities(homeElo, awayElo, DefaultDrawRate, exp, pow10)
  {
  }

  /**
   * The home side is at least as likely as the away side exactly when its rating
   * plus the 60-point home advantage is at least the away rating.
   */
  lemma HomeFavouredIffAhead(homeElo: real, awayElo: real, drawRate: real, exp: real -> real, pow10: real -> real)
    requires Positive(pow10) && Reciprocal(pow10) && StrictlyIncreasing(pow10)
    ensures var p := GetMatchProbabilities(homeElo, awayElo, drawRate, exp, pow10);
      p.home >= p.away <==> EloDiff(homeElo, awayElo) >= 0.0
  {
    var d := EloDiff(homeElo, awayElo);
    var t := pow10(-d / EloScale);
    var q := Logistic(t);
    var p := GetMatchProbabilities(homeElo, awayElo, drawRate, exp, pow10);
    var w := 1.0 - p.draw;
    assert w > 0.0;
    assert p.home == w * q && p.away == w * (1.0 - q);
    PowZeroIsOne(pow10);
    ScaledComparison(w, q, p.home, p.away);
    LogisticHalf(t);
    assert q >= 0.5 <==> t <= 1.0;
    if d >= 0.0 {
      if -d / EloScale < 0.0 {
        assert t < pow10(0.0);
      } else {
        assert -d / EloScale == 0.0;
        assert t == pow10(0.0);
      }
      assert t <= 1.0;
    } else {
      assert -d / EloScale > 0.0;
      assert pow10(0.0) < t;
    }
  }

  lemma PowZeroIsOne(pow10: real -> real)
    requires Positive(pow10) && Reciprocal(pow10)
    ensures pow10(0.0) == 1.0
  {
    var z := pow10(0.0);
    assert pow10(-0.0) * pow10(0.0) == 1.0;
    assert z * z == 1.0;
    if z > 1.0 {
      MulStrict(z, z, 1.0);
    } else if z < 1.0 {
      MulStrict(z, 1.0, z);
    }
  }

  lemma MulStrict(a: real, b: real, c: real)
    requires a > 0.0 && b > c
    ensures a * b > a * c
  {
  }

  lemma ScaledComparison(w: real, q: real, h: real, a: real)
    requires w > 0.0 && h == w * q && a == w * (1.0 - q)
    ensures h >= a <==> q >= 0.5
  {
    if q >= 0.5 {
      assert w * q - w * (1.0 - q) == w * (2.0 * q - 1.0);
    } else {
      assert w * (1.0 - q) - w * q == w * (1.0 - 2.0 * q);
    }
  }

  lemma LogisticHalf(t: real)
    requires t > 0.0
    ensures Logistic(t) >= 0.5 <==> t <= 1.0
  {
    var q := Logistic(t);
    assert q * (1.0 + t) == 1.0;
    if t <= 1.0 {
      assert q * 2.0 >= q * (1.0 + t);
    } else {
      assert q * 2.0 < q * (1.0 + t);
    }
  }

  /** With a non-decreasing exp and a positive base rate, a wider rating gap never raises the draw. */
  lemma DrawShrinksWithGap(d1: real, d2: real, drawRate: real, exp: real -> real)
    requires forall x, y :: x <= y ==> exp(x) <= exp(y)
    requires BaseDraw(drawRate) > 0.0
    requires Abs(d1) <= Abs(d2)
    ensures DrawProbability(d2, drawRate, exp) <= DrawProbability(d1, drawRate, exp)
  {
    var b := BaseDraw(drawRate);
    var f1 := exp(-Abs(d1) / EloScale);
    var f2 := exp(-Abs(d2) / EloScale);
    assert -Abs(d2) / EloScale <= -Abs(d1) / EloScale;
    assert f2 <= f1;
    assert b * f2 <= b * f1 by {
      assert b * f1 - b * f2 == b * (f1 - f2);
      NonNegativeProduct(b, f1 - f2);
    }
    assert Max(b * f2, MinDraw) <= Max(b * f1, MinDraw);
    assert Min(Max(b * f2, MinDraw), MaxDraw) <= Min(Max(b * f1, MinDraw), MaxDraw);
    assert DrawProbability(d1, drawRate, exp) == Min(Max(b * f1, MinDraw), MaxDraw);
  }
}
