/**
 * Fractional-Kelly staking with drawdown, loss-streak and form multipliers,
 * three downward caps and whole-unit rounding, plus the pure bankroll
 * transitions after placing and settling a bet.
 */
module Kelly {
  import opened Common
  import opened BettingTypes

  datatype KellyConfig = KellyConfig(
    kellyFraction: real,
    maxStakePct: real,
    maxDailyRiskPct: real,
    maxOpenExposurePct: real)

  /** The configuration the shipped tests expect. */
  const DefaultKellyConfig := KellyConfig(0.20, 0.015, 0.05, 0.08)

  datatype KellyResult = KellyResult(
    rawKelly: real,
    fractionalKelly: real,
    finalStakePct: real,
    finalStakeAmount: int,
    pUsed: real,
    drawdownMultiplier: real,
    lossStreakMultiplier: real,
    formMultiplier: real)

  datatype StakeDecision = StakeDecision(
    shouldBet: bool,
    stakePct: real,
    stakeAmount: int,
    kellyResult: KellyResult)

  /** `Math.min(Math.max(value, lo), hi)`. */
  function Clamp(value: real, lo: real, hi: real): (r: real)
    ensures r <= hi
    ensures lo <= hi ==> lo <= r
    ensures lo <= value <= hi ==> r == value
    ensures value < lo <= hi ==> r == lo
    ensures hi < value ==> r == hi
  {
    Min(Max(value, lo), hi)
  }

  /** Risk already taken today; a stale day key counts as nothing. */
  function EffectiveDayRiskUsed(b: Bankroll, today: string): real {
    if b.dayKey == today then b.dayRiskUsed else 0.0
  }

  /** Blend toward one half, subtract a three-point safety margin, clamp to [0.50, 0.90]. */
  function SafetyAdjustedProbability(modelProb: real): (pUsed: real)
    ensures 0.50 <= pUsed <= 0.90
    ensures 0.50 <= 0.7 * modelProb + 0.12 <= 0.90 ==> pUsed == 0.7 * modelProb + 0.12
  {
    var pUsedRaw := 0.7 * modelProb + 0.3 * 0.50;
    Clamp(pUsedRaw - 0.03, 0.50, 0.90)
  }

  lemma SafetyAdjustedMonotone(p: real, q: real)
    requires p <= q
    ensures SafetyAdjustedProbability(p) <= SafetyAdjustedProbability(q)
  {
  }

  /** Kelly fraction for net odds b = odds - 1, never negative. */
  function RawKelly(pUsed: real, oddsDecimal: real): (k: real)
    ensures k >= 0.0
    ensures oddsDecimal <= 1.0 ==> k == 0.0
    ensures 0.0 <= pUsed <= 1.0 ==> k <= pUsed
    ensures k > 0.0 <==> oddsDecimal > 1.0 && pUsed * oddsDecimal > 1.0
  {
    var b := oddsDecimal - 1.0;
    if b <= 0.0 then 0.0
    else
      var rawKelly := (b * pUsed - (1.0 - pUsed)) / b;
      KellyFractionFacts(oddsDecimal, pUsed);
      assert rawKelly == ((oddsDecimal - 1.0) * pUsed - (1.0 - pUsed)) / (oddsDecimal - 1.0);
      Max(0.0, rawKelly)
  }

  /** With b = odds - 1 > 0: (b p - (1 - p)) / b is at most p, and positive exactly when p odds > 1. */
  lemma KellyFractionFacts(oddsDecimal: real, p: real)
    requires oddsDecimal > 1.0
    ensures p <= 1.0 ==> ((oddsDecimal - 1.0) * p - (1.0 - p)) / (oddsDecimal - 1.0) <= p
    ensures ((oddsDecimal - 1.0) * p - (1.0 - p)) / (oddsDecimal - 1.0) > 0.0 <==> p * oddsDecimal > 1.0
  {
    var b := oddsDecimal - 1.0;
    var x := b * p - (1.0 - p);
    var q := (1.0 - p) / b;
    assert q * b == 1.0 - p;
    assert (p - q) * b == x;
    assert x / b == p - q;
    assert x == p * oddsDecimal - 1.0;
    PositiveQuotient(x, b);
    PositiveQuotient(1.0 - p, b);
  }

  lemma PositiveQuotient(x: real, b: real)
    requires b > 0.0
    ensures x / b > 0.0 <==> x > 0.0
    ensures x / b >= 0.0 <==> x >= 0.0
  {
    assert (x / b) * b == x;
  }

  /** For n > 0, w / n < c exactly when w < c n. */
  lemma RatioBelow(w: real, n: real, c: real)
    requires n > 0.0
    ensures w / n < c <==> w < c * n
  {
    assert (w / n) * n == w;
    assert (w / n - c) * n == w - c * n;
    PositiveQuotient(c * n - w, n);
    assert (c * n - w) / n == c - w / n;
  }

  /** For p > 0, d reaches c exactly when d p reaches c p. */
  lemma ThresholdScales(d: real, p: real, x: real, c: real)
    requires p > 0.0 && d * p == x
    ensures d >= c <==> x >= c * p
  {
    assert d * p - c * p == (d - c) * p;
    PositiveQuotient((d - c) * p, p);
    assert (d - c) * p / p == d - c;
  }

  /** Multiplier from the drawdown (peak - current) / peak. */
  function DrawdownMultiplier(b: Bankroll): (m: real)
    ensures m == 1.0 || m == 0.75 || m == 0.50 || m == 0.25
    ensures b.peakBankroll <= 0.0 ==> m == 1.0
    ensures b.peakBankroll > 0.0 ==>
      (m == 0.25 <==> b.peakBankroll - b.currentBankroll >= 0.18 * b.peakBankroll)
    ensures b.peakBankroll > 0.0 ==>
      (m == 0.50 <==> 0.12 * b.peakBankroll <= b.peakBankroll - b.currentBankroll < 0.18 * b.peakBankroll)
    ensures b.peakBankroll > 0.0 ==>
      (m == 0.75 <==> 0.08 * b.peakBankroll <= b.peakBankroll - b.currentBankroll < 0.12 * b.peakBankroll)
    ensures b.peakBankroll > 0.0 ==>
      (m == 1.0 <==> b.peakBankroll - b.currentBankroll < 0.08 * b.peakBankroll)
  {
    if b.peakBankroll <= 0.0 then 1.0
    else
      var drawdown := (b.peakBankroll - b.currentBankroll) / b.peakBankroll;
      assert drawdown * b.peakBankroll == b.peakBankroll - b.currentBankroll;
      var loss := b.peakBankroll - b.currentBankroll;
      ThresholdScales(drawdown, b.peakBankroll, loss, 0.18);
      ThresholdScales(drawdown, b.peakBankroll, loss, 0.12);
      ThresholdScales(drawdown, b.peakBankroll, loss, 0.08);
      if drawdown >= 0.18 then 0.25
      else if drawdown >= 0.12 then 0.50
      else if drawdown >= 0.08 then 0.75
      else 1.0
  }

  /** A deeper drawdown (same peak, lower balance) never raises the multiplier. */
  lemma DrawdownMultiplierMonotone(b1: Bankroll, b2: Bankroll)
    requires b1.peakBankroll == b2.peakBankroll
    requires b2.currentBankroll <= b1.currentBankroll
    ensures DrawdownMultiplier(b2) <= DrawdownMultiplier(b1)
  {
    var p := b1.peakBankroll;
    if p > 0.0 {
      var d1 := (p - b1.currentBankroll) / p;
      var d2 := (p - b2.currentBankroll) / p;
      assert d1 * p == p - b1.currentBankroll;
      assert d2 * p == p - b2.currentBankroll;
      assert d1 <= d2;
    }
  }

  /** Wins among the three most recent results (the window is newest first). */
  function WinsInLast3(results: seq<BetResult>): nat {
    Count(results[..MinNat(3, |results|)], WIN)
  }

  function LossStreakMultiplier(b: Bankroll): (m: real)
    ensures m == 1.0 || m == 0.75 || m == 0.50
    ensures WinsInLast3(b.last50Results) >= 2 ==> m == 1.0
    ensures WinsInLast3(b.last50Results) < 2 ==>
      m == (if b.consecutiveLosses >= 5 then 0.50 else if b.consecutiveLosses >= 3 then 0.75 else 1.0)
  {
    var winsInLast3 := WinsInLast3(b.last50Results);
    if winsInLast3 >= 2 then 1.0
    else if b.consecutiveLosses >= 5 then 0.50
    else if b.consecutiveLosses >= 3 then 0.75
    else 1.0
  }

  /** A longer loss streak never raises the multiplier. */
  lemma LossStreakMultiplierMonotone(b: Bankroll, losses: int)
    requires losses >= b.consecutiveLosses
    ensures LossStreakMultiplier(b.(consecutiveLosses := losses)) <= LossStreakMultiplier(b)
  {
  }

  /** Halves the stake when fewer than 60% of at least 20 results are wins (VOID and PUSH count in the length). */
  function FormMultiplier(b: Bankroll): (m: real)
    ensures m == 1.0 || m == 0.50
    ensures |b.last50Results| < 20 ==> m == 1.0
    ensures |b.last50Results| >= 20 ==>
      (m == 0.50 <==> (Count(b.last50Results, WIN) as real) < 0.60 * (|b.last50Results| as real))
  {
    var betsLast50 := |b.last50Results|;
    if betsLast50 < 20 then 1.0
    else
      var wins := Count(b.last50Results, WIN);
      var winRate := (wins as real) / (betsLast50 as real);
      RatioBelow(wins as real, betsLast50 as real, 0.60);
      if winRate < 0.60 then 0.50 else 1.0
  }

  /** The Kelly stake after the three multipliers, before any cap. */
  function UncappedStake(candidate: BetCandidate, b: Bankroll, config: KellyConfig): real {
    var pUsed := SafetyAdjustedProbability(candidate.modelProbability);
    var fractionalKelly := RawKelly(pUsed, candidate.oddsDecimal) * config.kellyFraction;
    fractionalKelly * b.currentBankroll
      * DrawdownMultiplier(b) * LossStreakMultiplier(b) * FormMultiplier(b)
  }

  function DailyRiskRemaining(b: Bankroll, config: KellyConfig, today: string): real {
    b.currentBankroll * config.maxDailyRiskPct - EffectiveDayRiskUsed(b, today)
  }

  function ExposureRemaining(b: Bankroll, config: KellyConfig): real {
    b.currentBankroll * config.maxOpenExposurePct - b.openExposure
  }

  /** The stake after the per-bet, daily-risk and open-exposure caps, each applied downward in turn. */
  function CappedStake(candidate: BetCandidate, b: Bankroll, config: KellyConfig, today: string): (s: real)
    ensures s <= UncappedStake(candidate, b, config)
    ensures s <= b.currentBankroll * config.maxStakePct
    ensures s <= DailyRiskRemaining(b, config, today)
    ensures s <= ExposureRemaining(b, config)
    ensures s == UncappedStake(candidate, b, config) || s == b.currentBankroll * config.maxStakePct
         || s == DailyRiskRemaining(b, config, today) || s == ExposureRemaining(b, config)
  {
    var stake := UncappedStake(candidate, b, config);
    var stake1 := Min(stake, b.currentBankroll * config.maxStakePct);
    var stake2 := Min(stake1, DailyRiskRemaining(b, config, today));
    Min(stake2, ExposureRemaining(b, config))
  }

  /** `Math.round` (half up) followed by "below one unit means no bet". */
  function RoundStake(x: real): (n: int)
    ensures n >= 0
    ensures n == 0 <==> x < 0.5
    ensures n > 0 ==> x - 0.5 < n as real <= x + 0.5
  {
    var rounded := (x + 0.5).Floor;
    if rounded < 1 then 0 else rounded
  }

  function ComputeStakeDecision(candidate: BetCandidate, b: Bankroll, config: KellyConfig, today: string): (d: StakeDecision)
    ensures d.stakeAmount >= 0 && d.stakeAmount == d.kellyResult.finalStakeAmount
    ensures d.shouldBet <==> d.stakeAmount > 0
    ensures d.stakeAmount > 0 ==> d.stakeAmount as real <= b.currentBankroll * config.maxStakePct + 0.5
    ensures d.stakeAmount > 0 ==> d.stakeAmount as real <= DailyRiskRemaining(b, config, today) + 0.5
    ensures d.stakeAmount > 0 ==> d.stakeAmount as real <= ExposureRemaining(b, config) + 0.5
    ensures d.stakeAmount == 0 <==> CappedStake(candidate, b, config, today) < 0.5
    ensures b.currentBankroll > 0.0 ==> d.stakePct * b.currentBankroll == d.stakeAmount as real
    ensures b.currentBankroll <= 0.0 ==> d.stakePct == 0.0
    ensures 0.50 <= d.kellyResult.pUsed <= 0.90 && d.kellyResult.rawKelly >= 0.0
    ensures d.stakeAmount == RoundStake(CappedStake(candidate, b, config, today))
    ensures d.kellyResult.pUsed == SafetyAdjustedProbability(candidate.modelProbability)
    ensures d.kellyResult.rawKelly == RawKelly(d.kellyResult.pUsed, candidate.oddsDecimal)
    ensures d.kellyResult.fractionalKelly == d.kellyResult.rawKelly * config.kellyFraction
    ensures d.kellyResult.drawdownMultiplier == DrawdownMultiplier(b)
    ensures d.kellyResult.lossStreakMultiplier == LossStreakMultiplier(b)
    ensures d.kellyResult.formMultiplier == FormMultiplier(b)
  {
    var pUsed := SafetyAdjustedProbability(candidate.modelProbability);
    var rawKelly := RawKelly(pUsed, candidate.oddsDecimal);
    var fractionalKelly := rawKelly * config.kellyFraction;
    var stake := RoundStake(CappedStake(candidate, b, config, today));
    var finalStakePct := if b.currentBankroll > 0.0 then (stake as real) / b.currentBankroll else 0.0;
    var kellyResult := KellyResult(rawKelly, fractionalKelly, finalStakePct, stake, pUsed,
      DrawdownMultiplier(b), LossStreakMultiplier(b), FormMultiplier(b));
    StakeDecision(stake > 0, finalStakePct, stake, kellyResult)
  }

  /** The worked example: 1000 bankroll, p = 0.70 at odds 2.0, no history: pUsed 0.61, raw Kelly 0.22, stake 15. */
  lemma ScenarioBaseline(today: string)
    ensures var d := ComputeStakeDecision(BetCandidate(0, 0, "BTTS", "YES", None, 2.0, 0.70),
                                          Bankroll("EUR", 1000.0, 1000.0, 1000.0, 0.0, 0, [], today, 0.0),
                                          DefaultKellyConfig, today);
      d.kellyResult.pUsed == 0.61 && d.kellyResult.rawKelly == 0.22 && d.kellyResult.fractionalKelly == 0.044 &&
      d.stakeAmount == 15 && d.shouldBet
  {
    var b := Bankroll("EUR", 1000.0, 1000.0, 1000.0, 0.0, 0, [], today, 0.0);
    assert WinsInLast3(b.last50Results) == 0;
    assert DrawdownMultiplier(b) == 1.0;
    assert RawKelly(0.61, 2.0) == 0.22;
  }

  /**
   * Rounding happens after the caps, so the rounded stake can exceed the floor of the
   * 1.5% per-bet cap: at a 1040 balance the cap is 15.6 and the stake is 16.
   */
  lemma RoundingCanExceedPerBetFloor(today: string)
    ensures var b := Bankroll("EUR", 1040.0, 1040.0, 1040.0, 0.0, 0, [], today, 0.0);
      var d := ComputeStakeDecision(BetCandidate(0, 0, "BTTS", "YES", None, 2.0, 0.70), b, DefaultKellyConfig, today);
      d.stakeAmount == 16 && (0.015 * 1040.0).Floor == 15
  {
    var b := Bankroll("EUR", 1040.0, 1040.0, 1040.0, 0.0, 0, [], today, 0.0);
    assert WinsInLast3(b.last50Results) == 0;
    assert DrawdownMultiplier(b) == 1.0;
    assert RawKelly(0.61, 2.0) == 0.22;
  }

  /** The bankroll after a stake is locked: exposure and today's risk grow by the stake, the day key rolls to today. */
  function UpdateBankrollAfterBet(b: Bankroll, stakeAmount: real, today: string): (r: Bankroll)
    ensures r.openExposure == b.openExposure + stakeAmount
    ensures r.dayKey == today
    ensures r.dayRiskUsed == (if b.dayKey == today then b.dayRiskUsed else 0.0) + stakeAmount
    ensures r == b.(openExposure := r.openExposure, dayKey := r.dayKey, dayRiskUsed := r.dayRiskUsed)
  {
    var currentDayRiskUsed := EffectiveDayRiskUsed(b, today);
    b.(openExposure := b.openExposure + stakeAmount, dayKey := today, dayRiskUsed := currentDayRiskUsed + stakeAmount)
  }

  /** Locking a stake shrinks both the daily and the exposure allowance by exactly that stake. */
  lemma AllowancesShrinkByStake(b: Bankroll, stake: real, config: KellyConfig, today: string)
    ensures DailyRiskRemaining(UpdateBankrollAfterBet(b, stake, today), config, today)
         == DailyRiskRemaining(b, config, today) - stake
    ensures ExposureRemaining(UpdateBankrollAfterBet(b, stake, today), config)
         == ExposureRemaining(b, config) - stake
  {
  }

  /** Profit or loss of a settled stake; VOID is neutral. */
  function CalculatePnl(stakeAmount: real, oddsDecimal: real, result: BetResult): (pnl: real)
    requires result != PUSH
    ensures result == VOID ==> pnl == 0.0
    ensures result == LOSS ==> pnl == -stakeAmount
    ensures result == WIN ==> pnl + stakeAmount == stakeAmount * oddsDecimal
    ensures result == WIN && stakeAmount >= 0.0 && oddsDecimal >= 1.0 ==> pnl >= 0.0
  {
    if result == WIN then stakeAmount * (oddsDecimal - 1.0)
    else if result == LOSS then -stakeAmount
    else 0.0
  }

  /** The bankroll after settling one bet; the new result is put at the FRONT of the window (newest first). */
  function SettleBet(b: Bankroll, stakeAmount: real, oddsDecimal: real, result: BetResult): (r: Bankroll)
    requires result != PUSH
    ensures r.currentBankroll == b.currentBankroll + CalculatePnl(stakeAmount, oddsDecimal, result)
    ensures r.peakBankroll >= b.peakBankroll && r.peakBankroll >= r.currentBankroll
    ensures r.peakBankroll == b.peakBankroll || r.peakBankroll == r.currentBankroll
    ensures r.openExposure >= 0.0 && r.openExposure >= b.openExposure - stakeAmount
    ensures r.openExposure == 0.0 || r.openExposure == b.openExposure - stakeAmount
    ensures result == WIN ==> r.consecutiveLosses == 0
    ensures result == LOSS ==> r.consecutiveLosses == b.consecutiveLosses + 1
    ensures result == VOID ==> r.consecutiveLosses == b.consecutiveLosses
    ensures |r.last50Results| == MinNat(50, |b.last50Results| + 1)
    ensures r.last50Results[0] == result
    ensures r.last50Results[1..] == b.last50Results[..|r.last50Results| - 1]
    ensures r.currency == b.currency && r.initialBankroll == b.initialBankroll
    ensures r.dayKey == b.dayKey && r.dayRiskUsed == b.dayRiskUsed
  {
    var pnl := CalculatePnl(stakeAmount, oddsDecimal, result);
    var newBankroll := b.currentBankroll + pnl;
    var newPeak := Max(b.peakBankroll, newBankroll);
    var newConsecutiveLosses :=
      if result == WIN then 0
      else if result == LOSS then b.consecutiveLosses + 1
      else b.consecutiveLosses;
    var window := [result] + b.last50Results;
    var newLast50Results := window[..MinNat(50, |window|)];
    assert newLast50Results[0] == window[0] == result;
    assert newLast50Results[1..] == window[1..MinNat(50, |window|)] == b.last50Results[..|newLast50Results| - 1];
    b.(currentBankroll := newBankroll, peakBankroll := newPeak,
       openExposure := Max(0.0, b.openExposure - stakeAmount),
       consecutiveLosses := newConsecutiveLosses, last50Results := newLast50Results)
  }

  /**
   * Because the window is newest first, two winning settlements in a row lift the
   * loss-streak multiplier to 1.0 whatever the streak counter says.
   */
  lemma TwoWinsLiftLossStreakMultiplier(b: Bankroll, s1: real, o1: real, s2: real, o2: real)
    ensures LossStreakMultiplier(SettleBet(SettleBet(b, s1, o1, WIN), s2, o2, WIN).(consecutiveLosses := 7)) == 1.0
  {
    var r := SettleBet(SettleBet(b, s1, o1, WIN), s2, o2, WIN).last50Results;
    assert r[0] == WIN && r[1] == WIN;
    var w := r[..MinNat(3, |r|)];
    assert w[..2] == [WIN, WIN];
    CountPrefixGrows(w, 2, WIN);
    assert Count([WIN, WIN], WIN) == 2;
  }

  lemma {:induction false} CountPrefixGrows<T>(s: seq<T>, k: nat, x: T)
    requires k <= |s|
    ensures Count(s[..k], x) <= Count(s, x)
  {
    assert s == s[..k] + s[k..];
    CountAppend(s[..k], s[k..], x);
  }

  /** Settlement keeps the bankroll invariants peak >= current and exposure >= 0. */
  lemma SettlementKeepsBankrollInvariants(b: Bankroll, stake: real, odds: real, result: BetResult)
    requires result != PUSH
    requires b.peakBankroll >= b.currentBankroll && b.openExposure >= 0.0
    ensures var r := SettleBet(b, stake, odds, result);
      r.peakBankroll >= r.currentBankroll && r.openExposure >= 0.0 && |r.last50Results| <= 50
  {
  }
}
