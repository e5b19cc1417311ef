/**
 * The betting service of one user: a bankroll and the list of that user's bets,
 * with the settlement, placement, reset and analytics operations. A bet's id is
 * its position in `bets`. The store's rows and their transactions are replaced
 * by the two fields.
 */
module BettingService {
  import opened Common
  import opened BettingTypes
  import FixedStake
  import Kelly

  const DefaultBankrollAmount: real := 1000.0
  const DefaultCurrency: string := "EUR"
  /** The bankroll keeps at most this many results, oldest first. */
  const ResultWindow: nat := 50

  datatype LedgerError = BetNotFound | AlreadySettled | NonPositiveStake | NonPositiveAmount

  datatype Outcome<T> = Success(value: T) | Failure(error: LedgerError)

  /** Profit or loss of a settled stake as the service computes it; PUSH and VOID are neutral. */
  function SettlementPnl(stake: real, odds: real, result: BetResult): (pnl: real)
    ensures result == WIN ==> pnl + stake == stake * odds
    ensures result == LOSS ==> pnl == -stake
    ensures result == VOID || result == PUSH ==> pnl == 0.0
  {
    if result == WIN then stake * (odds - 1.0)
    else if result == LOSS then -stake
    else 0.0
  }

  /** The service and the pure staking module agree on every result the latter accepts. */
  lemma SettlementPnlAgreesWithKelly(stake: real, odds: real, result: BetResult)
    requires result != PUSH
    ensures SettlementPnl(stake, odds, result) == Kelly.CalculatePnl(stake, odds, result)
  {
  }

  /** The status a settled bet gets; a PUSH is stored as VOID. */
  function SettledStatus(result: BetResult): (s: BetStatus)
    ensures s != OPEN && s != PUSHED
    ensures s == WON <==> result == WIN
    ensures s == LOST <==> result == LOSS
    ensures s == VOIDED <==> (result == VOID || result == PUSH)
  {
    match result
    case WIN => WON
    case LOSS => LOST
    case VOID => VOIDED
    case PUSH => VOIDED
  }

  /** The result window after a settlement: the new result at the END, the oldest dropped past 50. */
  function AppendResult(results: seq<BetResult>, result: BetResult): (r: seq<BetResult>)
    ensures |r| == MinNat(ResultWindow, |results| + 1)
    ensures r[|r| - 1] == result
    ensures r[..|r| - 1] == results[|results| + 1 - |r|..]
  {
    var all := results + [result];
    all[(if |all| > ResultWindow then |all| - ResultWindow else 0)..]
  }

  /**
   * The two settlement routines keep their windows in opposite orders: after the
   * same settlement the newest result heads the staking module's window and ends
   * the service's window.
   */
  lemma WindowConventionsDiffer(b: Bankroll, stake: real, odds: real, result: BetResult)
    requires result != PUSH
    ensures Kelly.SettleBet(b, stake, odds, result).last50Results[0] == result
    ensures var r := AppendResult(b.last50Results, result); r[|r| - 1] == result
    ensures |b.last50Results| < ResultWindow ==>
      AppendResult(b.last50Results, result)[..|b.last50Results|] == b.last50Results
  {
  }

  function NextConsecutiveLosses(losses: int, result: BetResult): int {
    if result == LOSS then losses + 1 else if result == WIN then 0 else losses
  }

  /** The bankroll after one settlement by the service. */
  function SettledBankroll(b: Bankroll, stake: real, odds: real, result: BetResult): (r: Bankroll)
    ensures r.currentBankroll == b.currentBankroll + SettlementPnl(stake, odds, result)
    ensures r.peakBankroll >= b.peakBankroll && r.peakBankroll >= r.currentBankroll
    ensures r.peakBankroll == b.peakBankroll || r.peakBankroll == r.currentBankroll
    ensures r.openExposure >= 0.0 && r.openExposure >= b.openExposure - stake
    ensures r.openExposure == 0.0 || r.openExposure == b.openExposure - stake
    ensures result == WIN ==> r.consecutiveLosses == 0
    ensures result == LOSS ==> r.consecutiveLosses == b.consecutiveLosses + 1
    ensures result == VOID || result == PUSH ==> r.consecutiveLosses == b.consecutiveLosses
    ensures r.last50Results == AppendResult(b.last50Results, result)
    ensures r == b.(currentBankroll := r.currentBankroll, peakBankroll := r.peakBankroll,
                    openExposure := r.openExposure, consecutiveLosses := r.consecutiveLosses,
                    last50Results := r.last50Results)
  {
    var pnl := SettlementPnl(stake, odds, result);
    var newBalance := b.currentBankroll + pnl;
    b.(currentBankroll := newBalance,
       peakBankroll := Max(b.peakBankroll, newBalance),
       openExposure := Max(0.0, b.openExposure - stake),
       consecutiveLosses := NextConsecutiveLosses(b.consecutiveLosses, result),
       last50Results := AppendResult(b.last50Results, result))
  }

  /** The bet row after settlement. */
  function SettledRow(bet: PlacedBet, result: BetResult): (r: PlacedBet)
    ensures r.status == SettledStatus(result)
    ensures r.pnl == Some(SettlementPnl(bet.stake, bet.oddsDecimal, result))
    ensures r == bet.(status := r.status, pnl := r.pnl)
  {
    bet.(status := SettledStatus(result), pnl := Some(SettlementPnl(bet.stake, bet.oddsDecimal, result)))
  }

  /** How a stored row reads back: a zero or missing pnl or line comes back as absent. */
  function MapBet(row: PlacedBet): (r: PlacedBet)
    ensures r.pnl.None? <==> row.pnl.None? || row.pnl == Some(0.0)
    ensures r.pnl.Some? ==> r.pnl == row.pnl
    ensures r.line.None? <==> row.line.None? || row.line == Some(0.0)
    ensures r.line.Some? ==> r.line == row.line
    ensures r == row.(pnl := r.pnl, line := r.line)
  {
    row.(pnl := if row.pnl == Some(0.0) then None else row.pnl,
         line := if row.line == Some(0.0) then None else row.line)
  }

  /** A voided settlement reads back with no pnl at all. */
  lemma VoidSettlementReadsBackWithoutPnl(bet: PlacedBet, result: BetResult)
    requires result == VOID || result == PUSH
    ensures MapBet(SettledRow(bet, result)).pnl == None
    ensures MapBet(SettledRow(bet, result)).status == VOIDED
  {
  }

  /** The stake and odds used when a bet is placed: the caller's values win over the recommendation. */
  function ChosenStake(customStake: Option<real>, recommendation: FixedStakeResult): (s: real)
    ensures customStake.Some? ==> s == customStake.value
    ensures customStake.None? ==> s == recommendation.stake
  {
    customStake.GetOr(recommendation.stake)
  }

  /** The stake as a fraction of the current bankroll (the store would hold a non-finite value for 0). */
  function StakeFraction(stake: real, current: real): (f: real)
    ensures current != 0.0 ==> f * current == stake
    ensures current == 0.0 ==> f == 0.0
  {
    if current != 0.0 then stake / current else 0.0
  }

  function NewBetRow(id: nat, candidate: BetCandidate, stake: real, odds: real,
                     b: Bankroll, recommendation: FixedStakeResult): PlacedBet
  {
    PlacedBet(id, candidate.predictionId, candidate.fixtureId, candidate.market, candidate.selection,
              candidate.line, odds, candidate.modelProbability, stake,
              StakeFraction(stake, b.currentBankroll), b.currency, OPEN, None, recommendation)
  }

  /** The fixed-stake recommendation for a bankroll, computed from its oldest-first window. */
  function Recommendation(b: Bankroll): FixedStakeResult {
    FixedStake.FixedStakeOf(b.currentBankroll, b.consecutiveLosses, ResultNames(b.last50Results))
  }

  predicate RowConsistent(bet: PlacedBet, id: nat) {
    bet.id == id && bet.stake > 0.0 && bet.status != PUSHED && (bet.status == OPEN <==> bet.pnl.None?)
  }

  predicate BankrollConsistent(b: Bankroll) {
    b.initialBankroll > 0.0 && b.peakBankroll >= b.currentBankroll && b.openExposure >= 0.0
    && b.consecutiveLosses >= 0 && |b.last50Results| <= ResultWindow
  }

  // ---------------------------------------------------------------- analytics

  datatype MarketStats = MarketStats(pnl: real, wins: nat, total: nat)

  datatype Overview = Overview(
    totalBets: nat, settledBets: nat, totalStake: real, totalPnl: real,
    winRate: real, yieldPct: real, roi: real, wins: nat, losses: nat, voids: nat)

  datatype Analytics = Analytics(overview: Overview, markets: map<string, MarketStats>)

  function PnlOf(bet: PlacedBet): real { bet.pnl.GetOr(0.0) }

  predicate IsVoidLike(bet: PlacedBet) { bet.status == VOIDED || bet.status == PUSHED }

  function Settled(bets: seq<PlacedBet>): (r: seq<PlacedBet>)
    ensures |r| <= |bets|
    ensures forall i :: 0 <= i < |r| ==> r[i].status != OPEN
  {
    if bets == [] then []
    else Settled(bets[..|bets| - 1]) + (if bets[|bets| - 1].status != OPEN then [bets[|bets| - 1]] else [])
  }

  function TotalStake(bets: seq<PlacedBet>): real {
    if bets == [] then 0.0 else TotalStake(bets[..|bets| - 1]) + bets[|bets| - 1].stake
  }

  function TotalPnl(bets: seq<PlacedBet>): real {
    if bets == [] then 0.0 else TotalPnl(bets[..|bets| - 1]) + PnlOf(bets[|bets| - 1])
  }

  function CountStatus(bets: seq<PlacedBet>, st: BetStatus): (n: nat)
    ensures n <= |bets|
  {
    if bets == [] then 0 else CountStatus(bets[..|bets| - 1], st) + (if bets[|bets| - 1].status == st then 1 else 0)
  }

  /** Every settled bet is won, lost or void-like, so the three counts partition the settled bets. */
  lemma {:induction false} SettledPartition(s: seq<PlacedBet>)
    requires forall i :: 0 <= i < |s| ==> s[i].status != OPEN
    ensures CountStatus(s, WON) + CountStatus(s, LOST) + CountStatus(s, VOIDED) + CountStatus(s, PUSHED) == |s|
  {
    if s != [] {
      SettledPartition(s[..|s| - 1]);
    }
  }

  /** The per-market tally the loop builds, one settled bet at a time. */
  function MarketTally(s: seq<PlacedBet>): map<string, MarketStats> {
    if s == [] then map[]
    else
      var m := MarketTally(s[..|s| - 1]);
      var b := s[|s| - 1];
      var cur := if b.market in m then m[b.market] else MarketStats(0.0, 0, 0);
      m[b.market := MarketStats(cur.pnl + PnlOf(b),
                                cur.wins + (if b.status == WON then 1 else 0),
                                cur.total + (if IsVoidLike(b) then 0 else 1))]
  }

  /** The bets of one market, in order. */
  function OfMarket(s: seq<PlacedBet>, market: string): seq<PlacedBet> {
    if s == [] then []
    else OfMarket(s[..|s| - 1], market) + (if s[|s| - 1].market == market then [s[|s| - 1]] else [])
  }

  function CountCounted(s: seq<PlacedBet>): nat {
    if s == [] then 0 else CountCounted(s[..|s| - 1]) + (if IsVoidLike(s[|s| - 1]) then 0 else 1)
  }

  /** The tally has an entry exactly for the markets that occur among the bets. */
  lemma {:induction false} MarketTallyKeys(s: seq<PlacedBet>, market: string)
    ensures market in MarketTally(s) <==> exists i :: 0 <= i < |s| && s[i].market == market
  {
    if s != [] {
      var p := s[..|s| - 1];
      MarketTallyKeys(p, market);
      if s[|s| - 1].market != market && exists i :: 0 <= i < |s| && s[i].market == market {
        var i :| 0 <= i < |s| && s[i].market == market;
        assert p[i].market == market;
      }
    }
  }

  /**
   * Each tally entry holds that market's total pnl (void-like bets included), its
   * wins, and its bets that are not void-like.
   */
  lemma {:induction false} MarketTallyValues(s: seq<PlacedBet>, market: string)
    requires market in MarketTally(s)
    ensures MarketTally(s)[market] == MarketStats(TotalPnl(OfMarket(s, market)),
                                                  CountStatus(OfMarket(s, market), WON),
                                                  CountCounted(OfMarket(s, market)))
  {
    var p := s[..|s| - 1];
    var last := s[|s| - 1];
    if last.market != market {
      assert OfMarket(s, market) == OfMarket(p, market);
      MarketTallyValues(p, market);
    } else if market in MarketTally(p) {
      MarketTallyValues(p, market);
    } else {
      MarketTallyKeys(p, market);
      OfMarketEmpty(p, market);
      assert OfMarket(s, market) == [last];
      assert [last][..0] == [];
    }
  }

  lemma {:induction false} OfMarketEmpty(s: seq<PlacedBet>, market: string)
    requires forall i :: 0 <= i < |s| ==> s[i].market != market
    ensures OfMarket(s, market) == []
  {
    if s != [] {
      OfMarketEmpty(s[..|s| - 1], market);
    }
  }

  /** Wins are among the counted bets, so no market shows more wins than bets. */
  lemma {:induction false} WinsWithinCounted(s: seq<PlacedBet>)
    ensures CountStatus(s, WON) <= CountCounted(s)
  {
    if s != [] {
      WinsWithinCounted(s[..|s| - 1]);
    }
  }

  function WinRate(wins: nat, losses: nat): (r: real)
    ensures 0.0 <= r <= 100.0
    ensures wins + losses == 0 ==> r == 0.0
    ensures wins + losses > 0 ==> r * (wins + losses) as real == (wins as real) * 100.0
  {
    if wins + losses > 0 then (wins as real / (wins + losses) as real) * 100.0 else 0.0
  }

  function YieldPct(pnl: real, stake: real): (r: real)
    ensures stake > 0.0 ==> r * stake == pnl * 100.0
    ensures stake <= 0.0 ==> r == 0.0
  {
    if stake > 0.0 then (pnl / stake) * 100.0 else 0.0
  }

  lemma RoiScales(pnl: real, initial: real)
    requires initial > 0.0
    ensures ((pnl / initial) * 100.0) * initial == pnl * 100.0
  {
  }

  /** The per-market loop over the settled bets. */
  method TallyMarkets(settled: seq<PlacedBet>) returns (markets: map<string, MarketStats>)
    ensures markets == MarketTally(settled)
  {
    markets := map[];
    for i := 0 to |settled|
      invariant markets == MarketTally(settled[..i])
    {
      var b := settled[i];
      if b.market !in markets {
        markets := markets[b.market := MarketStats(0.0, 0, 0)];
      }
      var cur := markets[b.market];
      var wins' := cur.wins + (if b.status == WON then 1 else 0);
      var total' := cur.total + (if b.status != VOIDED && b.status != PUSHED then 1 else 0);
      markets := markets[b.market := MarketStats(cur.pnl + PnlOf(b), wins', total')];
      assert settled[..i + 1][..i] == settled[..i];
    }
    assert settled[..|settled|] == settled;
  }

  /**
   * The analytics of `bets` against the initial bankroll `initial`: counts and
   * sums over the settled bets, rates as percentages, and the per-market tally.
   */
  predicate Summarises(a: Analytics, bets: seq<PlacedBet>, initial: real) {
    Summary(a.overview, |bets|, Settled(bets), initial) && a.markets == MarketTally(Settled(bets))
  }

  /** The overview of the settled bets `s` among `totalBets` bets. */
  predicate Summary(o: Overview, totalBets: nat, s: seq<PlacedBet>, initial: real) {
    && o.totalBets == totalBets
    && o.settledBets == |s|
    && o.totalStake == TotalStake(s)
    && o.totalPnl == TotalPnl(s)
    && o.wins == CountStatus(s, WON)
    && o.losses == CountStatus(s, LOST)
    && o.voids == CountStatus(s, VOIDED) + CountStatus(s, PUSHED)
    && o.wins + o.losses + o.voids == o.settledBets
    && o.winRate == WinRate(o.wins, o.losses)
    && o.yieldPct == YieldPct(o.totalPnl, o.totalStake)
    && o.roi * initial == o.totalPnl * 100.0
  }

  method Analyze(bets: seq<PlacedBet>, initial: real) returns (a: Analytics)
    requires initial > 0.0
    ensures Summarises(a, bets, initial)
  {
    var settled := Settled(bets);
    var markets := TallyMarkets(settled);
    var overview := SettledOverview(|bets|, settled, initial);
    a := Analytics(overview, markets);
  }

  /** The overview block; `totalBets` counts the open bets too. */
  method SettledOverview(totalBets: nat, settled: seq<PlacedBet>, initial: real) returns (o: Overview)
    requires initial > 0.0
    requires forall i :: 0 <= i < |settled| ==> settled[i].status != OPEN
    ensures Summary(o, totalBets, settled, initial)
  {
    var totalStake := TotalStake(settled);
    var totalPnl := TotalPnl(settled);
    var wins := CountStatus(settled, WON);
    var losses := CountStatus(settled, LOST);
    var voids := CountStatus(settled, VOIDED) + CountStatus(settled, PUSHED);
    SettledPartition(settled);
    var roi := (totalPnl / initial) * 100.0;
    RoiScales(totalPnl, initial);
    o := Overview(totalBets, |settled|, totalStake, totalPnl, WinRate(wins, losses),
                  YieldPct(totalPnl, totalStake), roi, wins, losses, voids);
  }

  class Ledger {
    var bankroll: Bankroll
    var bets: seq<PlacedBet>

    ghost predicate Valid()
      reads this
    {
      BankrollConsistent(bankroll) && forall i :: 0 <= i < |bets| ==> RowConsistent(bets[i], i)
    }

    /** A new user's bankroll: 1000 EUR, nothing at risk, today's day key. */
    constructor(today: string)
      ensures Valid()
      ensures bankroll == Bankroll(DefaultCurrency, DefaultBankrollAmount, DefaultBankrollAmount,
                                   DefaultBankrollAmount, 0.0, 0, [], today, 0.0)
      ensures bets == []
    {
      bankroll := Bankroll(DefaultCurrency, DefaultBankrollAmount, DefaultBankrollAmount,
                           DefaultBankrollAmount, 0.0, 0, [], today, 0.0);
      bets := [];
    }

    /**
     * Settles an OPEN bet once: a missing bet or one that is not OPEN is refused and
     * nothing changes; otherwise the row and the bankroll are both updated.
     */
    method SettleBet(betId: nat, result: BetResult) returns (r: Outcome<PlacedBet>)
      requires Valid()
      modifies this
      ensures Valid()
      ensures betId >= |old(bets)| ==>
        r == Failure(BetNotFound) && bets == old(bets) && bankroll == old(bankroll)
      ensures betId < |old(bets)| && old(bets)[betId].status != OPEN ==>
        r == Failure(AlreadySettled) && bets == old(bets) && bankroll == old(bankroll)
      ensures betId < |old(bets)| && old(bets)[betId].status == OPEN ==>
        var bet := old(bets)[betId];
        && bets == old(bets)[betId := SettledRow(bet, result)]
        && bankroll == SettledBankroll(old(bankroll), bet.stake, bet.oddsDecimal, result)
        && r == Success(MapBet(bets[betId]))
        && bets[betId].status != OPEN
    {
      if betId >= |bets| {
        return Failure(BetNotFound);
      }
      var bet := bets[betId];
      if bet.status != OPEN {
        return Failure(AlreadySettled);
      }
      var updated := SettledRow(bet, result);
      bankroll := SettledBankroll(bankroll, bet.stake, bet.oddsDecimal, result);
      bets := bets[betId := updated];
      r := Success(MapBet(updated));
    }

    /**
     * Locks a stake on a candidate: the caller's stake (else the fixed-stake
     * recommendation) must be positive; the stake is added to both the open
     * exposure and today's risk, without rolling the day key.
     */
    method PlaceBet(candidate: BetCandidate, customStake: Option<real>, customOdds: Option<real>)
      returns (r: Outcome<PlacedBet>)
      requires Valid()
      modifies this
      ensures Valid()
      ensures var rec := Recommendation(old(bankroll));
        var stake := ChosenStake(customStake, rec);
        if stake <= 0.0 then
          r == Failure(NonPositiveStake) && bets == old(bets) && bankroll == old(bankroll)
        else
          var row := NewBetRow(|old(bets)|, candidate, stake, customOdds.GetOr(candidate.oddsDecimal),
                               old(bankroll), rec);
          && bets == old(bets) + [row]
          && bankroll == old(bankroll).(openExposure := old(bankroll).openExposure + stake,
                                        dayRiskUsed := old(bankroll).dayRiskUsed + stake)
          && r == Success(MapBet(row))
    {
      var recommendation := FixedStake.CalculateFixedStake(
        bankroll.currentBankroll, bankroll.consecutiveLosses, ResultNames(bankroll.last50Results));
      var finalStake := ChosenStake(customStake, recommendation);
      var finalOdds := customOdds.GetOr(candidate.oddsDecimal);
      if finalStake <= 0.0 {
        return Failure(NonPositiveStake);
      }
      var row := NewBetRow(|bets|, candidate, finalStake, finalOdds, bankroll, recommendation);
      bets := bets + [row];
      bankroll := bankroll.(openExposure := bankroll.openExposure + finalStake,
                            dayRiskUsed := bankroll.dayRiskUsed + finalStake);
      r := Success(MapBet(row));
    }

    /**
     * Resets the bankroll to a new positive amount: balance, peak and initial become
     * that amount and exposure, loss streak and results are cleared. The day key and
     * today's risk are kept.
     */
    method UpdateBankroll(amount: real) returns (r: Outcome<Bankroll>)
      requires Valid()
      modifies this
      ensures Valid()
      ensures bets == old(bets)
      ensures amount <= 0.0 ==> r == Failure(NonPositiveAmount) && bankroll == old(bankroll)
      ensures amount > 0.0 ==>
        && bankroll == old(bankroll).(initialBankroll := amount, currentBankroll := amount,
                                      peakBankroll := amount, openExposure := 0.0,
                                      consecutiveLosses := 0, last50Results := [])
        && r == Success(bankroll)
    {
      if amount <= 0.0 {
        return Failure(NonPositiveAmount);
      }
      bankroll := bankroll.(initialBankroll := amount, currentBankroll := amount,
                            peakBankroll := amount, openExposure := 0.0,
                            consecutiveLosses := 0, last50Results := []);
      r := Success(bankroll);
    }

    /** Aggregates the settled bets; the store is not changed. */
    method GetAnalytics() returns (a: Analytics)
      requires Valid()
      ensures Summarises(a, bets, bankroll.initialBankroll)
    {
      a := Analyze(bets, bankroll.initialBankroll);
    }
  }
}
