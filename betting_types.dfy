/** The records of the staking engine and the bet ledger. */
module BettingTypes {
  import opened Common

  /** A settlement result as stored in a bankroll's rolling window. */
  datatype BetResult = WIN | LOSS | VOID | PUSH

  /** The string the store holds for a result (the fixed-stake policy reads these strings). */
  function ResultName(r: BetResult): string {
    match r
    case WIN => "WIN"
    case LOSS => "LOSS"
    case VOID => "VOID"
    case PUSH => "PUSH"
  }

  function ResultNames(rs: seq<BetResult>): (names: seq<string>)
    ensures |names| == |rs|
    ensures forall i :: 0 <= i < |rs| ==> names[i] == ResultName(rs[i])
  {
    if rs == [] then [] else ResultNames(rs[..|rs| - 1]) + [ResultName(rs[|rs| - 1])]
  }

  /** One user's bankroll. Times are left out; the day key is the calendar date string. */
  datatype Bankroll = Bankroll(
    currency: string,
    initialBankroll: real,
    currentBankroll: real,
    peakBankroll: real,
    openExposure: real,
    consecutiveLosses: int,
    last50Results: seq<BetResult>,
    dayKey: string,
    dayRiskUsed: real)

  datatype BetCandidate = BetCandidate(
    predictionId: nat,
    fixtureId: int,
    market: string,
    selection: string,
    line: Option<real>,
    oddsDecimal: real,
    modelProbability: real)

  datatype FixedStakeResult = FixedStakeResult(
    stake: real,
    pct: real,
    isReduced: bool,
    bankroll: real,
    consecutiveLosses: int)

  /** A bet's status; VOIDED and PUSHED are the store's 'VOID' and 'PUSH'. */
  datatype BetStatus = OPEN | WON | LOST | VOIDED | PUSHED

  /** A bet row as the store holds it; `pnl` is null until settlement. */
  datatype PlacedBet = PlacedBet(
    id: nat,
    predictionId: nat,
    fixtureId: int,
    market: string,
    selection: string,
    line: Option<real>,
    oddsDecimal: real,
    modelProbability: real,
    stake: real,
    stakePct: real,
    currency: string,
    status: BetStatus,
    pnl: Option<real>,
    recommendation: FixedStakeResult)
}
