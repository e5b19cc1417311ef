# Football prediction engine: a verified model of the betting core

This project models the betting and prediction core of a football-prediction
service, written as TypeScript under `src/lib`. The core has these parts:

- **Staking.**
  - Fractional-Kelly staking (`kelly.ts`): a safety-adjusted probability, the raw Kelly fraction, drawdown, loss-streak and form multipliers, three caps and whole-unit rounding, and the pure bankroll transitions after a bet is placed or settled.
  - The "fixed stake" recommender (`fixed-stake.ts`): it replays the settled results through a STANDARD/REDUCED state machine.
- **The bet ledger** (`service.ts`): placing, settling and resetting a bankroll, and the analytics aggregation, as a class over a bankroll and a map of bet rows.
- **Result settlement** (`syncResults.ts`): settling a prediction from a final score, the finished-state test, score extraction, batching fixture ids, and the sync loop with its persistence abstracted.
- **The prediction engine** (`runPredictionEngine.ts`): the fixture window and cap, the insufficient-history branch, Elo from the last ten matches, goal statistics, the eleven evaluations, the ordered block gates, the single winner per fixture, and the diagnostics counters.
- **The models it uses:**
  - the Poisson goal model (`poisson.ts`);
  - Elo 1X2 probabilities (`elo.ts`);
  - the probability blend (`probAdjust.ts`).
- **The odds pipeline:**
  - keyword normalisation and the filtered mean (`normalizeOdds.ts`);
  - the per-record filter of the odds client (`sportmonksOdds.ts`);
  - key-based de-duplication (`syncOdds.ts`);
  - per-market consensus averages (`computeOddsAverages.ts`).

Money, probabilities and odds are `real`s. Instants are integer milliseconds. Strings are `seq<char>`.

Things outside the core are parameters:
- "today" and "now";
- the exponential and `10^x`, given as function values with only the laws each lemma states;
- the JavaScript number parsers (`parseFloat`, `Number`, the first-number regex);
- the odds provider and the database. A failed call is an explicit parameter: a set of failing ids, or an `Option`.

The model follows the code as written, including these places where it does less than, or other than, its own names and comments suggest:
- `kelly.ts:90-97` caps the stake, and only then does `kelly.ts:99` round it to a whole unit, so the rounded stake may exceed the per-bet cap by up to 0.5.
- The `"ou"` keyword of `normalizeOdds.ts:5` also matches "Double Chance", which is therefore read as an over/under market.
- Two result-window conventions exist side by side: `kelly.ts:166` puts the newest result first, `service.ts:255` appends it last.
- The engine applies neither `MIN_EDGE` nor `DAILY_PICK_LIMIT`, although `src/lib/constants/markets.ts:16-18` defines them; nor does it call `adjustProbability`.

One exception: the averages job votes with each bookmaker's latest point, as the comment on `computeOddsAverages.ts:41` intends, rather than with the vote line 45 computes. The code's own row is modelled beside it (see Findings and Left out).

Modules, one per file: `Common`, `Markets` (constants), `Strings`, `BettingTypes`, `Kelly`, `FixedStake`, `BettingService` (the ledger), `SyncResults`, `Elo`, `Poisson`, `ProbAdjust`, `OddsPoints`, `NormalizeOdds`, `SportmonksOdds`, `SyncOdds`, `OddsAverages`, `EngineModel` (per-fixture computations) and `Engine` (the run loop and the prediction store).

## Model

| member | source | states |
|---|---|---|
| Kelly.Clamp | src/lib/betting/kelly.ts:10-12 | the result is at most `hi`, at least `lo` when `lo <= hi`, equal to the value inside the range and to the violated bound outside it |
| Kelly.SafetyAdjustedProbability | src/lib/betting/kelly.ts:23-26 | pUsed always lies in [0.50, 0.90] and equals 0.7·p + 0.12 whenever that is inside the range |
| Kelly.SafetyAdjustedMonotone | src/lib/betting/kelly.ts:23-26 | a higher model probability never gives a lower pUsed |
| Kelly.RawKelly | src/lib/betting/kelly.ts:28-33 | raw Kelly is never negative, is 0 for odds <= 1, is at most pUsed, and is positive exactly when odds > 1 and pUsed·odds > 1 |
| Kelly.KellyFractionFacts | src/lib/betting/kelly.ts:29-31 | for b = odds − 1 > 0, (b·p − (1 − p))/b is at most p and positive exactly when p·odds > 1 |
| Kelly.DrawdownMultiplier | src/lib/betting/kelly.ts:35-42 | the multiplier is one of 1, 0.75, 0.5, 0.25; it is 1 for a non-positive peak; for a positive peak it is 0.25 exactly when the drawdown is at least 18%, 0.5 exactly when it is in [12%, 18%), 0.75 exactly when it is in [8%, 12%) and 1 exactly when it is below 8% |
| Kelly.DrawdownMultiplierMonotone | src/lib/betting/kelly.ts:35-42 | a lower balance under the same peak never raises the multiplier |
| Kelly.LossStreakMultiplier | src/lib/betting/kelly.ts:44-52 | it is 1 whenever the first three (newest) results hold two wins; otherwise 0.5 from five losses, 0.75 from three, else 1 |
| Kelly.LossStreakMultiplierMonotone | src/lib/betting/kelly.ts:44-52 | a longer loss streak never raises the multiplier |
| Kelly.FormMultiplier | src/lib/betting/kelly.ts:54-62 | it is 1 with fewer than 20 results; otherwise 0.5 exactly when wins are below 60% of the window length, VOID included in the length |
| Kelly.CappedStake | src/lib/betting/kelly.ts:80-97 | the capped stake is at most the multiplied Kelly stake, the per-bet cap, the daily allowance (a stale day counts nothing) and the exposure allowance, and equals one of these four, so it is their minimum |
| Kelly.RoundStake | src/lib/betting/kelly.ts:99-100 | the amount is a non-negative integer, 0 exactly when the value is below 0.5, otherwise within half a unit of the value |
| Kelly.ComputeStakeDecision | src/lib/betting/kelly.ts:71-121 | the stake is the capped stake rounded to a whole amount; pUsed is the safety-adjusted probability, raw Kelly is computed from it and the odds, fractional Kelly is raw Kelly times the configured fraction, and the three multipliers are the drawdown, loss-streak and form multipliers of the bankroll; the stake is a non-negative whole amount, `shouldBet` holds exactly when it is positive, it is 0 exactly when the capped stake is below 0.5, a positive stake exceeds none of the three caps by more than 0.5, its percentage times the bankroll is the amount, and pUsed and raw Kelly keep their bounds |
| Kelly.ScenarioBaseline | src/lib/betting/kelly.test.ts:60-66 | at bankroll 1000, p = 0.70 and odds 2.0 with no history, pUsed is 0.61, raw Kelly 0.22, fractional Kelly 0.044 and the stake 15 |
| Kelly.RoundingCanExceedPerBetFloor | src/lib/betting/kelly.ts:90-100 | at bankroll 1040 the stake is 16 while the floor of the 1.5% cap is 15: the rounding comes after the caps |
| Kelly.UpdateBankrollAfterBet | src/lib/betting/kelly.ts:123-136 | exposure grows by the stake, the day key becomes today, today's risk is the old one (0 if the day is stale) plus the stake, and nothing else changes |
| Kelly.AllowancesShrinkByStake | src/lib/betting/kelly.ts:123-136 | after a stake is locked, both today's risk allowance and the exposure allowance are exactly that stake smaller |
| Kelly.CalculatePnl | src/lib/betting/kelly.ts:178-186 | VOID gives 0, LOSS gives −stake, WIN gives stake·(odds − 1), non-negative for odds >= 1 |
| Kelly.SettleBet | src/lib/betting/kelly.ts:138-176 | the balance moves by the PnL; the new peak is the old peak or the new balance and at least both; exposure is max(0, exposure − stake); the loss counter resets on WIN, grows on LOSS and stays on VOID; the result is put first and the window is cut at 50; the other fields stay |
| Kelly.TwoWinsLiftLossStreakMultiplier | src/lib/betting/kelly.ts:44-47 | two winning settlements in a row lift the loss-streak multiplier to 1 whatever the loss counter says, because the window is newest first |
| Kelly.SettlementKeepsBankrollInvariants | src/lib/betting/kelly.ts:153-175 | settlement preserves peak >= balance, exposure >= 0 and a window of at most 50 |
| FixedStake.NonVoid | src/lib/betting/fixed-stake.ts:25 | the filtered history is no longer than the input and holds no VOID |
| FixedStake.StepStreak | src/lib/betting/fixed-stake.ts:33-38 | one step grows the streak by at most one and resets it on a win |
| FixedStake.FloorToCent | src/lib/betting/fixed-stake.ts:59 | the floored value is at most the value and less than a cent below it |
| FixedStake.CalculateFixedStake | src/lib/betting/fixed-stake.ts:20-65 | the loop's result is the replay of the VOID-free history in order, oldest first |
| FixedStake.ReplayPrefix | src/lib/betting/fixed-stake.ts:30-53 | replaying one entry more is one step whose window is the up-to-three entries ending at it |
| FixedStake.ApplyResult | src/lib/betting/fixed-stake.ts:31-52 | the loop body computes exactly one replay step |
| FixedStake.FixedStakeShape | src/lib/betting/fixed-stake.ts:55-64 | pct is 0.015 or 0.0075, isReduced holds exactly when pct is 0.0075 and exactly when the replay ends REDUCED, 0 <= bankroll·pct − stake < 0.01, and bankroll and loss counter are echoed |
| FixedStake.VoidIsIgnored | src/lib/betting/fixed-stake.ts:25 | inserting a VOID anywhere in the history does not change the result |
| FixedStake.LossCounterIsOnlyEchoed | src/lib/betting/fixed-stake.ts:20-64 | the caller's loss counter affects neither the stake nor the mode |
| FixedStake.NeutralResultKeepsStreak | src/lib/betting/fixed-stake.ts:34-38 | an entry other than LOSS/LOST/WIN/WON leaves the streak as it was |
| FixedStake.StreakBoundedByRecentWin | src/lib/betting/fixed-stake.ts:33-38 | a win d entries before the end bounds the streak by d |
| FixedStake.StreakOfThreeMeansReduced | src/lib/betting/fixed-stake.ts:40-52 | whenever the running streak is at least three the mode is REDUCED, since the window then holds no win |
| FixedStake.ThreeTrailingLossesReduce | src/lib/betting/fixed-stake.ts:25-55 | three trailing losses after removing VOIDs always give the reduced 0.75% stake |
| FixedStake.RecoveryNeedsTwoWins | src/lib/betting/fixed-stake.ts:45-52 | REDUCED turns to STANDARD only at an entry whose window of up to three holds at least two wins |
| FixedStake.ThreeLossesScenario | src/lib/betting/fixed-stake.ts:17 | LOSS, LOSS, LOSS ends REDUCED |
| FixedStake.RecoveryScenario | src/lib/betting/fixed-stake.ts:18 | LOSS, LOSS, LOSS, WIN, WIN ends STANDARD at 1.5% |
| ProbAdjust.AdjustProbability | src/lib/model/probAdjust.ts:1-14 | the result is at most 0.85 and equals min(0.45·pModel + 0.3·pImplied + 0.125, 0.85) |
| ProbAdjust.AdjustedWithinBounds | src/lib/model/probAdjust.ts:7-13 | for inputs in [0, 1] the result lies in [0.125, 0.85] |
| ProbAdjust.AdjustMonotone | src/lib/model/probAdjust.ts:7-13 | the result is non-decreasing in both probabilities |
| ProbAdjust.MarketIgnored | src/lib/model/probAdjust.ts:4 | the market argument does not affect the result |
| ProbAdjust.EvenStaysEven | src/lib/model/probAdjust.ts:7-13 | (0.5, 0.5) maps to 0.5 |
| Elo.Logistic | src/lib/models/elo.ts:2 | for t > 0, 1/(1 + t) lies strictly between 0 and 1 |
| Elo.ExpectedScore | src/lib/models/elo.ts:1-3 | the expected score lies in (0, 1) and times 1 + 10^((b − a)/400) gives 1 |
| Elo.LogisticComplement | src/lib/models/elo.ts:2 | the logistic of t and of 1/t add up to 1 |
| Elo.ExpectedScoresComplement | src/lib/models/elo.ts:1-3 | the two players' expected scores add up to 1, given 10^(−x)·10^x = 1 |
| Elo.EqualRatingsExpectHalf | src/lib/models/elo.ts:1-3 | equal ratings expect 0.5 |
| Elo.UpdateElo | src/lib/models/elo.ts:5-7 | the rating is unchanged when the actual score is the expected one, and for a positive k rises exactly when the actual score exceeds it and falls exactly when it is below |
| Elo.UpdateIsZeroSum | src/lib/models/elo.ts:1-7 | with complementary scores, one game's two updates keep the sum of the ratings |
| Elo.BaseDraw | src/lib/models/elo.ts:14 | a zero draw rate falls back to 0.26, any other is kept |
| Elo.DrawProbability | src/lib/models/elo.ts:13-16 | the draw probability lies in [0.10, 0.30] |
| Elo.GetMatchProbabilities | src/lib/models/elo.ts:9-30 | draw in [0.10, 0.30]; what the draw leaves is split so that home is (1 − draw) times the expected score of the home side with its rating raised by 60, and away is (1 − draw) times the rest; home + draw + away = 1, home and away non-negative |
| Elo.SplitByExpectedScores | src/lib/models/elo.ts:19-23 | under the reciprocal law of 10^x, away is (1 − draw) times the away side's own expected score against the home rating raised by 60, so the split is the two sides' expected scores |
| Elo.ZeroDrawRateFallsBack | src/lib/models/elo.ts:14 | a zero draw rate gives the probabilities of the rate 0.26 |
| Elo.HomeFavouredIffAhead | src/lib/models/elo.ts:10-23 | home >= away exactly when the home rating plus 60 is at least the away rating, for a positive, reciprocal, increasing 10^x |
| Elo.DrawShrinksWithGap | src/lib/models/elo.ts:15-16 | with a non-decreasing exp and a positive base rate, a wider rating gap never raises the draw probability |
| Poisson.Fact | src/lib/models/poisson.ts:2-7 | n! is at least 1 |
| Poisson.Factorial | src/lib/models/poisson.ts:2-7 | the loop returns n! (1 for 0) |
| Poisson.PowNat | src/lib/models/poisson.ts:8 | a non-negative base gives a non-negative power |
| Poisson.PmfNonNegative | src/lib/models/poisson.ts:8 | for a non-negative rate and exp value the pmf is non-negative |
| Poisson.PoissonPmf | src/lib/models/poisson.ts:1-9 | the method returns λ^k·exp(−λ)/k! |
| Poisson.GetExpectedGoals | src/lib/models/poisson.ts:11-23 | λhome = avg·homeAttack·awayDefense·1.1 and λaway = avg·awayAttack·homeDefense |
| Poisson.EvenSidesFavourHome | src/lib/models/poisson.ts:18-20 | two evenly matched sides give the home side 1.1 times the away rate |
| Poisson.ExpectedGoalsNonNegative | src/lib/models/poisson.ts:19-20 | non-negative inputs give non-negative rates |
| Poisson.PmfTable | src/lib/models/poisson.ts:31-34 | the table has seven entries and entry k is pmf(k) |
| Poisson.ProbabilitiesFrom | src/lib/models/poisson.ts:54-62 | each under value is one minus the over value of its line |
| Poisson.BttsIsProduct | src/lib/models/poisson.ts:37 | btts = (1 − pHome[0])·(1 − pAway[0]), hence in [0, 1] when both pmf(0) values are |
| Poisson.RowOverMonotone | src/lib/models/poisson.ts:44-51 | with non-negative pmf values a row's mass above a higher line is no larger |
| Poisson.GridOverMonotone | src/lib/models/poisson.ts:44-52 | with non-negative pmf values the grid's mass above a higher line is no larger |
| Poisson.OverProbabilitiesOrdered | src/lib/models/poisson.ts:40-52 | over35 <= over25 <= over15 for non-negative tables |
| Poisson.ModelOverProbabilitiesOrdered | src/lib/models/poisson.ts:25-62 | the ordering holds for the model's own tables when the rates are non-negative and exp positive |
| Poisson.FillPmfTables | src/lib/models/poisson.ts:31-34 | the first loop leaves pHome and pAway equal to the pmf tables of the two rates |
| Poisson.AddRow | src/lib/models/poisson.ts:45-50 | the inner loop adds to each sum the row's joint mass above its line |
| Poisson.SumOverGrid | src/lib/models/poisson.ts:44-52 | the nested loops compute the grid's mass above 1.5, 2.5 and 3.5 |
| Poisson.CalculateProbabilities | src/lib/models/poisson.ts:25-63 | the result is the probabilities of the two rates' pmf tables |
| Poisson.ApplyBttsPenalty | src/lib/models/poisson.ts:65-89 | btts is the raw value times 0.90 when min λ < 0.90 and times 0.92 when the league average is below 1.15; btts_raw keeps the raw value and every other field is unchanged |
| Poisson.PenaltyOnlyLowers | src/lib/models/poisson.ts:75-83 | the penalty never raises a non-negative btts and is absent when neither condition holds |
| Poisson.CalculateProbabilitiesWithPenalty | src/lib/models/poisson.ts:65-89 | the result is the penalty applied to the model's probabilities |
| BettingService.SettlementPnl | src/lib/betting/service.ts:243-249 | WIN gives stake·(odds − 1), LOSS gives −stake, VOID and PUSH give 0 |
| BettingService.SettlementPnlAgreesWithKelly | src/lib/betting/service.ts:243-249 | on WIN, LOSS and VOID the service's PnL is the staking module's |
| BettingService.SettledStatus | src/lib/betting/service.ts:251 | a settled bet is never OPEN or PUSH: it is WON exactly on WIN, LOST exactly on LOSS, VOID exactly on VOID or PUSH |
| BettingService.AppendResult | src/lib/betting/service.ts:255 | the window grows by one up to 50, ends with the new result, and before it holds the newest of the old results in order |
| BettingService.WindowConventionsDiffer | src/lib/betting/service.ts:255 | after one settlement the newest result heads the staking module's window but ends the service's window |
| BettingService.SettledBankroll | src/lib/betting/service.ts:252-269 | the balance moves by the PnL; the peak becomes the larger of peak and balance; exposure becomes max(0, exposure − stake); the loss counter resets on WIN, grows on LOSS, stays otherwise; the result is appended; nothing else changes |
| BettingService.SettledRow | src/lib/betting/service.ts:273-283 | the row takes the settled status and the PnL, and nothing else of it changes |
| BettingService.MapBet | src/lib/betting/service.ts:308-336 | a zero or missing PnL or line reads back as absent, any other value as itself |
| BettingService.VoidSettlementReadsBackWithoutPnl | src/lib/betting/service.ts:244-251 | a VOID or PUSH settlement reads back as VOID with no PnL |
| BettingService.ChosenStake | src/lib/betting/service.ts:170 | the caller's stake, when given, wins over the recommendation |
| BettingService.StakeFraction | src/lib/betting/service.ts:190 | the fraction times a non-zero bankroll is the stake |
| BettingService.Settled | src/lib/betting/service.ts:99 | the settled bets are a subset of the bets and none is OPEN |
| BettingService.CountStatus | src/lib/betting/service.ts:102-104 | a status count is at most the number of bets |
| BettingService.SettledPartition | src/lib/betting/service.ts:102-105 | among settled bets the WON, LOST, VOID and PUSH counts add up to the number of bets |
| BettingService.MarketTallyKeys | src/lib/betting/service.ts:115-121 | the tally has an entry exactly for each market that occurs among the bets |
| BettingService.MarketTallyValues | src/lib/betting/service.ts:116-121 | a market's entry holds its total PnL with VOID and PUSH included, its wins, and its bets that are neither VOID nor PUSH |
| BettingService.WinsWithinCounted | src/lib/betting/service.ts:119-120 | no market shows more wins than counted bets |
| BettingService.WinRate | src/lib/betting/service.ts:107 | the win rate lies in [0, 100], is 0 with no decided bets, and otherwise is wins/(wins + losses) as a percentage |
| BettingService.YieldPct | src/lib/betting/service.ts:108 | the yield is pnl/stake as a percentage for a positive stake, 0 otherwise |
| BettingService.RoiScales | src/lib/betting/service.ts:112 | the ROI times the initial bankroll is the PnL as a percentage |
| BettingService.TallyMarkets | src/lib/betting/service.ts:115-121 | the loop builds the per-market tally of the settled bets |
| BettingService.Analyze | src/lib/betting/service.ts:99-142 | the analytics summarise the bets: the counts, sums and rates of the settled bets, with wins + losses + voids = settled, and the per-market tally |
| BettingService.SettledOverview | src/lib/betting/service.ts:100-135 | the overview block holds those counts, sums and rates |
| BettingService.Ledger.constructor | src/lib/betting/service.ts:37-56 | a new bankroll holds 1000 EUR with nothing at risk and today's day key, and there are no bets |
| BettingService.Ledger.SettleBet | src/lib/betting/service.ts:216-288 | a missing bet or one that is not OPEN is refused and nothing changes; otherwise exactly that row is settled and the bankroll is the settled bankroll, so a bet is settled at most once |
| BettingService.Ledger.PlaceBet | src/lib/betting/service.ts:154-214 | a non-positive chosen stake is refused and nothing changes; otherwise one OPEN row is appended and the stake is added to both exposure and today's risk, with no day-key rollover |
| BettingService.Ledger.UpdateBankroll | src/lib/betting/service.ts:61-85 | a non-positive amount is refused; otherwise initial, balance and peak become the amount, and exposure, loss streak and results are cleared, while the day key and today's risk stay |
| BettingService.Ledger.GetAnalytics | src/lib/betting/service.ts:87-143 | the analytics summarise the stored bets against the initial bankroll, and the store is not changed |
| SyncResults.OneXTwoExactlyOneWins | src/lib/jobs/syncResults.ts:42-46 | HOME wins exactly on a home lead, DRAW exactly on a level score, AWAY exactly on an away lead, so exactly one wins; no 1X2 selection pushes |
| SyncResults.BttsExactlyOneWins | src/lib/jobs/syncResults.ts:39-51 | YES wins exactly when both sides scored, NO exactly when not, so they never agree; BTTS never pushes |
| SyncResults.OverUnderRule | src/lib/jobs/syncResults.ts:53-58 | a total on the line pushes for any selection; otherwise OVER wins exactly above the line, UNDER exactly below it, and any other selection loses |
| SyncResults.HalfLinesNeverPush | src/lib/jobs/syncResults.ts:55 | for the lines 1.5, 2.5 and 3.5 no bet pushes |
| SyncResults.UnmatchedSettlesLost | src/lib/jobs/syncResults.ts:43-61 | an OU bet with no line, an unknown market, and an unrecognised 1X2 or BTTS selection all settle as lost |
| SyncResults.IsFinishedState | src/lib/jobs/syncResults.ts:26-29 | a fixture is finished exactly when its state id is 5, 7 or 8 |
| SyncResults.CurrentGoals | src/lib/jobs/syncResults.ts:10-24 | goals are found only when some entry is that side's CURRENT entry, and none are found when no entry is |
| SyncResults.FirstCurrentEntryDecides | src/lib/jobs/syncResults.ts:13-22 | the first CURRENT entry of a side decides its goals, even when it has none |
| SyncResults.SelectUnsettled | src/lib/jobs/syncResults.ts:74-92 | the selected rows are exactly the rows that are published, without outcome, and kicked off over two hours ago |
| SyncResults.FixtureIdsOf | src/lib/jobs/syncResults.ts:106 | one fixture id per prediction, in order |
| SyncResults.Batches | src/lib/jobs/syncResults.ts:110-113 | batch k is the ids from 50k up to 50k + 50 |
| SyncResults.BatchBounds | src/lib/jobs/syncResults.ts:112-113 | every batch holds between 1 and 50 ids and starts inside the list |
| SyncResults.BatchPrefix | src/lib/jobs/syncResults.ts:112-113 | the first k batches, joined, are the first min(50k, n) ids |
| SyncResults.BatchesCoverIds | src/lib/jobs/syncResults.ts:110-120 | the batches, joined in order, are exactly the ids, each batch holding 1 to 50 of them |
| SyncResults.RequestedIdsOnceEach | src/lib/jobs/syncResults.ts:106-120 | the requested ids are the distinct fixture ids: each once, every prediction's fixture among them, and the batches cover them exactly |
| SyncResults.FixtureMapHoldsLast | src/lib/jobs/syncResults.ts:122-125 | the map holds, for an id, the last fixture fetched with it |
| SyncResults.FixtureMapOnlyFetched | src/lib/jobs/syncResults.ts:122-125 | every map entry is a fetched fixture stored under its own id |
| SyncResults.Updates | src/lib/jobs/syncResults.ts:127-154 | no more fixtures are updated than were fetched |
| SyncResults.UpdatesSound | src/lib/jobs/syncResults.ts:127-154 | every fixture write is the CURRENT score of a fetched fixture that is finished, has both scores and whose write succeeded |
| SyncResults.UpdatesComplete | src/lib/jobs/syncResults.ts:127-154 | every fetched fixture that is finished, has both scores and whose write succeeds is written with those scores |
| SyncResults.Settlements | src/lib/jobs/syncResults.ts:156-194 | no more predictions are settled than were selected |
| SyncResults.SettlementsSound | src/lib/jobs/syncResults.ts:156-174 | every settlement belongs to a selected prediction whose fetched fixture is finished with both scores and whose write succeeded, and carries the rule's outcome |
| SyncResults.SettlementsComplete | src/lib/jobs/syncResults.ts:156-193 | a prediction whose fixture has a final score and whose write succeeds is settled with the rule's outcome |
| SyncResults.FetchInBatches | src/lib/jobs/syncResults.ts:109-120 | the loop collects the fixtures of the successful batches in order, and one error per failed batch |
| SyncResults.BuildFixtureMap | src/lib/jobs/syncResults.ts:122-125 | the loop builds the id-to-fixture map, the later fixture winning |
| SyncResults.UpdateFixtures | src/lib/jobs/syncResults.ts:127-154 | the loop writes the finished, scored fixtures whose writes succeed, counts them, and reports the failed writes |
| SyncResults.SettleAll | src/lib/jobs/syncResults.ts:156-194 | the loop writes the settlements, counts them, and reports the failed writes |
| SyncResults.SettleOne | src/lib/jobs/syncResults.ts:157-193 | one prediction is skipped, settled, or reported as a failed write |
| SyncResults.Sync | src/lib/jobs/syncResults.ts:65-197 | a failed query reports one error and does nothing else; otherwise the report holds the batch, update and settlement outcomes above, with fixturesUpdated at most the fetched fixtures and predictionsSettled at most the unsettled predictions |
| EngineModel.Recent | src/lib/engine/runPredictionEngine.ts:156 | the recent matches are the first min(n, 10) of the history |
| EngineModel.Outcomes | src/lib/engine/runPredictionEngine.ts:185-191 | one outcome per match, read from the team's side |
| EngineModel.GetElo | src/lib/engine/runPredictionEngine.ts:182-194 | the loop's rating is the fold of +20/+5/−15 steps over the first ten matches from 1500 |
| EngineModel.EloCounts | src/lib/engine/runPredictionEngine.ts:183-193 | the rating is 1500 + 20·wins + 5·draws − 15·losses |
| EngineModel.EloFoldBounds | src/lib/engine/runPredictionEngine.ts:183-193 | over n matches the rating stays within [1500 − 15n, 1500 + 20n] |
| EngineModel.EloInRange | src/lib/engine/runPredictionEngine.ts:182-194 | the rating lies in [1350, 1700] |
| EngineModel.ScoredPlusConceded | src/lib/engine/runPredictionEngine.ts:158-165 | whichever side the team played, its goals and the other side's add up to all goals of the matches |
| EngineModel.GetStats | src/lib/engine/runPredictionEngine.ts:155-167 | the loop's means are the goals scored and conceded over the last ten matches, divided by their number |
| EngineModel.SumsNonNegative | src/lib/engine/runPredictionEngine.ts:160-164 | with no negative goal counts both sums are non-negative |
| EngineModel.StatsNonNegative | src/lib/engine/runPredictionEngine.ts:155-167 | with no negative goal counts both means are non-negative |
| EngineModel.StatsSplitGoals | src/lib/engine/runPredictionEngine.ts:155-167 | the two means add up to the mean goals per match |
| EngineModel.StrengthDivisor | src/lib/engine/runPredictionEngine.ts:174-177 | the divisor is never 0 and is half the league average when that is not 0 |
| EngineModel.LineEvaluations | src/lib/engine/runPredictionEngine.ts:204-208 | two evaluations per line |
| EngineModel.BuildEvaluations | src/lib/engine/runPredictionEngine.ts:197-208 | the list is the five fixed entries, then an OVER/UNDER pair per line |
| EngineModel.LinePairs | src/lib/engine/runPredictionEngine.ts:204-208 | line k's pair sits at 2k and 2k + 1: OVER with that line's over probability, UNDER with its complement |
| EngineModel.EvaluationShape | src/lib/engine/runPredictionEngine.ts:195-208 | exactly eleven evaluations; the three 1X2 ones add up to 1; BTTS YES/NO and each line's OVER/UNDER add up to 1 |
| EngineModel.OverForLines | src/lib/engine/runPredictionEngine.ts:205 | lines 1.5, 2.5 and 3.5 read over15, over25 and over35 |
| EngineModel.MatchingAverages | src/lib/engine/runPredictionEngine.ts:214-225 | exactly the stored rows for this fixture, market, selection and line are read |
| EngineModel.Newest | src/lib/engine/runPredictionEngine.ts:223-229 | there is a newest row exactly when there is a row, and no row is more recent than it |
| EngineModel.AvgOddsFor | src/lib/engine/runPredictionEngine.ts:214-231 | the odds are 0 when no stored row matches; otherwise they are the odds of a matching row computed no earlier than any other matching row |
| EngineModel.OddsFor | src/lib/engine/runPredictionEngine.ts:213-231 | one odds value per evaluation |
| EngineModel.GateOrder | src/lib/engine/runPredictionEngine.ts:231-236 | MISSING_ODDS exactly for odds <= 0; LOW_ODDS exactly for odds in (0, 1.5); LOW_PROB exactly for odds >= 1.5 and p < 0.70; no block exactly for odds >= 1.5 and p >= 0.70 |
| EngineModel.ImpliedProbability | src/lib/engine/runPredictionEngine.ts:240 | positive odds give 1/odds, any other odds give 0 |
| EngineModel.PublishableImpliedProbability | src/lib/engine/runPredictionEngine.ts:257 | odds of at least 1.5 imply a probability in (0, 2/3] |
| EngineModel.RowOf | src/lib/engine/runPredictionEngine.ts:238-268 | a row carries the fixture, decision, reason, raw model probability, odds and implied probability |
| EngineModel.Gate | src/lib/engine/runPredictionEngine.ts:213-246 | every evaluation becomes a candidate or a row; every candidate passes all gates; every row is a BLOCK with a reason for this fixture |
| EngineModel.GateEligible | src/lib/engine/runPredictionEngine.ts:213-246 | some candidate passes exactly when some evaluation clears every gate |
| EngineModel.GateEvaluations | src/lib/engine/runPredictionEngine.ts:213-246 | the loop yields the gate's candidates and rows for the stored odds |
| EngineModel.GateReason | src/lib/engine/runPredictionEngine.ts:232-235 | the body tries the three gates in order |
| EngineModel.GatePrefix | src/lib/engine/runPredictionEngine.ts:213-246 | gating one evaluation more adds it as a candidate or a BLOCK row |
| EngineModel.BestIndex | src/lib/engine/runPredictionEngine.ts:249-254 | the winner's position is inside the list |
| EngineModel.WinnerUnbeaten | src/lib/engine/runPredictionEngine.ts:249-254 | where the comparator is transitive, no candidate sorts before the winner |
| EngineModel.SeparatedIsLexicographic | src/lib/engine/runPredictionEngine.ts:249-252 | on candidates whose probabilities are equal or over 0.001 apart, the order is by probability, then by odds |
| EngineModel.SeparatedWinnerIsBest | src/lib/engine/runPredictionEngine.ts:249-254 | on such candidates the winner has the highest probability, and the highest odds among those |
| EngineModel.ComparatorCycles | src/lib/engine/runPredictionEngine.ts:249-252 | the comparator is not transitive: three candidates each within 0.001 of the next, with falling odds, sort in a cycle |
| EngineModel.PickWinner | src/lib/engine/runPredictionEngine.ts:249-254 | the scan returns the winner's position |
| EngineModel.OtherRows | src/lib/engine/runPredictionEngine.ts:262-270 | every candidate but the winner gets a BLOCK / BETTER_PICK_EXISTS row for this fixture |
| EngineModel.PublishCountAppend | src/lib/engine/runPredictionEngine.ts:255-268 | PUBLISH rows add up over concatenation |
| EngineModel.NoPublishCounted | src/lib/engine/runPredictionEngine.ts:271-273 | rows that are all BLOCK hold no PUBLISH |
| EngineModel.DecideRowsFacts | src/lib/engine/runPredictionEngine.ts:248-273 | one row per evaluation, all for this fixture; the published counter equals the PUBLISH rows, is at most 1, and is 1 exactly when some evaluation clears every gate; the blocked counter adds what the code adds |
| EngineModel.WinnerRows | src/lib/engine/runPredictionEngine.ts:254-270 | the gate's rows, the winner's PUBLISH row and a BETTER_PICK_EXISTS row per other candidate give one PUBLISH row and a row per candidate |
| EngineModel.Decide | src/lib/engine/runPredictionEngine.ts:213-273 | the gate loop, the winner and the block loop build the fixture's rows and counter changes |
| EngineModel.BlockOthers | src/lib/engine/runPredictionEngine.ts:262-270 | the loop builds the BETTER_PICK_EXISTS rows of every candidate but the winner |
| EngineModel.DecideRowsSinglePublish | src/lib/engine/runPredictionEngine.ts:248-273 | a fixture's rows never hold two PUBLISH rows |
| EngineModel.InsufficientHistoryRow | src/lib/engine/runPredictionEngine.ts:134-144 | the row is a BLOCK for this fixture with reason INSUFFICIENT_HISTORY, market ALL, selection N/A and no line |
| Engine.Upcoming | src/lib/engine/runPredictionEngine.ts:32-42 | the kept fixtures are exactly the fetched ones kicking off in [now − 2h, now + 72h] |
| Engine.LocalMatches | src/lib/engine/runPredictionEngine.ts:47-68 | the local fixtures read all kick off inside the window |
| Engine.LocalQuery | src/lib/engine/runPredictionEngine.ts:47-56 | the fallback reads at most 100 fixtures, all inside the window |
| Engine.FixturesToProcess | src/lib/engine/runPredictionEngine.ts:25-71 | every fixture to process kicks off inside the window |
| Engine.FallbackOnlyWhenEmpty | src/lib/engine/runPredictionEngine.ts:44-71 | the local table is used only when no fetched fixture is in the window, and a failed local query leaves the fetched list |
| Engine.Capped | src/lib/engine/runPredictionEngine.ts:75-76 | the processed list is the first min(n, 100) fixtures |
| Engine.FindTeam | src/lib/engine/runPredictionEngine.ts:93-94 | a found team is a participant at that location or with the fixture's team id, the first such participant, and none is found only when no participant is either |
| Engine.Replaced | src/lib/engine/runPredictionEngine.ts:128-132 | exactly the fixture's PUBLISH rows become BLOCK / REPLACED_BY_NEW_RUN; every other row is kept |
| Engine.DecidedFixtureRows | src/lib/engine/runPredictionEngine.ts:195-273 | an evaluated fixture gets eleven rows, all for it, at most one PUBLISH, with the published counter equal to the PUBLISH rows |
| Engine.ReplacedWithdraws | src/lib/engine/runPredictionEngine.ts:275-280 | withdrawing leaves the fixture no PUBLISH row and keeps at most one per fixture |
| Engine.AppendKeepsOnePublish | src/lib/engine/runPredictionEngine.ts:275-283 | inserting one fixture's rows, with at most one PUBLISH, after withdrawing keeps at most one PUBLISH per fixture |
| Engine.StepKeepsOnePublish | src/lib/engine/runPredictionEngine.ts:89-288 | no fixture step leaves a fixture with two PUBLISH rows |
| Engine.RunFoldKeepsOnePublish | src/lib/engine/runPredictionEngine.ts:89-288 | the whole fixture loop keeps at most one PUBLISH row per fixture |
| Engine.StepCounters | src/lib/engine/runPredictionEngine.ts:96-101 | a step leaves fixtures_found alone, processes at most one fixture, and publishes only for a fixture it processed |
| Engine.RunFoldCounters | src/lib/engine/runPredictionEngine.ts:89-288 | over the loop, processed grows by at most the number of fixtures and published by at most processed |
| Engine.RunFacts | src/lib/engine/runPredictionEngine.ts:73-101 | the run keeps one PUBLISH per fixture, records fixtures_found before the cap, and has published <= processed <= 100 |
| Engine.NoHistoryBlocksFixture | src/lib/engine/runPredictionEngine.ts:127-147 | a fixture whose teams lack ten matches gets exactly one INSUFFICIENT_HISTORY row and keeps no PUBLISH row |
| Engine.PredictionStore.constructor | src/lib/engine/runPredictionEngine.ts:128-144 | the store starts with the given rows |
| Engine.PredictionStore.ReplacePublished | src/lib/engine/runPredictionEngine.ts:128-132 | the update withdraws exactly the fixture's PUBLISH rows |
| Engine.PredictionStore.Insert | src/lib/engine/runPredictionEngine.ts:134-144 | the insert appends the rows |
| Engine.ProcessFixture | src/lib/engine/runPredictionEngine.ts:90-287 | the loop body does the fixture's step and applies it to the table |
| Engine.ProcessFixtures | src/lib/engine/runPredictionEngine.ts:89-288 | the loop yields the fold of the steps over the fixtures |
| Engine.RunPredictionEngine | src/lib/engine/runPredictionEngine.ts:12-320 | the run is the fold over the capped fixtures; it keeps one PUBLISH per fixture, counts fixtures_found before the cap, and has published <= processed <= 100 |
| OddsAverages.Query | src/lib/jobs/computeOddsAverages.ts:9-13 | the query returns only points of the fixture, from one of the five whitelisted bookmakers, dated at or after the window start; every stored point meeting those conditions is returned |
| OddsAverages.GroupPoints | src/lib/jobs/computeOddsAverages.ts:28 | a group sees exactly the SportMonks points of its market and line; whitelisting is kept |
| OddsAverages.SelectionPoints | src/lib/jobs/computeOddsAverages.ts:34 | a selection sees exactly the group's points carrying its label |
| OddsAverages.LatestFoldVotes | src/lib/jobs/computeOddsAverages.ts:42-48 | as written, exactly the bookmakers with a point get a vote, and each vote is the price of one of that bookmaker's own points |
| OddsAverages.LatestFoldMissesLatest | src/lib/jobs/computeOddsAverages.ts:45 | as written, a bookmaker priced 2.0 at t=1 and t=4 and 3.0 at t=3 votes 3.0, although its latest point is priced 2.0 |
| OddsAverages.LatestPointIsLatest | src/lib/jobs/computeOddsAverages.ts:41-48 | the intended vote: each bookmaker with a point keeps one of its own points, and none of its points is later |
| OddsAverages.FindTsOf | src/lib/jobs/computeOddsAverages.ts:45 | when each price of a bookmaker occurs at one time only, the lookup of a held price returns that point's time |
| OddsAverages.LatestFoldAgrees | src/lib/jobs/computeOddsAverages.ts:41-48 | when no price repeats at another time and no price is 0, the code's vote equals the latest point's price for every bookmaker |
| OddsAverages.LatestByBookmaker | src/lib/jobs/computeOddsAverages.ts:41 | the corrected loop keeps each bookmaker's latest point, as the comment states |
| OddsAverages.LatestByBookmakerAsWritten | src/lib/jobs/computeOddsAverages.ts:42-48 | the loop as written computes the code's vote: a held price is replaced when the bookmaker has no price, a zero price, or a point later than the first point carrying the held price |
| OddsAverages.OddsInOrderCount | src/lib/jobs/computeOddsAverages.ts:50 | over distinct keys, the values listed number the keys that have a vote |
| OddsAverages.BookmakerOddsCount | src/lib/jobs/computeOddsAverages.ts:50 | with whitelisted votes only, `Object.values` yields one price per voting bookmaker |
| OddsAverages.RowFromVotes | src/lib/jobs/computeOddsAverages.ts:50-67 | a row counts the votes of the whitelisted bookmakers, its average is their average, it lies strictly between 1.01 and 100 and it counts at least one bookmaker |
| OddsAverages.SelectionRow | src/lib/jobs/computeOddsAverages.ts:34-67 | with the corrected vote, a selection has a row only when it has a point; its average lies strictly between 1.01 and 100 and it counts at least one bookmaker |
| OddsAverages.SelectionRowAsWritten | src/lib/jobs/computeOddsAverages.ts:34-67 | with the code's vote, a selection has a row only when it has a point; its average lies strictly between 1.01 and 100 and it counts at least one bookmaker |
| OddsAverages.SelectionRowAgrees | src/lib/jobs/computeOddsAverages.ts:41-48 | when no price of a bookmaker recurs at another time and no price is 0, the code's row and the corrected row are equal |
| OddsAverages.SelectionRowsDiverge | src/lib/jobs/computeOddsAverages.ts:45 | on the points of the finding, the code's row averages 3.0 and the corrected row 2.0 |
| OddsAverages.CountIsDistinctBookmakers | src/lib/jobs/computeOddsAverages.ts:60 | `count_points` is the number of distinct bookmakers priced for the selection |
| OddsAverages.CollectAllOrNothing | src/lib/jobs/computeOddsAverages.ts:31-39 | the selections' rows are collected exactly when every selection has one, and then in order |
| OddsAverages.CollectStep | src/lib/jobs/computeOddsAverages.ts:54-63 | one more present row extends the collected rows by that row |
| OddsAverages.CollectAbsentExtends | src/lib/jobs/computeOddsAverages.ts:36-39 | one absent row makes the whole group absent, whatever follows |
| OddsAverages.SelectionRows | src/lib/jobs/computeOddsAverages.ts:33 | one candidate row per selection of the group, in the group's order |
| OddsAverages.GroupAllOrNothing | src/lib/jobs/computeOddsAverages.ts:30-72 | a market group yields rows exactly when every one of its selections has a row, and then those rows in order |
| OddsAverages.AllRowsBounded | src/lib/jobs/computeOddsAverages.ts:26-73 | the groups yield no more rows than they have selections |
| OddsAverages.AtMostElevenRows | src/lib/jobs/computeOddsAverages.ts:20-24 | a fixture yields at most 11 rows: three 1X2, two BTTS and two for each of three over/under lines |
| OddsAverages.AllRowsFacts | src/lib/jobs/computeOddsAverages.ts:53-63 | every emitted row has a plausible average, at least one bookmaker, the fixture's id, the window end and the SportMonks source |
| OddsAverages.SelectionAverage | src/lib/jobs/computeOddsAverages.ts:34-67 | the selection loop's body yields the selection's row, with the corrected vote |
| OddsAverages.GroupAverages | src/lib/jobs/computeOddsAverages.ts:28-72 | the loop over a group's selections, leaving at the first failure, yields the group's rows or none, with the corrected vote |
| OddsAverages.MarketAverages | src/lib/jobs/computeOddsAverages.ts:26-73 | the loop over the groups concatenates the complete groups' rows, in order, with the corrected vote |
| OddsAverages.ComputeOddsAveragesForFixture | src/lib/jobs/computeOddsAverages.ts:5-82 | the job returns the averages of the recent points, with the corrected vote; it writes exactly when it has at least one row |
| OddsAverages.AveragesForFacts | src/lib/jobs/computeOddsAverages.ts:15-24 | the result is absent exactly when the query fails or finds nothing; otherwise it holds at most 11 rows, each with the facts above |
| NormalizeOdds.MarketText | src/lib/odds/normalizeOdds.ts:2 | the normalised text has the raw text's length |
| NormalizeOdds.NormalizeMarket | src/lib/odds/normalizeOdds.ts:1-7 | the result, when present, is one of 1X2, BTTS and OU |
| NormalizeOdds.MarketClassification | src/lib/odds/normalizeOdds.ts:3-6 | each market is returned exactly when its keyword family matches and no earlier family does; no market exactly when none matches |
| NormalizeOdds.MarketTextIdempotent | src/lib/odds/normalizeOdds.ts:2 | normalising the text twice gives the once-normalised text and the same market |
| NormalizeOdds.MarketTextFixed | src/lib/odds/normalizeOdds.ts:2 | the normalised text is a fixed point of normalisation |
| NormalizeOdds.NormalCharFixed | src/lib/odds/normalizeOdds.ts:2 | a lower-cased, separator-free character is left unchanged |
| NormalizeOdds.OneXTwoTakesPrecedence | src/lib/odds/normalizeOdds.ts:3-5 | a name matching both 1X2 and over/under keywords is 1X2 |
| NormalizeOdds.DoubleChanceReadsAsOverUnder | src/lib/odds/normalizeOdds.ts:3-5 | "Double Chance" contains "ou" and is read as an over/under market |
| NormalizeOdds.DoubleChanceText | src/lib/odds/normalizeOdds.ts:3-5 | the text "double chance" matches no 1X2 or BTTS keyword and is classed over/under |
| NormalizeOdds.DoubleChanceNot1x2 | src/lib/odds/normalizeOdds.ts:3 | "double chance" contains neither "1x2" nor "h2h" |
| NormalizeOdds.DoubleChanceNotMoneyline | src/lib/odds/normalizeOdds.ts:3 | "double chance" contains neither "moneyline" nor "fulltime result" |
| NormalizeOdds.DoubleChanceNotBtts | src/lib/odds/normalizeOdds.ts:4 | "double chance" contains neither BTTS keyword |
| NormalizeOdds.MatchWinnerWithSeparator | src/lib/odds/normalizeOdds.ts:2-3 | separators become spaces, so "Match-Winner" is the exact 1X2 name "match winner" |
| NormalizeOdds.MarketFromText | src/lib/odds/normalizeOdds.ts:1-7 | the market depends on the raw name only through its normalised text |
| NormalizeOdds.MarketTextExample | src/lib/odds/normalizeOdds.ts:2 | a concrete name normalises character by character |
| NormalizeOdds.NormalizeSelection | src/lib/odds/normalizeOdds.ts:9-32 | a label maps into its own market's selections, and any other market gives none; SelectionClassification states the label table |
| NormalizeOdds.SelectionClassification | src/lib/odds/normalizeOdds.ts:13-31 | on the trimmed, lower-cased label: home/h/1 is HOME, draw/d/x DRAW, away/a/2 AWAY, and every other 1X2 label none; yes/y/1 is YES, no/n/0 NO, and every other BTTS label none; a label containing "over" or equal to "o" is OVER, else one containing "under" or equal to "u" is UNDER, else none |
| Strings.ToLower | src/lib/odds/normalizeOdds.ts:13 | the same length, each ASCII capital lowered and every other character kept |
| Strings.Trim | src/lib/odds/normalizeOdds.ts:13 | the result is no longer than the text and neither starts nor ends with white space; TrimIsSlice states what is removed |
| Strings.TrimIsSlice | src/lib/odds/normalizeOdds.ts:13 | the trimmed text is the slice of the text after its leading white space, and everything removed before and after it is white space |
| NormalizeOdds.UnpaddedSelectionText | src/lib/odds/normalizeOdds.ts:13 | a label without surrounding white space is only lower-cased |
| NormalizeOdds.SelectionFromLower | src/lib/odds/normalizeOdds.ts:13-31 | an unpadded label is read through its lower-cased text |
| NormalizeOdds.HomeExample | src/lib/odds/normalizeOdds.ts:16 | "Home" is the home side |
| NormalizeOdds.DrawExample | src/lib/odds/normalizeOdds.ts:17 | "X" is the draw |
| NormalizeOdds.NoExample | src/lib/odds/normalizeOdds.ts:23 | "N" is a BTTS no |
| NormalizeOdds.LowerExample | src/lib/odds/normalizeOdds.ts:13 | a concrete label lower-cases character by character |
| NormalizeOdds.SelectionIgnoresPadding | src/lib/odds/normalizeOdds.ts:13 | a space on either side of a label does not change its selection |
| NormalizeOdds.OneMeansHomeOrYes | src/lib/odds/normalizeOdds.ts:16-22 | "1" is HOME in 1X2 and YES in BTTS |
| NormalizeOdds.OverCheckedBeforeUnder | src/lib/odds/normalizeOdds.ts:27-28 | any over/under label containing "over" is OVER, even if it also contains "under" |
| NormalizeOdds.UnderWithoutOver | src/lib/odds/normalizeOdds.ts:27-28 | a label containing "under" but not "over" is UNDER |
| NormalizeOdds.OverExample | src/lib/odds/normalizeOdds.ts:27 | "Over 2.5" is OVER |
| NormalizeOdds.OverText | src/lib/odds/normalizeOdds.ts:27 | the text "over 2.5" is OVER |
| NormalizeOdds.UnderExample | src/lib/odds/normalizeOdds.ts:28 | "Under 2.5" is UNDER |
| NormalizeOdds.UnderText | src/lib/odds/normalizeOdds.ts:27-28 | the text "under 2.5" contains no "over" and is UNDER |
| NormalizeOdds.NormalizeLine | src/lib/odds/normalizeOdds.ts:34-39 | null, undefined and "" give no line; a number or a text gives a line exactly when it converts to a finite number, and then that number |
| NormalizeOdds.NormalizeLineIdempotent | src/lib/odds/normalizeOdds.ts:34-39 | a normalised line, passed in again as a number, comes back unchanged |
| NormalizeOdds.FilterOdds | src/lib/odds/normalizeOdds.ts:42 | the filtered odds are no more than the input, each strictly between 1.01 and 100 |
| NormalizeOdds.FilterKeepsPlausible | src/lib/odds/normalizeOdds.ts:42 | a value survives the filter exactly when it is in the input and in range |
| NormalizeOdds.FilterMultiplicity | src/lib/odds/normalizeOdds.ts:42 | the filter keeps every copy of an in-range value and no copy of another |
| NormalizeOdds.FilterAppendIgnored | src/lib/odds/normalizeOdds.ts:42 | an out-of-range value appended leaves the filtered odds unchanged |
| NormalizeOdds.CalculateAverageOdds | src/lib/odds/normalizeOdds.ts:41-46 | the average is absent exactly when no odds value is in range, and otherwise lies strictly between 1.01 and 100 |
| NormalizeOdds.SumBounds | src/lib/odds/normalizeOdds.ts:44 | strict bounds on every summand bound the sum strictly |
| NormalizeOdds.SumWeakBounds | src/lib/odds/normalizeOdds.ts:44 | bounds on every summand bound the sum |
| NormalizeOdds.MeanBounds | src/lib/odds/normalizeOdds.ts:45 | strict bounds on a sum of n bound its mean strictly |
| NormalizeOdds.WeakMeanBounds | src/lib/odds/normalizeOdds.ts:45 | bounds on a sum of n bound its mean |
| NormalizeOdds.FilteredWithin | src/lib/odds/normalizeOdds.ts:42 | bounds holding for the in-range inputs hold for the filtered odds |
| NormalizeOdds.MeanOfBounded | src/lib/odds/normalizeOdds.ts:44-45 | the mean of bounded values lies within the bounds |
| NormalizeOdds.AverageWithinEntries | src/lib/odds/normalizeOdds.ts:41-46 | the average lies between any bounds that hold for every in-range odds value |
| NormalizeOdds.AverageOfEqualOdds | src/lib/odds/normalizeOdds.ts:41-46 | equal in-range odds average to that value |
| NormalizeOdds.AverageOrderIndependent | src/lib/odds/normalizeOdds.ts:41-46 | the average does not depend on the order of the odds |
| NormalizeOdds.OutOfRangeIgnored | src/lib/odds/normalizeOdds.ts:42-46 | odds of 1.01 or less, or of 100 or more, do not change the average |
| SportmonksOdds.OrElse | src/lib/clients/sportmonksOdds.ts:33 | JavaScript's or-operator on optional texts: the result is truthy exactly when one operand is, and is the first when that is truthy |
| SportmonksOdds.OverUnderLine | src/lib/clients/sportmonksOdds.ts:42-49 | a given total or handicap always fixes the line (a number or NaN), so the label is not consulted |
| SportmonksOdds.ToPoint | src/lib/clients/sportmonksOdds.ts:26-67 | a kept record has a whitelisted bookmaker and a target market; its point carries the normalised market and selection, a supported line for over/under only, the parsed odds above 1.01, the fixture, the read time and the SportMonks source |
| SportmonksOdds.AcceptedWhenAllChecksPass | src/lib/clients/sportmonksOdds.ts:26-67 | conversely, a record that passes every check is kept |
| SportmonksOdds.UnparsableTotalDropsRecord | src/lib/clients/sportmonksOdds.ts:42-52 | a total that does not parse leaves the line NaN, and the record is dropped |
| SportmonksOdds.LabelSuppliesMissingLine | src/lib/clients/sportmonksOdds.ts:45-49 | without total and handicap, the first number of the label gives the line |
| SportmonksOdds.PointsOf | src/lib/clients/sportmonksOdds.ts:25-68 | a fixture's records yield at most one point each |
| SportmonksOdds.FixtureParts | src/lib/clients/sportmonksOdds.ts:15-73 | one part per fixture, each the points of that fixture's response stamped with its own time |
| SportmonksOdds.FetchRangeStep | src/lib/clients/sportmonksOdds.ts:15-73 | fetching one more fixture appends exactly its points |
| SportmonksOdds.GetSportmonksOddsForFixtures | src/lib/clients/sportmonksOdds.ts:8-76 | the fetch loop returns the points of every fixture, fixture by fixture, in order |
| SportmonksOdds.FixtureOdds | src/lib/clients/sportmonksOdds.ts:22-68 | the inner loop returns the points of one fixture's records, in order |
| SportmonksOdds.PointsOfWellFormed | src/lib/clients/sportmonksOdds.ts:25-68 | every point of a fixture's records is well formed for that fixture and time |
| SportmonksOdds.FetchedPointsWellFormed | src/lib/clients/sportmonksOdds.ts:15-73 | every fetched point is well formed for the fixture it was fetched for, with that fixture's time |
| SportmonksOdds.FixtureWellFormed | src/lib/clients/sportmonksOdds.ts:18-68 | one fixture's points are well formed for it |
| SportmonksOdds.FetchRangeSplit | src/lib/clients/sportmonksOdds.ts:15-73 | the points of a range of fixtures are those of its two halves, concatenated |
| SportmonksOdds.FailedFixtureEmpty | src/lib/clients/sportmonksOdds.ts:70-72 | a failed request contributes no point |
| SportmonksOdds.FailedFixtureSkipped | src/lib/clients/sportmonksOdds.ts:15-73 | a failing fixture contributes no point and the fixtures after it are still fetched |
| SyncOdds.KeyInKeys | src/lib/odds/syncOdds.ts:24-27 | every point's key is among the keys seen |
| SyncOdds.KeyNotInKeys | src/lib/odds/syncOdds.ts:24-27 | a key no point has is not among the keys seen |
| SyncOdds.DeduplicatePoints | src/lib/odds/syncOdds.ts:20-30 | the filter with a `seen` set keeps each point whose key no earlier point has |
| SyncOdds.DedupKeepsEveryKey | src/lib/odds/syncOdds.ts:20-30 | the output has exactly the input's keys |
| SyncOdds.DedupUniqueKeys | src/lib/odds/syncOdds.ts:26-28 | no two output points share a key |
| SyncOdds.DedupOfUnique | src/lib/odds/syncOdds.ts:20-30 | points with pairwise distinct keys pass through unchanged |
| SyncOdds.UniquePrefix | src/lib/odds/syncOdds.ts:20-30 | distinct keys stay distinct in a prefix |
| SyncOdds.DedupIdempotent | src/lib/odds/syncOdds.ts:20-30 | de-duplicating twice changes nothing |
| SyncOdds.DedupIsFirstOccurrenceSubsequence | src/lib/odds/syncOdds.ts:22-29 | the output is the input at increasing positions, each the first position of its key |
| SyncOdds.SameKeyKeepsFirst | src/lib/odds/syncOdds.ts:25-26 | of two points with one key, whatever their prices, the first is kept |
| SyncOdds.AbsentBookmakersShareKey | src/lib/odds/syncOdds.ts:24 | a null and an undefined bookmaker are one key component, so two prices of a bookmakerless offer collapse to the first |

## Left out

- The Kelly configuration is a parameter. `DEFAULT_KELLY_CONFIG` is imported from `src/lib/betting/types.ts`, which does not define it; `Kelly.DefaultKellyConfig` holds the values the Kelly tests rely on (0.20, 0.015, 0.05, 0.08).
- Kelly.ComputeStakeDecision: the caps bound the stake before rounding only. The contract states the stake as the rounded capped stake, so after whole-unit rounding it may exceed the per-bet cap by up to 0.5 (a bankroll of 1040 gives 16 against a cap of 15.6), as the code computes.
- JavaScript number semantics are not modelled: NaN, infinities, floating-point rounding and `toFixed`. Money, odds and probabilities are exact reals.
- `Math.exp` and `Math.pow(10, x)` are function parameters. Each lemma states, as a `requires`, only the laws it uses: positivity, the reciprocal law for `10^-x`, monotonicity.
- `Number`, `parseFloat` and the first-number regular expression of the odds client are function parameters; the model does not fix how they parse.
- Strings.ToLower and Strings.Trim: lower-casing and trimming cover ASCII letters and ASCII white space only. JavaScript's full Unicode case mapping and white-space set are not modelled.
- The ledger settles a PUSH result as status VOID with zero PnL, and appends the raw result text to the history, as `service.ts` does.
- Database reads, writes, upserts and transactions are not modelled. The ledger is a class over one bankroll and a list of bet rows; every other job works on lists passed in, and a failed query or write is an explicit parameter.
- `getOrCreateBankroll` and the user lookup are not part of this model: the ledger holds a single user's bankroll.
- `getAnalytics` reads bets ordered by settlement time; the model takes the rows in store order. The `history` series it also returns is not modelled; the totals, win rate, yield and per-market tallies are.
- The engine's team, league and fixture upserts (`runPredictionEngine.ts:103-119`) are not modelled. The result sync's fixture update and settlement writes are, each with its own failure parameter.
- SyncResults.FixtureMap: a plain map from fixture id to fetched fixture, without a contract of its own; its use is covered by SettlementsSound and SettlementsComplete.
- SyncResults.Updates: its contract states only the length bound; UpdatesSound and UpdatesComplete state which fixtures are written and with what score.
- SyncResults.Settlements: its contract states only the length bound; SettlementsSound and SettlementsComplete state which predictions are settled and with what outcome.
- SyncOdds.Keys: a helper without a contract; KeyInKeys and KeyNotInKeys state what it holds.
- The de-duplication key is a tuple. The source joins the components into one text with `-`; distinct tuples whose texts coincide (a market name containing `-`, say) are not modelled as colliding.
- The odds client reads the clock once per fixture; the model takes that time as `clock(k)` for the k-th fixture.
- The network client `src/lib/clients/sportmonks.ts` is not part of this model; the odds request is a function parameter that may fail.
- `syncOddsPoints72h` and `syncOddsPointsForFixture` are I/O loops around the client, the de-duplication and the upsert, and are not modelled.
- Inside the engine, the calls to the odds sync and to the averages job are not modelled; the engine reads the stored averages table, which is part of its inputs.
- The engine's per-fixture error handling (`try`/`catch`, the error counter) and the `engine_cycles` row updates are not modelled, nor is logging.
- The two history queries of the engine run concurrently in the source (`Promise.all`); the model runs them in sequence.
- The match-history lookup finds a team's side through its participant entry; the model takes the home participant's id as a field of each history match.
- EngineModel.PickWinner: the in-place `sort` of the eligible candidates is modelled by a scan with the same comparator. The comparator is not transitive (see `EngineModel.ComparatorCycles`), so where it cycles the source's winner depends on the sort algorithm; the model proves the scan picks a greatest candidate whenever the comparator is transitive on the candidates.
- EngineModel.OtherRows: the BETTER_PICK_EXISTS rows are emitted in evaluation order; the source inserts them in its sorted order, which is not modelled.
- OddsAverages.LatestByBookmaker: keeps each bookmaker's latest point, the intent of line 41, not the vote line 45 computes. The code's loop is `OddsAverages.LatestByBookmakerAsWritten`.
- OddsAverages.SelectionRow: uses the corrected vote. The code's row is `OddsAverages.SelectionRowAsWritten`; `SelectionRowAgrees` proves the two equal when no price of a bookmaker recurs at another time and no price is 0, and `SelectionRowsDiverge` shows 3.0 against 2.0 otherwise.
- OddsAverages.SelectionAverage: the selection loop uses the corrected vote, so it agrees with the code under the conditions of `SelectionRowAgrees` only.
- OddsAverages.GroupAverages: built from the corrected selection rows; agreement with the code is proved per selection row, not lifted to the group.
- OddsAverages.MarketAverages: built from the corrected selection rows; agreement with the code is proved per selection row, not lifted to the market.
- OddsAverages.ComputeOddsAveragesForFixture: the job uses the corrected vote; agreement with the code is proved per selection row, not lifted to the job.
- EngineModel.Newest: of rows computed at the same time, the model takes the first in table order; the source's order among ties is whatever the database returns.
- EngineModel.GetStats: requires a non-empty history. The engine calls it only after its ten-match check; on an empty history the source's division by zero would give NaN.
- The engine's team histories, league averages and stored odds averages are functions of the team, league and fixture id. The averages query keeps the ten most recent matching rows before taking the newest; the model takes the newest of all matching rows, which is the same row.
- The user interface, routes, cron authentication, tests and scripts are not part of this model.

## Findings

| source | as written | input that shows it | evidently intended | confidence | as-written member | corrected member |
|---|---|---|---|---|---|---|
| src/lib/jobs/computeOddsAverages.ts:41-48 | the price a bookmaker already holds is dated by the first of its points with that price, so an older different price can replace a newer repeat of the held one | one bookmaker priced 2.0 at t=1, 2.0 at t=4 and 3.0 at t=3: the vote is 3.0, while the latest point is priced 2.0 | each bookmaker votes with the price of its latest point, as the comment on line 41 says | not executed | OddsAverages.LatestFoldMissesLatest | OddsAverages.LatestPointIsLatest |
