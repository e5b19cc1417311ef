/**
 * The in-memory parts of one engine run for one fixture: team form from the
 * last ten matches, the eleven market evaluations, the block gates and the
 * choice of the single published pick.
 */
module EngineModel {
  import opened Common
  import opened Markets
  import Elo
  import Poisson

  // --------------------------------------------------------------- team form

  /**
   * One past match of a team: the id of the side listed at home (absent when
   * no participant is marked home) and the CURRENT goals of each side.
   */
  datatype HistoryMatch = HistoryMatch(homeId: Option<int>, homeGoals: Option<int>, awayGoals: Option<int>)

  /** `hist.slice(0, 10)`. */
  function Recent(hist: seq<HistoryMatch>): (r: seq<HistoryMatch>)
    ensures |r| == MinNat(|hist|, HistoryMatches) && r == hist[..|r|]
  {
    hist[..MinNat(|hist|, HistoryMatches)]
  }

  predicate IsHome(h: HistoryMatch, teamId: int) {
    h.homeId == Some(teamId)
  }

  datatype Outcome = Won | Drawn | Lost

  /**
   * The team won when its side scored more; otherwise equal goals are a draw.
   * A team not found at home is read as the away side.
   */
  function OutcomeFor(h: HistoryMatch, teamId: int): Outcome {
    var hG := h.homeGoals.GetOr(0);
    var aG := h.awayGoals.GetOr(0);
    var isH := IsHome(h, teamId);
    if (isH && hG > aG) || (!isH && aG > hG) then Won
    else if hG == aG then Drawn
    else Lost
  }

  function EloStep(o: Outcome): int {
    match o
    case Won => 20
    case Drawn => 5
    case Lost => -15
  }

  const BaseElo: int := 1500

  /** The rating after the matches `s`, starting from 1500. */
  function EloFold(s: seq<HistoryMatch>, teamId: int): int {
    if s == [] then BaseElo else EloFold(s[..|s| - 1], teamId) + EloStep(OutcomeFor(s[|s| - 1], teamId))
  }

  function Outcomes(s: seq<HistoryMatch>, teamId: int): (r: seq<Outcome>)
    ensures |r| == |s|
    ensures forall i :: 0 <= i < |s| ==> r[i] == OutcomeFor(s[i], teamId)
  {
    if s == [] then [] else Outcomes(s[..|s| - 1], teamId) + [OutcomeFor(s[|s| - 1], teamId)]
  }

  /** The `forEach` of `getElo`. */
  method GetElo(hist: seq<HistoryMatch>, teamId: int) returns (elo: int)
    ensures elo == EloFold(Recent(hist), teamId)
  {
    var recent := Recent(hist);
    elo := BaseElo;
    for i := 0 to |recent|
      invariant elo == EloFold(recent[..i], teamId)
    {
      assert recent[..i + 1][..i] == recent[..i];
      var h := recent[i];
      var hG := h.homeGoals.GetOr(0);
      var aG := h.awayGoals.GetOr(0);
      var isH := h.homeId == Some(teamId);
      if (isH && hG > aG) || (!isH && aG > hG) {
        elo := elo + 20;
      } else if hG == aG {
        elo := elo + 5;
      } else {
        elo := elo - 15;
      }
    }
    assert recent[..|recent|] == recent;
  }

  /** The rating is 1500 + 20 per win + 5 per draw - 15 per loss. */
  lemma {:induction false} EloCounts(s: seq<HistoryMatch>, teamId: int)
    ensures var os := Outcomes(s, teamId);
      EloFold(s, teamId) == BaseElo + 20 * Count(os, Won) + 5 * Count(os, Drawn) - 15 * Count(os, Lost)
  {
    if s != [] {
      var init := s[..|s| - 1];
      EloCounts(init, teamId);
      var o := OutcomeFor(s[|s| - 1], teamId);
      assert Outcomes(s, teamId) == Outcomes(init, teamId) + [o];
      CountAppend(Outcomes(init, teamId), [o], Won);
      CountAppend(Outcomes(init, teamId), [o], Drawn);
      CountAppend(Outcomes(init, teamId), [o], Lost);
    }
  }

  lemma {:induction false} EloFoldBounds(s: seq<HistoryMatch>, teamId: int)
    ensures BaseElo - 15 * |s| <= EloFold(s, teamId) <= BaseElo + 20 * |s|
  {
    if s != [] {
      EloFoldBounds(s[..|s| - 1], teamId);
    }
  }

  /** Over at most ten matches the rating stays within [1350, 1700]. */
  lemma EloInRange(hist: seq<HistoryMatch>, teamId: int)
    ensures 1350 <= EloFold(Recent(hist), teamId) <= 1700
  {
    EloFoldBounds(Recent(hist), teamId);
  }

  /** The goals of the team's side and of the other side. */
  function GoalsFor(h: HistoryMatch, teamId: int): int {
    if IsHome(h, teamId) then h.homeGoals.GetOr(0) else h.awayGoals.GetOr(0)
  }

  function GoalsAgainst(h: HistoryMatch, teamId: int): int {
    if IsHome(h, teamId) then h.awayGoals.GetOr(0) else h.homeGoals.GetOr(0)
  }

  function ScoredSum(s: seq<HistoryMatch>, teamId: int): int {
    if s == [] then 0 else ScoredSum(s[..|s| - 1], teamId) + GoalsFor(s[|s| - 1], teamId)
  }

  function ConcededSum(s: seq<HistoryMatch>, teamId: int): int {
    if s == [] then 0 else ConcededSum(s[..|s| - 1], teamId) + GoalsAgainst(s[|s| - 1], teamId)
  }

  function MatchGoals(s: seq<HistoryMatch>): int {
    if s == [] then 0 else MatchGoals(s[..|s| - 1]) + s[|s| - 1].homeGoals.GetOr(0) + s[|s| - 1].awayGoals.GetOr(0)
  }

  /** Whatever side the team played, its goals and the other side's make up all goals scored. */
  lemma {:induction false} ScoredPlusConceded(s: seq<HistoryMatch>, teamId: int)
    ensures ScoredSum(s, teamId) + ConcededSum(s, teamId) == MatchGoals(s)
  {
    if s != [] {
      ScoredPlusConceded(s[..|s| - 1], teamId);
    }
  }

  datatype TeamStats = TeamStats(scored: real, conceded: real)

  /** Mean goals scored and conceded per match over the last ten. */
  function Stats(hist: seq<HistoryMatch>, teamId: int): TeamStats
    requires hist != []
  {
    var recent := Recent(hist);
    TeamStats(ScoredSum(recent, teamId) as real / |recent| as real,
              ConcededSum(recent, teamId) as real / |recent| as real)
  }

  /** The `forEach` of `getStats`. */
  method GetStats(hist: seq<HistoryMatch>, teamId: int) returns (st: TeamStats)
    requires hist != []
    ensures st == Stats(hist, teamId)
  {
    var recent := Recent(hist);
    var s, c := 0, 0;
    for i := 0 to |recent|
      invariant s == ScoredSum(recent[..i], teamId) && c == ConcededSum(recent[..i], teamId)
    {
      assert recent[..i + 1][..i] == recent[..i];
      var h := recent[i];
      var hG := h.homeGoals.GetOr(0);
      var aG := h.awayGoals.GetOr(0);
      var isH := h.homeId == Some(teamId);
      s := s + (if isH then hG else aG);
      c := c + (if isH then aG else hG);
    }
    assert recent[..|recent|] == recent;
    st := TeamStats(s as real / |recent| as real, c as real / |recent| as real);
  }

  predicate NonNegativeGoals(s: seq<HistoryMatch>) {
    forall i :: 0 <= i < |s| ==> s[i].homeGoals.GetOr(0) >= 0 && s[i].awayGoals.GetOr(0) >= 0
  }

  lemma {:induction false} SumsNonNegative(s: seq<HistoryMatch>, teamId: int)
    requires NonNegativeGoals(s)
    ensures ScoredSum(s, teamId) >= 0 && ConcededSum(s, teamId) >= 0
  {
    if s != [] {
      var init := s[..|s| - 1];
      assert NonNegativeGoals(init) by {
        forall i | 0 <= i < |init|
          ensures init[i].homeGoals.GetOr(0) >= 0 && init[i].awayGoals.GetOr(0) >= 0
        {
          assert init[i] == s[i];
        }
      }
      SumsNonNegative(init, teamId);
    }
  }

  /** With no negative goal counts, both means are non-negative. */
  lemma StatsNonNegative(hist: seq<HistoryMatch>, teamId: int)
    requires hist != [] && NonNegativeGoals(hist)
    ensures Stats(hist, teamId).scored >= 0.0 && Stats(hist, teamId).conceded >= 0.0
  {
    var recent := Recent(hist);
    assert NonNegativeGoals(recent) by {
      forall i | 0 <= i < |recent|
        ensures recent[i].homeGoals.GetOr(0) >= 0 && recent[i].awayGoals.GetOr(0) >= 0
      {
        assert recent[i] == hist[i];
      }
    }
    SumsNonNegative(recent, teamId);
  }

  /** The two means add up to the mean goals per match. */
  lemma StatsSplitGoals(hist: seq<HistoryMatch>, teamId: int)
    requires hist != []
    ensures var recent := Recent(hist);
      Stats(hist, teamId).scored + Stats(hist, teamId).conceded == MatchGoals(recent) as real / |recent| as real
  {
    ScoredPlusConceded(Recent(hist), teamId);
  }

  /** `leagueAvg / 2 || 1`: half the league average, or 1 when that is 0. */
  function StrengthDivisor(leagueAvg: real): (d: real)
    ensures d != 0.0
    ensures leagueAvg != 0.0 ==> d * 2.0 == leagueAvg
  {
    if leagueAvg / 2.0 != 0.0 then leagueAvg / 2.0 else 1.0
  }

  /** The expected goals of the two sides from their form and the league average. */
  function ExpectedGoalsFor(leagueAvg: real, home: TeamStats, away: TeamStats): Poisson.ExpectedGoals {
    var d := StrengthDivisor(leagueAvg);
    Poisson.GetExpectedGoals(leagueAvg, home.scored / d, away.conceded / d, away.scored / d, home.conceded / d)
  }

  // ------------------------------------------------------------ evaluations

  datatype Evaluation = Evaluation(market: string, line: Option<real>, selection: string, p: real)

  /** The over probability Poisson gives for a line: 1.5, 2.5, else the 3.5 one. */
  function OverFor(pr: Poisson.Probabilities, line: real): real {
    if line == 1.5 then pr.over15 else if line == 2.5 then pr.over25 else pr.over35
  }

  function LineEvaluations(pr: Poisson.Probabilities, lines: seq<real>): (r: seq<Evaluation>)
    ensures |r| == 2 * |lines|
  {
    if lines == [] then []
    else
      var line := lines[|lines| - 1];
      var probOver := OverFor(pr, line);
      LineEvaluations(pr, lines[..|lines| - 1])
        + [Evaluation(OverUnder, Some(line), "OVER", probOver), Evaluation(OverUnder, Some(line), "UNDER", 1.0 - probOver)]
  }

  function FixedEvaluations(elo: Elo.MatchProbabilities, pr: Poisson.Probabilities): seq<Evaluation> {
    [ Evaluation(OneXTwo, None, "HOME", elo.home),
      Evaluation(OneXTwo, None, "DRAW", elo.draw),
      Evaluation(OneXTwo, None, "AWAY", elo.away),
      Evaluation(Btts, None, "YES", pr.btts),
      Evaluation(Btts, None, "NO", 1.0 - pr.btts) ]
  }

  /** The eleven candidates: 1X2 from Elo, BTTS and over/under from Poisson. */
  function Evaluations(elo: Elo.MatchProbabilities, pr: Poisson.Probabilities): seq<Evaluation> {
    FixedEvaluations(elo, pr) + LineEvaluations(pr, OverUnderLines)
  }

  /** The evaluation list: five fixed entries, then a pair per line. */
  method BuildEvaluations(elo: Elo.MatchProbabilities, pr: Poisson.Probabilities) returns (evaluations: seq<Evaluation>)
    ensures evaluations == Evaluations(elo, pr)
  {
    evaluations := FixedEvaluations(elo, pr);
    for k := 0 to |OverUnderLines|
      invariant evaluations == FixedEvaluations(elo, pr) + LineEvaluations(pr, OverUnderLines[..k])
    {
      assert OverUnderLines[..k + 1][..k] == OverUnderLines[..k];
      var line := OverUnderLines[k];
      var probOver := if line == 1.5 then pr.over15 else (if line == 2.5 then pr.over25 else pr.over35);
      evaluations := evaluations + [Evaluation(OverUnder, Some(line), "OVER", probOver)];
      evaluations := evaluations + [Evaluation(OverUnder, Some(line), "UNDER", 1.0 - probOver)];
    }
    assert OverUnderLines[..|OverUnderLines|] == OverUnderLines;
  }

  /** The over/under pair of line `lines[k]` sits at 2k and 2k+1, an over and its complement. */
  lemma {:induction false} LinePairs(pr: Poisson.Probabilities, lines: seq<real>, k: nat)
    requires k < |lines|
    ensures var r := LineEvaluations(pr, lines);
      && r[2 * k] == Evaluation(OverUnder, Some(lines[k]), "OVER", OverFor(pr, lines[k]))
      && r[2 * k + 1] == Evaluation(OverUnder, Some(lines[k]), "UNDER", 1.0 - OverFor(pr, lines[k]))
  {
    var init := lines[..|lines| - 1];
    if k < |lines| - 1 {
      LinePairs(pr, init, k);
      assert init[k] == lines[k];
    }
  }

  /**
   * Exactly eleven evaluations; the 1X2 ones add up to 1, and BTTS and each
   * over/under line come as a probability and its complement.
   */
  lemma EvaluationShape(elo: Elo.MatchProbabilities, pr: Poisson.Probabilities, k: nat)
    requires elo.home + elo.draw + elo.away == 1.0
    requires k < 3
    ensures var e := Evaluations(elo, pr);
      && |e| == 11
      && e[0].p + e[1].p + e[2].p == 1.0
      && e[3].p + e[4].p == 1.0
      && e[5 + 2 * k] == Evaluation(OverUnder, Some(OverUnderLines[k]), "OVER", OverFor(pr, OverUnderLines[k]))
      && e[5 + 2 * k].p + e[6 + 2 * k].p == 1.0
      && e[6 + 2 * k].market == OverUnder && e[6 + 2 * k].line == Some(OverUnderLines[k])
      && e[6 + 2 * k].selection == "UNDER"
  {
    LinePairs(pr, OverUnderLines, k);
    var f := FixedEvaluations(elo, pr);
    var l := LineEvaluations(pr, OverUnderLines);
    assert Evaluations(elo, pr)[5 + 2 * k] == l[2 * k];
    assert Evaluations(elo, pr)[6 + 2 * k] == l[2 * k + 1];
  }

  /** Each supported line reads its own over probability. */
  lemma OverForLines(pr: Poisson.Probabilities)
    ensures OverFor(pr, 1.5) == pr.over15 && OverFor(pr, 2.5) == pr.over25 && OverFor(pr, 3.5) == pr.over35
  {
  }

  // ------------------------------------------------------------------ odds

  /** A stored `odds_averages` row. */
  datatype StoredAverage = StoredAverage(
    fixtureId: int, market: string, line: Option<real>, selection: string, avgOdds: real, computedAt: int)

  predicate MatchesEvaluation(r: StoredAverage, fixtureId: int, e: Evaluation) {
    r.fixtureId == fixtureId && r.market == e.market && r.selection == e.selection && r.line == e.line
  }

  function MatchingAverages(table: seq<StoredAverage>, fixtureId: int, e: Evaluation): (r: seq<StoredAverage>)
    ensures forall i :: 0 <= i < |r| ==> r[i] in table && MatchesEvaluation(r[i], fixtureId, e)
    ensures forall i :: 0 <= i < |table| && MatchesEvaluation(table[i], fixtureId, e) ==> table[i] in r
  {
    if table == [] then []
    else
      var rest := MatchingAverages(table[..|table| - 1], fixtureId, e);
      if MatchesEvaluation(table[|table| - 1], fixtureId, e) then rest + [table[|table| - 1]] else rest
  }

  /** The most recently computed row; of equally recent ones, the first. */
  function Newest(rows: seq<StoredAverage>): (r: Option<StoredAverage>)
    ensures r.Some? <==> rows != []
    ensures r.Some? ==> r.value in rows && forall i :: 0 <= i < |rows| ==> rows[i].computedAt <= r.value.computedAt
  {
    if rows == [] then None
    else
      match Newest(rows[1..])
      case None => Some(rows[0])
      case Some(n) => if n.computedAt > rows[0].computedAt then Some(n) else Some(rows[0])
  }

  /** `bestRow?.avg_odds || 0`. */
  function AvgOddsFor(table: seq<StoredAverage>, fixtureId: int, e: Evaluation): (avg: real)
    ensures avg != 0.0 ==> exists r :: r in table && MatchesEvaluation(r, fixtureId, e) && r.avgOdds == avg
    ensures (forall i :: 0 <= i < |table| ==> !MatchesEvaluation(table[i], fixtureId, e)) ==> avg == 0.0
    ensures (exists i :: 0 <= i < |table| && MatchesEvaluation(table[i], fixtureId, e)) ==>
              exists r :: r in table && MatchesEvaluation(r, fixtureId, e) && r.avgOdds == avg
                && forall j :: 0 <= j < |table| && MatchesEvaluation(table[j], fixtureId, e) ==>
                     table[j].computedAt <= r.computedAt
  {
    match Newest(MatchingAverages(table, fixtureId, e))
    case None => 0.0
    case Some(r) => r.avgOdds
  }

  /** The odds used for each evaluation. */
  function OddsFor(table: seq<StoredAverage>, fixtureId: int, evs: seq<Evaluation>): (odds: seq<real>)
    ensures |odds| == |evs|
    ensures forall i :: 0 <= i < |evs| ==> odds[i] == AvgOddsFor(table, fixtureId, evs[i])
  {
    seq(|evs|, i requires 0 <= i < |evs| => AvgOddsFor(table, fixtureId, evs[i]))
  }

  // ----------------------------------------------------------------- gates

  datatype Reason = MissingOdds | LowOdds | LowProb | BetterPickExists | InsufficientHistory | ReplacedByNewRun

  /** The first failing gate: no odds, odds below 1.5, probability below 0.70. */
  function BlockReason(avgOdds: real, p: real): Option<Reason> {
    if avgOdds <= 0.0 then Some(MissingOdds)
    else if avgOdds < MinPublishOdds then Some(LowOdds)
    else if p < ProbThreshold then Some(LowProb)
    else None
  }

  /** The gates in priority order, each exactly when the earlier ones pass. */
  lemma GateOrder(avgOdds: real, p: real)
    ensures BlockReason(avgOdds, p) == Some(MissingOdds) <==> avgOdds <= 0.0
    ensures BlockReason(avgOdds, p) == Some(LowOdds) <==> 0.0 < avgOdds < 1.5
    ensures BlockReason(avgOdds, p) == Some(LowProb) <==> avgOdds >= 1.5 && p < 0.70
    ensures BlockReason(avgOdds, p).None? <==> avgOdds >= 1.5 && p >= 0.70
    ensures BlockReason(avgOdds, p).Some? ==> BlockReason(avgOdds, p).value in {MissingOdds, LowOdds, LowProb}
  {
  }

  /** `1 / avgOdds` when the odds are positive, else 0. */
  function ImpliedProbability(avgOdds: real): (q: real)
    ensures avgOdds > 0.0 ==> q * avgOdds == 1.0 && q > 0.0
    ensures avgOdds <= 0.0 ==> q == 0.0
  {
    if avgOdds > 0.0 then 1.0 / avgOdds else 0.0
  }

  /** Publishable odds imply a probability in (0, 2/3]. */
  lemma PublishableImpliedProbability(avgOdds: real)
    requires avgOdds >= MinPublishOdds
    ensures 0.0 < ImpliedProbability(avgOdds) <= 2.0 / 3.0
  {
    var q := ImpliedProbability(avgOdds);
    assert q * avgOdds == 1.0;
    assert q * 1.5 <= q * avgOdds;
  }

  datatype Decision = Publish | Block

  datatype PredictionRow = PredictionRow(
    fixtureId: int, market: string, line: Option<real>, selection: string,
    modelProbability: real, avgOdds: real, impliedProbability: real,
    decision: Decision, reason: Option<Reason>)

  datatype Candidate = Candidate(ev: Evaluation, avgOdds: real)

  function RowOf(fixtureId: int, c: Candidate, decision: Decision, reason: Option<Reason>): (row: PredictionRow)
    ensures row.fixtureId == fixtureId && row.decision == decision && row.reason == reason
    ensures row.modelProbability == c.ev.p && row.avgOdds == c.avgOdds
    ensures row.impliedProbability == ImpliedProbability(c.avgOdds)
  {
    PredictionRow(fixtureId, c.ev.market, c.ev.line, c.ev.selection, c.ev.p, c.avgOdds,
                  ImpliedProbability(c.avgOdds), decision, reason)
  }

  /** The candidates that pass every gate and the rows of those that do not. */
  function Gate(fixtureId: int, evs: seq<Evaluation>, odds: seq<real>): (r: (seq<Candidate>, seq<PredictionRow>))
    requires |odds| == |evs|
    ensures |r.0| + |r.1| == |evs|
    ensures forall i :: 0 <= i < |r.0| ==> BlockReason(r.0[i].avgOdds, r.0[i].ev.p).None?
    ensures forall i :: 0 <= i < |r.1| ==>
              (r.1[i].decision == Block && r.1[i].reason.Some? && r.1[i].fixtureId == fixtureId)
  {
    if evs == [] then ([], [])
    else
      var n := |evs| - 1;
      var rest := Gate(fixtureId, evs[..n], odds[..n]);
      var c := Candidate(evs[n], odds[n]);
      match BlockReason(odds[n], evs[n].p)
      case Some(reason) => (rest.0, rest.1 + [RowOf(fixtureId, c, Block, Some(reason))])
      case None => (rest.0 + [c], rest.1)
  }

  /** Some candidate passes exactly when some evaluation clears every gate. */
  lemma {:induction false} GateEligible(fixtureId: int, evs: seq<Evaluation>, odds: seq<real>)
    requires |odds| == |evs|
    ensures Gate(fixtureId, evs, odds).0 != [] <==> exists i :: 0 <= i < |evs| && BlockReason(odds[i], evs[i].p).None?
  {
    if evs != [] {
      var n := |evs| - 1;
      GateEligible(fixtureId, evs[..n], odds[..n]);
      if exists i :: 0 <= i < n && BlockReason(odds[..n][i], evs[..n][i].p).None? {
        var i :| 0 <= i < n && BlockReason(odds[..n][i], evs[..n][i].p).None?;
        assert odds[..n][i] == odds[i] && evs[..n][i] == evs[i];
      }
      if exists i :: 0 <= i < |evs| && BlockReason(odds[i], evs[i].p).None? {
        var i :| 0 <= i < |evs| && BlockReason(odds[i], evs[i].p).None?;
        if i < n {
          assert odds[..n][i] == odds[i] && evs[..n][i] == evs[i];
        }
      }
    }
  }

  /** The gate loop over the evaluations, reading the stored average of each. */
  method GateEvaluations(fixtureId: int, evs: seq<Evaluation>, table: seq<StoredAverage>)
    returns (eligibleCandidates: seq<Candidate>, evaluatedRows: seq<PredictionRow>)
    ensures (eligibleCandidates, evaluatedRows) == Gate(fixtureId, evs, OddsFor(table, fixtureId, evs))
  {
    ghost var odds := OddsFor(table, fixtureId, evs);
    eligibleCandidates, evaluatedRows := [], [];
    for i := 0 to |evs|
      invariant (eligibleCandidates, evaluatedRows) == Gate(fixtureId, evs[..i], odds[..i])
    {
      GatePrefix(fixtureId, evs, odds, i);
      var e := evs[i];
      var avgOdds := AvgOddsFor(table, fixtureId, e);
      var reason := GateReason(avgOdds, e.p);
      if reason.Some? {
        evaluatedRows := evaluatedRows + [RowOf(fixtureId, Candidate(e, avgOdds), Block, reason)];
      } else {
        eligibleCandidates := eligibleCandidates + [Candidate(e, avgOdds)];
      }
    }
    assert evs[..|evs|] == evs && odds[..|odds|] == odds;
  }

  /** The three gates of the loop body, tried in order. */
  method GateReason(avgOdds: real, p: real) returns (reason: Option<Reason>)
    ensures reason == BlockReason(avgOdds, p)
  {
    reason := None;
    if avgOdds <= 0.0 {
      reason := Some(MissingOdds);
    } else if avgOdds < MinPublishOdds {
      reason := Some(LowOdds);
    } else if p < ProbThreshold {
      reason := Some(LowProb);
    }
  }

  /** Gating one evaluation more. */
  lemma GatePrefix(fixtureId: int, evs: seq<Evaluation>, odds: seq<real>, i: nat)
    requires |odds| == |evs| && i < |evs|
    ensures var rest := Gate(fixtureId, evs[..i], odds[..i]);
      var c := Candidate(evs[i], odds[i]);
      Gate(fixtureId, evs[..i + 1], odds[..i + 1])
      == match BlockReason(odds[i], evs[i].p)
         case Some(reason) => (rest.0, rest.1 + [RowOf(fixtureId, c, Block, Some(reason))])
         case None => (rest.0 + [c], rest.1)
  {
    assert evs[..i + 1][..i] == evs[..i] && odds[..i + 1][..i] == odds[..i];
  }

  // ---------------------------------------------------------------- winner

  /** `a` sorts before `b`: higher probability unless within 0.001, then higher odds. */
  predicate Better(a: Candidate, b: Candidate) {
    var d := b.ev.p - a.ev.p;
    if Elo.Abs(d) > 0.001 then d < 0.0 else b.avgOdds - a.avgOdds < 0.0
  }

  /** The position of the first candidate no later one sorts before, scanning `cs[..n]`. */
  function BestIndex(cs: seq<Candidate>, n: nat): (w: nat)
    requires 1 <= n <= |cs|
    ensures w < n
  {
    if n == 1 then 0
    else
      var b := BestIndex(cs, n - 1);
      if Better(cs[n - 1], cs[b]) then n - 1 else b
  }

  ghost predicate Transitive(cs: seq<Candidate>) {
    forall i, j, k :: 0 <= i < |cs| && 0 <= j < |cs| && 0 <= k < |cs| && Better(cs[i], cs[j]) && Better(cs[j], cs[k])
      ==> Better(cs[i], cs[k])
  }

  /** Where the order is transitive, nothing sorts before the winner. */
  lemma {:induction false} WinnerUnbeaten(cs: seq<Candidate>, n: nat)
    requires 1 <= n <= |cs| && Transitive(cs)
    ensures forall j :: 0 <= j < n ==> !Better(cs[j], cs[BestIndex(cs, n)])
  {
    if n > 1 {
      WinnerUnbeaten(cs, n - 1);
    }
  }

  /** Candidates whose probabilities are equal or more than 0.001 apart. */
  predicate Separated(cs: seq<Candidate>) {
    forall i, j :: 0 <= i < |cs| && 0 <= j < |cs| ==>
      cs[i].ev.p == cs[j].ev.p || Elo.Abs(cs[i].ev.p - cs[j].ev.p) > 0.001
  }

  /** On separated candidates the order is by probability, then by odds. */
  lemma SeparatedIsLexicographic(cs: seq<Candidate>, i: nat, j: nat)
    requires Separated(cs) && i < |cs| && j < |cs|
    ensures Better(cs[i], cs[j]) <==> cs[i].ev.p > cs[j].ev.p || (cs[i].ev.p == cs[j].ev.p && cs[i].avgOdds > cs[j].avgOdds)
  {
    assert Elo.Abs(cs[j].ev.p - cs[i].ev.p) == Elo.Abs(cs[i].ev.p - cs[j].ev.p);
  }

  /** On separated candidates the winner has the highest probability, and the highest odds among those. */
  lemma SeparatedWinnerIsBest(cs: seq<Candidate>)
    requires |cs| >= 1 && Separated(cs)
    ensures var w := cs[BestIndex(cs, |cs|)];
      forall j :: 0 <= j < |cs| ==> cs[j].ev.p < w.ev.p || (cs[j].ev.p == w.ev.p && cs[j].avgOdds <= w.avgOdds)
  {
    forall i, j, k | 0 <= i < |cs| && 0 <= j < |cs| && 0 <= k < |cs| && Better(cs[i], cs[j]) && Better(cs[j], cs[k])
      ensures Better(cs[i], cs[k])
    {
      SeparatedIsLexicographic(cs, i, j);
      SeparatedIsLexicographic(cs, j, k);
      SeparatedIsLexicographic(cs, i, k);
    }
    var b := BestIndex(cs, |cs|);
    WinnerUnbeaten(cs, |cs|);
    forall j | 0 <= j < |cs|
      ensures cs[j].ev.p < cs[b].ev.p || (cs[j].ev.p == cs[b].ev.p && cs[j].avgOdds <= cs[b].avgOdds)
    {
      SeparatedIsLexicographic(cs, j, b);
    }
  }

  /**
   * The order is not transitive in general: three candidates each within 0.001
   * of the next, with falling odds, sort in a cycle.
   */
  lemma ComparatorCycles()
    ensures var a := Candidate(Evaluation(OneXTwo, None, "HOME", 0.7000), 2.0);
      var b := Candidate(Evaluation(Btts, None, "YES", 0.7008), 1.9);
      var c := Candidate(Evaluation(OverUnder, Some(1.5), "OVER", 0.7016), 1.8);
      Better(a, b) && Better(b, c) && Better(c, a)
  {
  }

  /** The scan over the sorted-first position. */
  method PickWinner(cs: seq<Candidate>) returns (w: nat)
    requires |cs| >= 1
    ensures w == BestIndex(cs, |cs|)
  {
    w := 0;
    for i := 1 to |cs|
      invariant w == BestIndex(cs, i)
    {
      if Better(cs[i], cs[w]) {
        w := i;
      }
    }
  }

  /** The rows of every candidate but the winner, in order. */
  function OtherRows(fixtureId: int, cs: seq<Candidate>, w: nat): (rows: seq<PredictionRow>)
    ensures |rows| == |cs| - (if w < |cs| then 1 else 0)
    ensures forall i :: 0 <= i < |rows| ==>
              (rows[i].decision == Block && rows[i].reason == Some(BetterPickExists) && rows[i].fixtureId == fixtureId)
  {
    if cs == [] then []
    else
      var rest := OtherRows(fixtureId, cs[..|cs| - 1], w);
      if |cs| - 1 == w then rest else rest + [RowOf(fixtureId, cs[|cs| - 1], Block, Some(BetterPickExists))]
  }

  /** All rows of a fixture whose teams have enough history, with the counter increments. */
  datatype FixtureRows = FixtureRows(rows: seq<PredictionRow>, published: nat, blocked: nat)

  function DecideRows(fixtureId: int, evs: seq<Evaluation>, odds: seq<real>): FixtureRows
    requires |odds| == |evs|
  {
    var (eligible, blocked) := Gate(fixtureId, evs, odds);
    if |eligible| > 0 then
      var w := BestIndex(eligible, |eligible|);
      FixtureRows(blocked + [RowOf(fixtureId, eligible[w], Publish, None)] + OtherRows(fixtureId, eligible, w),
                  1, |eligible| - 1)
    else FixtureRows(blocked, 0, |blocked|)
  }

  function PublishCount(rows: seq<PredictionRow>): nat {
    if rows == [] then 0 else PublishCount(rows[..|rows| - 1]) + (if rows[|rows| - 1].decision == Publish then 1 else 0)
  }

  lemma {:induction false} PublishCountAppend(a: seq<PredictionRow>, b: seq<PredictionRow>)
    ensures PublishCount(a + b) == PublishCount(a) + PublishCount(b)
  {
    if b == [] {
      assert a + b == a;
    } else {
      var bi := b[..|b| - 1];
      assert (a + b)[..|a + b| - 1] == a + bi;
      PublishCountAppend(a, bi);
    }
  }

  lemma {:induction false} NoPublishCounted(rows: seq<PredictionRow>)
    requires forall i :: 0 <= i < |rows| ==> rows[i].decision == Block
    ensures PublishCount(rows) == 0
  {
    if rows != [] {
      NoPublishCounted(rows[..|rows| - 1]);
    }
  }

  /**
   * One row per evaluation; exactly one PUBLISH row when some evaluation clears
   * every gate and none otherwise; the published counter says which.
   */
  lemma DecideRowsFacts(fixtureId: int, evs: seq<Evaluation>, odds: seq<real>)
    requires |odds| == |evs|
    ensures var d := DecideRows(fixtureId, evs, odds);
      && |d.rows| == |evs|
      && PublishCount(d.rows) == d.published
      && (d.published == 1 <==> exists i :: 0 <= i < |evs| && BlockReason(odds[i], evs[i].p).None?)
      && d.published <= 1
      && d.published + d.blocked == |evs| - (if d.published == 1 then |Gate(fixtureId, evs, odds).1| else 0)
      && forall i :: 0 <= i < |d.rows| ==> d.rows[i].fixtureId == fixtureId
  {
    var (eligible, blocked) := Gate(fixtureId, evs, odds);
    GateEligible(fixtureId, evs, odds);
    NoPublishCounted(blocked);
    if |eligible| > 0 {
      WinnerRows(fixtureId, eligible, blocked, BestIndex(eligible, |eligible|));
    }
  }

  /**
   * The rows of a fixture with a winner `w`: the gate's rows, the winner's
   * PUBLISH row, then a BETTER_PICK_EXISTS row for every other candidate.
   */
  lemma WinnerRows(fixtureId: int, eligible: seq<Candidate>, blocked: seq<PredictionRow>, w: nat)
    requires w < |eligible|
    requires forall i :: 0 <= i < |blocked| ==> blocked[i].decision == Block && blocked[i].fixtureId == fixtureId
    ensures var rows := blocked + [RowOf(fixtureId, eligible[w], Publish, None)] + OtherRows(fixtureId, eligible, w);
      && |rows| == |blocked| + |eligible|
      && PublishCount(rows) == 1
      && (forall i :: 0 <= i < |rows| ==> rows[i].fixtureId == fixtureId)
      && (forall i :: 0 <= i < |rows| && i != |blocked| ==> rows[i].decision == Block)
  {
    var others := OtherRows(fixtureId, eligible, w);
    var pub := RowOf(fixtureId, eligible[w], Publish, None);
    NoPublishCounted(blocked);
    NoPublishCounted(others);
    PublishCountAppend(blocked, [pub]);
    PublishCountAppend(blocked + [pub], others);
    assert PublishCount([pub]) == 1 by {
      assert [pub][..0] == [];
    }
    var rows := blocked + [pub] + others;
    forall i | 0 <= i < |rows|
      ensures rows[i].fixtureId == fixtureId
      ensures i != |blocked| ==> rows[i].decision == Block
    {
      if i < |blocked| {
        assert rows[i] == blocked[i];
      } else if i > |blocked| {
        assert rows[i] == others[i - |blocked| - 1];
      }
    }
  }

  /** The gate loop, the winner and the loop over the other eligible candidates. */
  method Decide(fixtureId: int, evs: seq<Evaluation>, table: seq<StoredAverage>) returns (d: FixtureRows)
    ensures d == DecideRows(fixtureId, evs, OddsFor(table, fixtureId, evs))
  {
    var eligibleCandidates, evaluatedRows := GateEvaluations(fixtureId, evs, table);
    if |eligibleCandidates| > 0 {
      var w := PickWinner(eligibleCandidates);
      evaluatedRows := evaluatedRows + [RowOf(fixtureId, eligibleCandidates[w], Publish, None)];
      var others := BlockOthers(fixtureId, eligibleCandidates, w);
      d := FixtureRows(evaluatedRows + others, 1, |eligibleCandidates| - 1);
    } else {
      d := FixtureRows(evaluatedRows, 0, |evaluatedRows|);
    }
  }

  /** The loop writing a BETTER_PICK_EXISTS row for every candidate but the winner `w`. */
  method BlockOthers(fixtureId: int, cs: seq<Candidate>, w: nat) returns (others: seq<PredictionRow>)
    ensures others == OtherRows(fixtureId, cs, w)
  {
    others := [];
    for i := 0 to |cs|
      invariant others == OtherRows(fixtureId, cs[..i], w)
    {
      assert cs[..i + 1][..i] == cs[..i];
      if i != w {
        others := others + [RowOf(fixtureId, cs[i], Block, Some(BetterPickExists))];
      }
    }
    assert cs[..|cs|] == cs;
  }

  /** No two PUBLISH rows. */
  predicate AtMostOnePublish(rows: seq<PredictionRow>) {
    forall i, j :: 0 <= i < |rows| && 0 <= j < |rows| && rows[i].decision == Publish && rows[j].decision == Publish
      ==> i == j
  }

  lemma DecideRowsSinglePublish(fixtureId: int, evs: seq<Evaluation>, odds: seq<real>)
    requires |odds| == |evs|
    ensures AtMostOnePublish(DecideRows(fixtureId, evs, odds).rows)
  {
    var (eligible, blocked) := Gate(fixtureId, evs, odds);
    if |eligible| > 0 {
      WinnerRows(fixtureId, eligible, blocked, BestIndex(eligible, |eligible|));
    }
  }

  /** The row that blocks a fixture whose teams lack history. */
  function InsufficientHistoryRow(fixtureId: int): (row: PredictionRow)
    ensures row.decision == Block && row.reason == Some(InsufficientHistory) && row.fixtureId == fixtureId
    ensures row.market == "ALL" && row.selection == "N/A" && row.line.None?
  {
    PredictionRow(fixtureId, "ALL", None, "N/A", 0.0, 0.0, 0.0, Block, Some(InsufficientHistory))
  }
}
