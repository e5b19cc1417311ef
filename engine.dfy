/**
 * One run of the prediction engine: choosing the fixtures, then for each
 * fixture either the insufficient-history block or the evaluated rows, written
 * into the predictions table after the fixture's earlier PUBLISH rows are
 * withdrawn.
 */
module Engine {
  import opened Common
  import opened Markets
  import Elo
  import Poisson
  import opened EngineModel

  // -------------------------------------------------------------- fixtures

  datatype Participant = Participant(id: int, name: string, location: Option<string>)

  /** A fixture as the loop sees it; `homeTeamId`/`awayTeamId` are absent on SportMonks fixtures. */
  datatype Fixture = Fixture(
    id: int, leagueId: int, startingAt: int,
    homeTeamId: Option<int>, awayTeamId: Option<int>, participants: seq<Participant>)

  /** A row of the local fixtures table. */
  datatype LocalFixture = LocalFixture(
    id: int, leagueId: int, homeTeamId: int, awayTeamId: int, kickoffAt: int, status: string)

  const BufferMs: int := 2 * HourMs
  const LocalFixtureLimit: nat := 100
  const MaxFixturesPerRun: nat := 100

  /** Kick-off from two hours ago up to 72 hours ahead, both ends included. */
  predicate InWindow(kickoff: int, now: int) {
    now - BufferMs <= kickoff <= now + LookaheadHours * HourMs
  }

  function Upcoming(fs: seq<Fixture>, now: int): (r: seq<Fixture>)
    ensures |r| <= |fs|
    ensures forall i :: 0 <= i < |r| ==> r[i] in fs && InWindow(r[i].startingAt, now)
    ensures forall i :: 0 <= i < |fs| && InWindow(fs[i].startingAt, now) ==> fs[i] in r
  {
    if fs == [] then []
    else
      var rest := Upcoming(fs[..|fs| - 1], now);
      if InWindow(fs[|fs| - 1].startingAt, now) then rest + [fs[|fs| - 1]] else rest
  }

  predicate LocalSelected(f: LocalFixture, now: int) {
    f.status == "scheduled" && InWindow(f.kickoffAt, now)
  }

  /** A local row in the loop's shape, with placeholder team names. */
  function FromLocal(f: LocalFixture): Fixture {
    Fixture(f.id, f.leagueId, f.kickoffAt, None, None,
            [Participant(f.homeTeamId, "Home Team", Some("home")), Participant(f.awayTeamId, "Away Team", Some("away"))])
  }

  function LocalMatches(local: seq<LocalFixture>, now: int): (r: seq<Fixture>)
    ensures |r| <= |local|
    ensures forall i :: 0 <= i < |r| ==> InWindow(r[i].startingAt, now)
  {
    if local == [] then []
    else
      var rest := LocalMatches(local[..|local| - 1], now);
      if LocalSelected(local[|local| - 1], now) then rest + [FromLocal(local[|local| - 1])] else rest
  }

  /** The fallback query: scheduled local fixtures in the window, at most 100. */
  function LocalQuery(local: seq<LocalFixture>, now: int): (r: seq<Fixture>)
    ensures |r| <= LocalFixtureLimit
    ensures forall i :: 0 <= i < |r| ==> InWindow(r[i].startingAt, now)
  {
    var all := LocalMatches(local, now);
    all[..MinNat(|all|, LocalFixtureLimit)]
  }

  /**
   * The SportMonks fixtures in the window (none when the fetch failed), or the
   * local ones when there are none (none when the local query failed).
   */
  function FixturesToProcess(sm: Option<seq<Fixture>>, local: Option<seq<LocalFixture>>, now: int): (r: seq<Fixture>)
    ensures forall i :: 0 <= i < |r| ==> InWindow(r[i].startingAt, now)
  {
    var primary := Upcoming(sm.GetOr([]), now);
    if |primary| == 0 then (if local.Some? then LocalQuery(local.value, now) else []) else primary
  }

  /** The local table is read only when no SportMonks fixture is in the window. */
  lemma FallbackOnlyWhenEmpty(sm: Option<seq<Fixture>>, local: Option<seq<LocalFixture>>, now: int)
    ensures Upcoming(sm.GetOr([]), now) != [] ==> FixturesToProcess(sm, local, now) == Upcoming(sm.GetOr([]), now)
    ensures Upcoming(sm.GetOr([]), now) == [] && local.Some? ==> FixturesToProcess(sm, local, now) == LocalQuery(local.value, now)
    ensures local.None? ==> FixturesToProcess(sm, local, now) == Upcoming(sm.GetOr([]), now)
  {
  }

  /** `slice(0, 100)`. */
  function Capped(fs: seq<Fixture>): (r: seq<Fixture>)
    ensures |r| == MinNat(|fs|, MaxFixturesPerRun) && r == fs[..|r|]
  {
    fs[..MinNat(|fs|, MaxFixturesPerRun)]
  }

  /** The first participant at the given location, or whose id is the fixture's team id. */
  function FindTeam(parts: seq<Participant>, location: string, teamId: Option<int>): (r: Option<Participant>)
    ensures r.Some? ==> r.value in parts && (r.value.location == Some(location) || Some(r.value.id) == teamId)
    ensures r.None? ==> forall i :: 0 <= i < |parts| ==> parts[i].location != Some(location) && Some(parts[i].id) != teamId
    ensures r.Some? ==> exists i :: 0 <= i < |parts| && parts[i] == r.value
                          && forall j :: 0 <= j < i ==> parts[j].location != Some(location) && Some(parts[j].id) != teamId
  {
    if parts == [] then None
    else if parts[0].location == Some(location) || Some(parts[0].id) == teamId then Some(parts[0])
    else FindTeam(parts[1..], location, teamId)
  }

  // ---------------------------------------------------------- one fixture

  /** Everything the run reads from outside: team histories, league averages, the averages table, exp and 10^x. */
  datatype Sources = Sources(
    history: int -> seq<HistoryMatch>,
    leagueAvg: int -> real,
    averages: int -> seq<StoredAverage>,
    exp: real -> real,
    pow10: real -> real)

  predicate HasHistory(src: Sources, teamId: int) {
    |src.history(teamId)| >= HistoryMatches
  }

  /** The draw rate the engine passes to the Elo model. */
  const EngineDrawRate: real := 0.25

  /** The eleven evaluations of a fixture whose teams both have ten matches. */
  function FixtureEvaluations(leagueId: int, homeId: int, awayId: int, src: Sources): seq<Evaluation>
    requires Elo.Positive(src.pow10)
    requires HasHistory(src, homeId) && HasHistory(src, awayId)
  {
    var hh := src.history(homeId);
    var ah := src.history(awayId);
    var g := ExpectedGoalsFor(src.leagueAvg(leagueId), Stats(hh, homeId), Stats(ah, awayId));
    var pr := Poisson.ProbabilitiesFrom(Poisson.PmfTable(g.lambdaHome, src.exp), Poisson.PmfTable(g.lambdaAway, src.exp));
    var elo := Elo.GetMatchProbabilities(EloFold(Recent(hh), homeId) as real, EloFold(Recent(ah), awayId) as real,
                                         EngineDrawRate, src.exp, src.pow10);
    Evaluations(elo, pr)
  }

  datatype Step = Skipped | NoHistory | Decided(d: FixtureRows)

  /** What the loop does with one fixture. */
  function StepOf(f: Fixture, src: Sources): Step
    requires Elo.Positive(src.pow10)
  {
    var home := FindTeam(f.participants, "home", f.homeTeamId);
    var away := FindTeam(f.participants, "away", f.awayTeamId);
    if home.None? || away.None? then Skipped
    else if !HasHistory(src, home.value.id) || !HasHistory(src, away.value.id) then NoHistory
    else
      var evs := FixtureEvaluations(f.leagueId, home.value.id, away.value.id, src);
      Decided(DecideRows(f.id, evs, OddsFor(src.averages(f.id), f.id, evs)))
  }

  /** The fixture's PUBLISH rows become BLOCK / REPLACED_BY_NEW_RUN; every other row is kept. */
  function Replaced(rows: seq<PredictionRow>, fixtureId: int): (r: seq<PredictionRow>)
    ensures |r| == |rows|
    ensures forall i :: 0 <= i < |rows| ==>
      r[i] == (if rows[i].fixtureId == fixtureId && rows[i].decision == Publish
               then rows[i].(decision := Block, reason := Some(ReplacedByNewRun)) else rows[i])
  {
    if rows == [] then []
    else
      var row := rows[|rows| - 1];
      Replaced(rows[..|rows| - 1], fixtureId)
        + [if row.fixtureId == fixtureId && row.decision == Publish
           then row.(decision := Block, reason := Some(ReplacedByNewRun)) else row]
  }

  /** The table after one step. */
  function StepRows(rows: seq<PredictionRow>, fixtureId: int, step: Step): seq<PredictionRow> {
    match step
    case Skipped => rows
    case NoHistory => Replaced(rows, fixtureId) + [InsufficientHistoryRow(fixtureId)]
    case Decided(d) => if |d.rows| > 0 then Replaced(rows, fixtureId) + d.rows else rows
  }

  datatype Diagnostics = Diagnostics(found: nat, processed: nat, published: nat, blocked: nat)

  function StepDiagnostics(diag: Diagnostics, step: Step): Diagnostics {
    match step
    case Skipped => diag
    case NoHistory => diag.(processed := diag.processed + 1, blocked := diag.blocked + 1)
    case Decided(d) =>
      diag.(processed := diag.processed + 1, published := diag.published + d.published, blocked := diag.blocked + d.blocked)
  }

  /** The table and counters after the fixtures `fs`. */
  function RunFold(rows: seq<PredictionRow>, diag: Diagnostics, fs: seq<Fixture>, src: Sources)
    : (seq<PredictionRow>, Diagnostics)
    requires Elo.Positive(src.pow10)
  {
    if fs == [] then (rows, diag)
    else
      var (r, d) := RunFold(rows, diag, fs[..|fs| - 1], src);
      var f := fs[|fs| - 1];
      var step := StepOf(f, src);
      (StepRows(r, f.id, step), StepDiagnostics(d, step))
  }

  /** The whole run: `fixtures_found` is counted before the cap of 100. */
  function Run(rows: seq<PredictionRow>, sm: Option<seq<Fixture>>, local: Option<seq<LocalFixture>>, now: int, src: Sources)
    : (seq<PredictionRow>, Diagnostics)
    requires Elo.Positive(src.pow10)
  {
    var all := FixturesToProcess(sm, local, now);
    RunFold(rows, Diagnostics(|all|, 0, 0, 0), Capped(all), src)
  }

  /**
   * An evaluated fixture gets eleven rows, one per evaluation, of which at most
   * one is PUBLISH, and exactly one when some evaluation clears every gate.
   */
  lemma DecidedFixtureRows(f: Fixture, src: Sources)
    requires Elo.Positive(src.pow10) && StepOf(f, src).Decided?
    ensures var d := StepOf(f, src).d;
      && |d.rows| == 11
      && AtMostOnePublish(d.rows)
      && PublishCount(d.rows) == d.published <= 1
      && (forall i :: 0 <= i < |d.rows| ==> d.rows[i].fixtureId == f.id)
  {
    var home := FindTeam(f.participants, "home", f.homeTeamId);
    var away := FindTeam(f.participants, "away", f.awayTeamId);
    var hh := src.history(home.value.id);
    var ah := src.history(away.value.id);
    var g := ExpectedGoalsFor(src.leagueAvg(f.leagueId), Stats(hh, home.value.id), Stats(ah, away.value.id));
    var pr := Poisson.ProbabilitiesFrom(Poisson.PmfTable(g.lambdaHome, src.exp), Poisson.PmfTable(g.lambdaAway, src.exp));
    var elo := Elo.GetMatchProbabilities(EloFold(Recent(hh), home.value.id) as real, EloFold(Recent(ah), away.value.id) as real,
                                         EngineDrawRate, src.exp, src.pow10);
    EvaluationShape(elo, pr, 0);
    var evs := FixtureEvaluations(f.leagueId, home.value.id, away.value.id, src);
    var odds := OddsFor(src.averages(f.id), f.id, evs);
    DecideRowsFacts(f.id, evs, odds);
    DecideRowsSinglePublish(f.id, evs, odds);
  }

  // ------------------------------------------------------------ the table

  /** No fixture has two PUBLISH rows. */
  predicate OnePublishPerFixture(rows: seq<PredictionRow>) {
    forall i, j :: (0 <= i < |rows| && 0 <= j < |rows| && rows[i].fixtureId == rows[j].fixtureId
                    && rows[i].decision == Publish && rows[j].decision == Publish) ==> i == j
  }

  predicate NoPublishFor(rows: seq<PredictionRow>, fixtureId: int) {
    forall i :: 0 <= i < |rows| && rows[i].fixtureId == fixtureId ==> rows[i].decision == Block
  }

  /** Withdrawing leaves no PUBLISH row for the fixture and keeps the invariant. */
  lemma ReplacedWithdraws(rows: seq<PredictionRow>, fixtureId: int)
    requires OnePublishPerFixture(rows)
    ensures NoPublishFor(Replaced(rows, fixtureId), fixtureId)
    ensures OnePublishPerFixture(Replaced(rows, fixtureId))
  {
  }

  /** Appending one fixture's rows, with at most one PUBLISH, after withdrawing keeps the invariant. */
  lemma AppendKeepsOnePublish(rows: seq<PredictionRow>, fixtureId: int, added: seq<PredictionRow>)
    requires OnePublishPerFixture(rows) && NoPublishFor(rows, fixtureId)
    requires AtMostOnePublish(added)
    requires forall i :: 0 <= i < |added| ==> added[i].fixtureId == fixtureId
    ensures OnePublishPerFixture(rows + added)
  {
    var all := rows + added;
    forall i, j | 0 <= i < |all| && 0 <= j < |all| && all[i].fixtureId == all[j].fixtureId
      && all[i].decision == Publish && all[j].decision == Publish
      ensures i == j
    {
      if i < |rows| && j < |rows| {
        assert all[i] == rows[i] && all[j] == rows[j];
      } else if i >= |rows| && j >= |rows| {
        assert all[i] == added[i - |rows|] && all[j] == added[j - |rows|];
      }
    }
  }

  /** No step leaves a fixture with two PUBLISH rows. */
  lemma StepKeepsOnePublish(rows: seq<PredictionRow>, f: Fixture, src: Sources)
    requires Elo.Positive(src.pow10) && OnePublishPerFixture(rows)
    ensures OnePublishPerFixture(StepRows(rows, f.id, StepOf(f, src)))
  {
    var step := StepOf(f, src);
    match step
    case Skipped =>
    case NoHistory =>
      ReplacedWithdraws(rows, f.id);
      AppendKeepsOnePublish(Replaced(rows, f.id), f.id, [InsufficientHistoryRow(f.id)]);
    case Decided(d) =>
      if |d.rows| > 0 {
        var home := FindTeam(f.participants, "home", f.homeTeamId);
        var away := FindTeam(f.participants, "away", f.awayTeamId);
        var evs := FixtureEvaluations(f.leagueId, home.value.id, away.value.id, src);
        var odds := OddsFor(src.averages(f.id), f.id, evs);
        DecideRowsSinglePublish(f.id, evs, odds);
        DecideRowsFacts(f.id, evs, odds);
        ReplacedWithdraws(rows, f.id);
        AppendKeepsOnePublish(Replaced(rows, f.id), f.id, d.rows);
      }
  }

  lemma {:induction false} RunFoldKeepsOnePublish(rows: seq<PredictionRow>, diag: Diagnostics, fs: seq<Fixture>, src: Sources)
    requires Elo.Positive(src.pow10) && OnePublishPerFixture(rows)
    ensures OnePublishPerFixture(RunFold(rows, diag, fs, src).0)
  {
    if fs != [] {
      RunFoldKeepsOnePublish(rows, diag, fs[..|fs| - 1], src);
      StepKeepsOnePublish(RunFold(rows, diag, fs[..|fs| - 1], src).0, fs[|fs| - 1], src);
    }
  }

  /** A step publishes at most once, and only for a fixture it processed. */
  lemma StepCounters(diag: Diagnostics, f: Fixture, src: Sources)
    requires Elo.Positive(src.pow10)
    ensures var d := StepDiagnostics(diag, StepOf(f, src));
      && d.found == diag.found
      && diag.processed <= d.processed <= diag.processed + 1
      && d.published - diag.published <= d.processed - diag.processed
  {
    match StepOf(f, src)
    case Skipped =>
    case NoHistory =>
    case Decided(dr) =>
      var home := FindTeam(f.participants, "home", f.homeTeamId);
      var away := FindTeam(f.participants, "away", f.awayTeamId);
      var evs := FixtureEvaluations(f.leagueId, home.value.id, away.value.id, src);
      DecideRowsFacts(f.id, evs, OddsFor(src.averages(f.id), f.id, evs));
  }

  lemma {:induction false} RunFoldCounters(rows: seq<PredictionRow>, diag: Diagnostics, fs: seq<Fixture>, src: Sources)
    requires Elo.Positive(src.pow10)
    ensures var d := RunFold(rows, diag, fs, src).1;
      && d.found == diag.found
      && d.processed - diag.processed <= |fs|
      && diag.processed <= d.processed
      && d.published - diag.published <= d.processed - diag.processed
  {
    if fs != [] {
      RunFoldCounters(rows, diag, fs[..|fs| - 1], src);
      StepCounters(RunFold(rows, diag, fs[..|fs| - 1], src).1, fs[|fs| - 1], src);
    }
  }

  /**
   * The run keeps at most one PUBLISH row per fixture, counts the fixtures
   * before the cap, processes at most 100 and publishes at most once per
   * processed fixture.
   */
  lemma RunFacts(rows: seq<PredictionRow>, sm: Option<seq<Fixture>>, local: Option<seq<LocalFixture>>, now: int, src: Sources)
    requires Elo.Positive(src.pow10) && OnePublishPerFixture(rows)
    ensures var (r, d) := Run(rows, sm, local, now, src);
      && OnePublishPerFixture(r)
      && d.found == |FixturesToProcess(sm, local, now)|
      && d.published <= d.processed <= MaxFixturesPerRun
  {
    var all := FixturesToProcess(sm, local, now);
    RunFoldKeepsOnePublish(rows, Diagnostics(|all|, 0, 0, 0), Capped(all), src);
    RunFoldCounters(rows, Diagnostics(|all|, 0, 0, 0), Capped(all), src);
  }

  /**
   * A fixture whose teams lack history gets exactly one row, ALL / N/A,
   * blocked for INSUFFICIENT_HISTORY, and keeps no PUBLISH row.
   */
  lemma NoHistoryBlocksFixture(rows: seq<PredictionRow>, f: Fixture, src: Sources)
    requires Elo.Positive(src.pow10) && OnePublishPerFixture(rows)
    requires StepOf(f, src) == NoHistory
    ensures var after := StepRows(rows, f.id, NoHistory);
      && |after| == |rows| + 1
      && after[|rows|] == InsufficientHistoryRow(f.id)
      && NoPublishFor(after, f.id)
  {
    ReplacedWithdraws(rows, f.id);
    var after := Replaced(rows, f.id) + [InsufficientHistoryRow(f.id)];
    forall i | 0 <= i < |after| && after[i].fixtureId == f.id
      ensures after[i].decision == Block
    {
      if i < |rows| {
        assert after[i] == Replaced(rows, f.id)[i];
      }
    }
  }

  // ---------------------------------------------------------- the methods

  /** The predictions table. */
  class PredictionStore {
    var rows: seq<PredictionRow>

    constructor (initial: seq<PredictionRow>)
      ensures rows == initial
    {
      rows := initial;
    }

    /** The update of the fixture's PUBLISH rows. */
    method ReplacePublished(fixtureId: int)
      modifies this
      ensures rows == Replaced(old(rows), fixtureId)
    {
      var updated: seq<PredictionRow> := [];
      for i := 0 to |rows|
        invariant updated == Replaced(rows[..i], fixtureId)
      {
        assert rows[..i + 1][..i] == rows[..i];
        var row := rows[i];
        if row.fixtureId == fixtureId && row.decision == Publish {
          row := row.(decision := Block, reason := Some(ReplacedByNewRun));
        }
        updated := updated + [row];
      }
      assert rows[..|rows|] == rows;
      rows := updated;
    }

    method Insert(added: seq<PredictionRow>)
      modifies this
      ensures rows == old(rows) + added
    {
      rows := rows + added;
    }
  }

  /** The body of the fixture loop, with the counter increments it makes. */
  method ProcessFixture(store: PredictionStore, f: Fixture, src: Sources) returns (step: Step)
    requires Elo.Positive(src.pow10)
    modifies store
    ensures step == StepOf(f, src)
    ensures store.rows == StepRows(old(store.rows), f.id, step)
  {
    var homeTeam := FindTeam(f.participants, "home", f.homeTeamId);
    var awayTeam := FindTeam(f.participants, "away", f.awayTeamId);
    if homeTeam.None? || awayTeam.None? {
      return Skipped;
    }
    var home, away := homeTeam.value, awayTeam.value;
    var homeHistory, awayHistory := src.history(home.id), src.history(away.id);
    if |homeHistory| < HistoryMatches || |awayHistory| < HistoryMatches {
      store.ReplacePublished(f.id);
      store.Insert([InsufficientHistoryRow(f.id)]);
      return NoHistory;
    }
    var leagueAvg := src.leagueAvg(f.leagueId);
    var hStats := GetStats(homeHistory, home.id);
    var aStats := GetStats(awayHistory, away.id);
    var goals := ExpectedGoalsFor(leagueAvg, hStats, aStats);
    var poisson := Poisson.CalculateProbabilities(goals.lambdaHome, goals.lambdaAway, src.exp);
    var homeElo := GetElo(homeHistory, home.id);
    var awayElo := GetElo(awayHistory, away.id);
    var eloProbs := Elo.GetMatchProbabilities(homeElo as real, awayElo as real, EngineDrawRate, src.exp, src.pow10);
    var evaluations := BuildEvaluations(eloProbs, poisson);
    assert evaluations == FixtureEvaluations(f.leagueId, home.id, away.id, src);
    var d := Decide(f.id, evaluations, src.averages(f.id));
    step := Decided(d);
    if |d.rows| > 0 {
      store.ReplacePublished(f.id);
      store.Insert(d.rows);
    }
  }

  /** The fixture loop. */
  method ProcessFixtures(store: PredictionStore, fixtures: seq<Fixture>, diag0: Diagnostics, src: Sources)
    returns (diag: Diagnostics)
    requires Elo.Positive(src.pow10)
    modifies store
    ensures (store.rows, diag) == RunFold(old(store.rows), diag0, fixtures, src)
  {
    diag := diag0;
    ghost var rows0 := store.rows;
    for i := 0 to |fixtures|
      invariant (store.rows, diag) == RunFold(rows0, diag0, fixtures[..i], src)
    {
      assert fixtures[..i + 1][..i] == fixtures[..i];
      var step := ProcessFixture(store, fixtures[i], src);
      diag := StepDiagnostics(diag, step);
    }
    assert fixtures[..|fixtures|] == fixtures;
  }

  /**
   * `runPredictionEngine` on fetched SportMonks fixtures `sm` (absent when the
   * fetch failed) and local fixture rows `local` (absent when the query failed).
   */
  method RunPredictionEngine(store: PredictionStore, sm: Option<seq<Fixture>>, local: Option<seq<LocalFixture>>,
                             now: int, src: Sources) returns (diagnostics: Diagnostics)
    requires Elo.Positive(src.pow10)
    requires OnePublishPerFixture(store.rows)
    modifies store
    ensures (store.rows, diagnostics) == Run(old(store.rows), sm, local, now, src)
    ensures OnePublishPerFixture(store.rows)
    ensures diagnostics.found == |FixturesToProcess(sm, local, now)|
    ensures diagnostics.published <= diagnostics.processed <= MaxFixturesPerRun
  {
    RunFacts(store.rows, sm, local, now, src);
    var smFixtures := sm.GetOr([]);
    var fixturesToProcess := Upcoming(smFixtures, now);
    if |fixturesToProcess| == 0 && local.Some? {
      var localFixtures := LocalQuery(local.value, now);
      if |localFixtures| > 0 {
        fixturesToProcess := localFixtures;
      }
    }
    var found := |fixturesToProcess|;
    fixturesToProcess := fixturesToProcess[..MinNat(|fixturesToProcess|, MaxFixturesPerRun)];
    diagnostics := ProcessFixtures(store, fixturesToProcess, Diagnostics(found, 0, 0, 0), src);
  }
}
