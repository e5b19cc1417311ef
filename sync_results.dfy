/**
 * Settling published predictions from final scores: the pure settlement rule,
 * the finished-state test, score extraction, and the sync job that fetches
 * fixtures in batches, records final scores and settles predictions. The
 * provider is the `fetch` parameter (None is a failed request); the store's
 * write failures are given as sets of ids.
 */
module SyncResults {
  import opened Common
  import opened Markets

  datatype Settlement = Won | Lost | Push

  /**
   * One entry of a fixture's `scores` list; `participant` is absent when the
   * entry has no `score` object, `goals` is absent when null or undefined.
   */
  datatype ScoreEntry = ScoreEntry(participant: Option<string>, description: string, goals: Option<int>)

  /** A fixture as the provider returns it (a missing `scores` list is the empty list). */
  datatype ApiFixture = ApiFixture(id: int, stateId: int, scores: seq<ScoreEntry>)

  datatype Scores = Scores(home: Option<int>, away: Option<int>)

  /** A prediction row with the columns the job reads. */
  datatype PredictionRow = PredictionRow(
    id: nat, fixtureId: int, market: string, selection: string, line: Option<real>,
    decision: string, outcomeSet: bool, kickoffAt: int)

  datatype SyncError =
    | FetchPredictionsFailed
    | ProviderBatchFailed(batchNumber: nat)
    | FixtureUpdateFailed(fixtureId: int)
    | SettleFailed(predictionId: nat)

  datatype FixtureUpdate = FixtureUpdate(fixtureId: int, home: int, away: int)

  datatype SettledPrediction = SettledPrediction(predictionId: nat, outcome: Settlement)

  datatype SyncReport = SyncReport(
    fixturesUpdated: nat, predictionsSettled: nat, errors: seq<SyncError>,
    updates: seq<FixtureUpdate>, settled: seq<SettledPrediction>)

  const FinishedStates: seq<int> := [5, 7, 8]
  const BatchSize: nat := 50

  // ------------------------------------------------------------ pure parts

  /** The settlement of one prediction from a final score; total over every market string. */
  function SettlePrediction(market: string, selection: string, line: Option<real>, home: int, away: int): Settlement {
    var totalGoals := home + away;
    var bttsResult := home > 0 && away > 0;
    if market == OneXTwo then
      if selection == "HOME" && home > away then Won
      else if selection == "DRAW" && home == away then Won
      else if selection == "AWAY" && away > home then Won
      else Lost
    else if market == Btts then
      if selection == "YES" && bttsResult then Won
      else if selection == "NO" && !bttsResult then Won
      else Lost
    else if market == OverUnder then
      if line.None? then Lost
      else if totalGoals as real == line.value then Push
      else if selection == "OVER" && totalGoals as real > line.value then Won
      else if selection == "UNDER" && (totalGoals as real) < line.value then Won
      else Lost
    else Lost
  }

  /** For every score exactly one 1X2 selection wins (the three conditions are a trichotomy) and none pushes. */
  lemma OneXTwoExactlyOneWins(home: int, away: int, line: Option<real>)
    ensures SettlePrediction(OneXTwo, "HOME", line, home, away) == Won <==> home > away
    ensures SettlePrediction(OneXTwo, "DRAW", line, home, away) == Won <==> home == away
    ensures SettlePrediction(OneXTwo, "AWAY", line, home, away) == Won <==> away > home
    ensures forall sel :: SettlePrediction(OneXTwo, sel, line, home, away) != Push
  {
  }

  /** YES wins exactly when both teams scored, NO exactly when not; BTTS never pushes. */
  lemma BttsExactlyOneWins(home: int, away: int, line: Option<real>)
    ensures SettlePrediction(Btts, "YES", line, home, away) == Won <==> home > 0 && away > 0
    ensures SettlePrediction(Btts, "NO", line, home, away) == Won <==> !(home > 0 && away > 0)
    ensures SettlePrediction(Btts, "YES", line, home, away) != SettlePrediction(Btts, "NO", line, home, away)
    ensures forall sel :: SettlePrediction(Btts, sel, line, home, away) != Push
  {
  }

  /** Over/under: a total on the line pushes; otherwise OVER wins above it and UNDER below it. */
  lemma OverUnderRule(selection: string, line: real, home: int, away: int)
    ensures (home + away) as real == line ==> SettlePrediction(OverUnder, selection, Some(line), home, away) == Push
    ensures (home + away) as real != line ==>
      (SettlePrediction(OverUnder, "OVER", Some(line), home, away) == Won <==> (home + away) as real > line)
    ensures (home + away) as real != line ==>
      (SettlePrediction(OverUnder, "UNDER", Some(line), home, away) == Won <==> (home + away) as real < line)
    ensures (home + away) as real != line && selection != "OVER" && selection != "UNDER" ==>
      SettlePrediction(OverUnder, selection, Some(line), home, away) == Lost
  {
  }

  /** The engine's half-goal lines can never push. */
  lemma HalfLinesNeverPush(selection: string, line: real, home: int, away: int)
    requires line in OverUnderLines
    ensures SettlePrediction(OverUnder, selection, Some(line), home, away) != Push
  {
  }

  /** A null OU line, an unknown market, or an unrecognised selection settles as lost. */
  lemma UnmatchedSettlesLost(market: string, selection: string, line: Option<real>, home: int, away: int)
    ensures SettlePrediction(OverUnder, selection, None, home, away) == Lost
    ensures market != OneXTwo && market != Btts && market != OverUnder ==>
      SettlePrediction(market, selection, line, home, away) == Lost
    ensures selection != "HOME" && selection != "DRAW" && selection != "AWAY" ==>
      SettlePrediction(OneXTwo, selection, line, home, away) == Lost
    ensures selection != "YES" && selection != "NO" ==>
      SettlePrediction(Btts, selection, line, home, away) == Lost
  {
  }

  function IsFinishedState(f: ApiFixture): (r: bool)
    ensures r <==> f.stateId == 5 || f.stateId == 7 || f.stateId == 8
  {
    f.stateId in FinishedStates
  }

  predicate IsCurrentFor(e: ScoreEntry, side: string) {
    e.participant == Some(side) && e.description == "CURRENT"
  }

  /** The goals of the FIRST entry for `side` described CURRENT, if there is one and it has goals. */
  function CurrentGoals(scores: seq<ScoreEntry>, side: string): (g: Option<int>)
    ensures g.Some? ==> exists i :: 0 <= i < |scores| && IsCurrentFor(scores[i], side)
                               && scores[i].goals == g
                               && forall j :: 0 <= j < i ==> !IsCurrentFor(scores[j], side)
    ensures (forall i :: 0 <= i < |scores| ==> !IsCurrentFor(scores[i], side)) ==> g.None?
  {
    if scores == [] then None
    else if IsCurrentFor(scores[0], side) then scores[0].goals
    else
      var g := CurrentGoals(scores[1..], side);
      assert g.Some? ==> exists i :: 1 <= i < |scores| && IsCurrentFor(scores[i], side)
                               && scores[i].goals == g
                               && forall j :: 0 <= j < i ==> !IsCurrentFor(scores[j], side) by {
        if g.Some? {
          var k :| 0 <= k < |scores[1..]| && IsCurrentFor(scores[1..][k], side) && scores[1..][k].goals == g
                   && forall j :: 0 <= j < k ==> !IsCurrentFor(scores[1..][j], side);
          assert forall j :: 0 <= j < k + 1 ==> !IsCurrentFor(scores[j], side) by {
            forall j | 0 <= j < k + 1 ensures !IsCurrentFor(scores[j], side) {
              if j > 0 { assert scores[j] == scores[1..][j - 1]; }
            }
          }
          assert scores[k + 1] == scores[1..][k];
        }
      }
      g
  }

  function ExtractScores(f: ApiFixture): Scores {
    Scores(CurrentGoals(f.scores, "home"), CurrentGoals(f.scores, "away"))
  }

  /** A later CURRENT entry never overrides the first one, even when the first has no goals. */
  lemma FirstCurrentEntryDecides(rest: seq<ScoreEntry>, side: string, goals: Option<int>)
    ensures CurrentGoals([ScoreEntry(Some(side), "CURRENT", goals)] + rest, side) == goals
  {
    assert ([ScoreEntry(Some(side), "CURRENT", goals)] + rest)[0] == ScoreEntry(Some(side), "CURRENT", goals);
  }

  // ------------------------------------------------------------ the job

  /** The query: published predictions without outcome whose fixture kicked off over two hours ago. */
  predicate IsUnsettled(p: PredictionRow, now: int) {
    p.decision == "PUBLISH" && !p.outcomeSet && p.kickoffAt < now - 2 * HourMs
  }

  function SelectUnsettled(rows: seq<PredictionRow>, now: int): (r: seq<PredictionRow>)
    ensures |r| <= |rows|
    ensures forall i :: 0 <= i < |r| ==> IsUnsettled(r[i], now) && r[i] in rows
    ensures forall i :: 0 <= i < |rows| && IsUnsettled(rows[i], now) ==> rows[i] in r
  {
    if rows == [] then []
    else
      var p := SelectUnsettled(rows[..|rows| - 1], now);
      var last := rows[|rows| - 1];
      if IsUnsettled(last, now) then p + [last] else p
  }

  function FixtureIdsOf(preds: seq<PredictionRow>): (ids: seq<int>)
    ensures |ids| == |preds|
    ensures forall i :: 0 <= i < |preds| ==> ids[i] == preds[i].fixtureId
  {
    if preds == [] then [] else FixtureIdsOf(preds[..|preds| - 1]) + [preds[|preds| - 1].fixtureId]
  }

  function NumBatches(n: nat): nat {
    (n + BatchSize - 1) / BatchSize
  }

  /** The k-th batch: ids[50k .. min(50k + 50, n)]. */
  function BatchAt(ids: seq<int>, k: nat): seq<int>
    requires k < NumBatches(|ids|)
  {
    var lo := k * BatchSize;
    var hi := if lo + BatchSize <= |ids| then lo + BatchSize else |ids|;
    ids[lo..hi]
  }

  function Batches(ids: seq<int>): (bs: seq<seq<int>>)
    ensures |bs| == NumBatches(|ids|)
    ensures forall k :: 0 <= k < |bs| ==> bs[k] == BatchAt(ids, k)
  {
    seq(NumBatches(|ids|), k requires 0 <= k < NumBatches(|ids|) => BatchAt(ids, k))
  }

  lemma BatchBounds(ids: seq<int>, k: nat)
    requires k < NumBatches(|ids|)
    ensures 1 <= |BatchAt(ids, k)| <= BatchSize
    ensures k * BatchSize < |ids|
  {
  }

  /** The first k batches, concatenated, are the first min(50k, n) ids. */
  lemma {:induction false} BatchPrefix(ids: seq<int>, k: nat)
    requires k <= NumBatches(|ids|)
    ensures Flatten(Batches(ids)[..k]) == ids[..if k * BatchSize <= |ids| then k * BatchSize else |ids|]
  {
    if k > 0 {
      BatchPrefix(ids, k - 1);
      BatchBounds(ids, k - 1);
      assert Batches(ids)[..k][..k - 1] == Batches(ids)[..k - 1];
      var lo := (k - 1) * BatchSize;
      assert lo <= |ids|;
      var hi := if lo + BatchSize <= |ids| then lo + BatchSize else |ids|;
      assert ids[..lo] + ids[lo..hi] == ids[..hi];
    }
  }

  /** The batches, concatenated in order, are exactly the ids, each batch holding 1 to 50 of them. */
  lemma BatchesCoverIds(ids: seq<int>)
    ensures Flatten(Batches(ids)) == ids
    ensures forall k :: 0 <= k < |Batches(ids)| ==> 1 <= |Batches(ids)[k]| <= BatchSize
  {
    BatchPrefix(ids, NumBatches(|ids|));
    assert Batches(ids)[..NumBatches(|ids|)] == Batches(ids);
    forall k | 0 <= k < |Batches(ids)| ensures 1 <= |Batches(ids)[k]| <= BatchSize {
      BatchBounds(ids, k);
    }
  }

  /** The fixture ids the job requests: each distinct id once, and all of them. */
  lemma RequestedIdsOnceEach(preds: seq<PredictionRow>)
    ensures var ids := Distinct(FixtureIdsOf(preds));
      && Flatten(Batches(ids)) == ids
      && NoDuplicates(ids)
      && (forall i :: 0 <= i < |preds| ==> preds[i].fixtureId in ids)
  {
    var ids := Distinct(FixtureIdsOf(preds));
    BatchesCoverIds(ids);
    DistinctHasNoDuplicates(FixtureIdsOf(preds));
    forall i | 0 <= i < |preds| ensures preds[i].fixtureId in ids {
      assert FixtureIdsOf(preds)[i] == preds[i].fixtureId;
    }
  }

  /** The fixtures the provider returns for the first batches (a failed batch adds none). */
  function Fetched(batches: seq<seq<int>>, fetch: seq<int> -> Option<seq<ApiFixture>>): seq<ApiFixture> {
    if batches == [] then []
    else Fetched(batches[..|batches| - 1], fetch) + fetch(batches[|batches| - 1]).GetOr([])
  }

  function BatchErrors(batches: seq<seq<int>>, fetch: seq<int> -> Option<seq<ApiFixture>>): seq<SyncError> {
    if batches == [] then []
    else BatchErrors(batches[..|batches| - 1], fetch)
         + (if fetch(batches[|batches| - 1]).None? then [ProviderBatchFailed(|batches|)] else [])
  }

  /** Id to fixture; a later fixture with the same id replaces an earlier one. */
  function FixtureMap(fs: seq<ApiFixture>): map<int, ApiFixture> {
    if fs == [] then map[] else FixtureMap(fs[..|fs| - 1])[fs[|fs| - 1].id := fs[|fs| - 1]]
  }

  /** The last fixture fetched with an id is the one the map holds for it. */
  lemma {:induction false} FixtureMapHoldsLast(fs: seq<ApiFixture>, i: nat)
    requires i < |fs| && forall j :: i < j < |fs| ==> fs[j].id != fs[i].id
    ensures fs[i].id in FixtureMap(fs) && FixtureMap(fs)[fs[i].id] == fs[i]
  {
    if i < |fs| - 1 {
      var pre := fs[..|fs| - 1];
      forall j | i < j < |pre|
        ensures pre[j].id != pre[i].id
      {
        assert pre[j] == fs[j];
      }
      FixtureMapHoldsLast(pre, i);
    }
  }

  /** The map holds fetched fixtures only, each under its own id. */
  lemma {:induction false} FixtureMapOnlyFetched(fs: seq<ApiFixture>, id: int)
    requires id in FixtureMap(fs)
    ensures exists i :: 0 <= i < |fs| && fs[i].id == id && FixtureMap(fs)[id] == fs[i]
  {
    var pre := fs[..|fs| - 1];
    if fs[|fs| - 1].id != id {
      FixtureMapOnlyFetched(pre, id);
      var i :| 0 <= i < |pre| && pre[i].id == id && FixtureMap(pre)[id] == pre[i];
      assert pre[i] == fs[i];
    }
  }

  /** A fixture's final score is recorded when it is finished and both scores are present. */
  predicate HasFinalScore(f: ApiFixture) {
    IsFinishedState(f) && ExtractScores(f).home.Some? && ExtractScores(f).away.Some?
  }

  function FinalUpdate(f: ApiFixture): FixtureUpdate
    requires HasFinalScore(f)
  {
    FixtureUpdate(f.id, ExtractScores(f).home.value, ExtractScores(f).away.value)
  }

  /** The fixture writes that succeed, in order. */
  function Updates(fs: seq<ApiFixture>, updateFails: set<int>): (r: seq<FixtureUpdate>)
    ensures |r| <= |fs|
  {
    if fs == [] then []
    else
      var f := fs[|fs| - 1];
      Updates(fs[..|fs| - 1], updateFails)
      + (if HasFinalScore(f) && f.id !in updateFails then [FinalUpdate(f)] else [])
  }

  /** Soundness: every fixture write is the final score of a fetched fixture that is finished, has both scores and whose write succeeds. */
  lemma {:induction false} UpdatesSound(fs: seq<ApiFixture>, updateFails: set<int>, k: nat)
    requires k < |Updates(fs, updateFails)|
    ensures exists i ::
              0 <= i < |fs| && HasFinalScore(fs[i]) && fs[i].id !in updateFails
              && Updates(fs, updateFails)[k] == FinalUpdate(fs[i])
  {
    var pre := fs[..|fs| - 1];
    var last := |fs| - 1;
    if k < |Updates(pre, updateFails)| {
      UpdatesSound(pre, updateFails, k);
      var i :| 0 <= i < |pre| && HasFinalScore(pre[i]) && pre[i].id !in updateFails
        && Updates(pre, updateFails)[k] == FinalUpdate(pre[i]);
      assert pre[i] == fs[i];
    } else {
      assert HasFinalScore(fs[last]) && fs[last].id !in updateFails;
      assert Updates(fs, updateFails)[k] == FinalUpdate(fs[last]);
    }
  }

  /** Completeness: a fetched fixture that is finished, has both scores and whose write succeeds is written. */
  lemma {:induction false} UpdatesComplete(fs: seq<ApiFixture>, updateFails: set<int>, i: nat)
    requires i < |fs| && HasFinalScore(fs[i]) && fs[i].id !in updateFails
    ensures FinalUpdate(fs[i]) in Updates(fs, updateFails)
  {
    var pre := fs[..|fs| - 1];
    if i < |fs| - 1 {
      assert pre[i] == fs[i];
      UpdatesComplete(pre, updateFails, i);
    }
  }

  function UpdateErrors(fs: seq<ApiFixture>, updateFails: set<int>): seq<SyncError> {
    if fs == [] then []
    else
      var f := fs[|fs| - 1];
      UpdateErrors(fs[..|fs| - 1], updateFails)
      + (if HasFinalScore(f) && f.id in updateFails then [FixtureUpdateFailed(f.id)] else [])
  }

  /** The outcome of one prediction, if its fixture was fetched, is finished and has both scores. */
  function OutcomeOf(p: PredictionRow, m: map<int, ApiFixture>): Option<Settlement> {
    if p.fixtureId in m && HasFinalScore(m[p.fixtureId]) then
      var sc := ExtractScores(m[p.fixtureId]);
      Some(SettlePrediction(p.market, p.selection, p.line, sc.home.value, sc.away.value))
    else None
  }

  /** The settlement written for `p`: it has an outcome and its write succeeds. */
  function SettledOf(p: PredictionRow, m: map<int, ApiFixture>, settleFails: set<nat>): Option<SettledPrediction> {
    var o := OutcomeOf(p, m);
    if o.Some? && p.id !in settleFails then Some(SettledPrediction(p.id, o.value)) else None
  }

  /** The error reported for `p`: it has an outcome but its write fails. */
  function SettleErrorOf(p: PredictionRow, m: map<int, ApiFixture>, settleFails: set<nat>): Option<SyncError> {
    if OutcomeOf(p, m).Some? && p.id in settleFails then Some(SettleFailed(p.id)) else None
  }

  function SettleFn(m: map<int, ApiFixture>, settleFails: set<nat>): PredictionRow -> Option<SettledPrediction> {
    p => SettledOf(p, m, settleFails)
  }

  function SettleErrorFn(m: map<int, ApiFixture>, settleFails: set<nat>): PredictionRow -> Option<SyncError> {
    p => SettleErrorOf(p, m, settleFails)
  }

  /** The settlements written, in prediction order. */
  function Settlements(preds: seq<PredictionRow>, m: map<int, ApiFixture>, settleFails: set<nat>): (r: seq<SettledPrediction>)
    ensures |r| <= |preds|
  {
    Keep(preds, SettleFn(m, settleFails))
  }

  function SettleErrors(preds: seq<PredictionRow>, m: map<int, ApiFixture>, settleFails: set<nat>): seq<SyncError> {
    Keep(preds, SettleErrorFn(m, settleFails))
  }

  /** Soundness: every settlement belongs to a prediction whose fixture has a final score, with the rule's outcome. */
  lemma SettlementsSound(preds: seq<PredictionRow>, m: map<int, ApiFixture>, settleFails: set<nat>, k: nat)
    requires k < |Settlements(preds, m, settleFails)|
    ensures var s := Settlements(preds, m, settleFails)[k];
      exists j :: 0 <= j < |preds| && preds[j].id == s.predictionId && s.predictionId !in settleFails
        && preds[j].fixtureId in m && HasFinalScore(m[preds[j].fixtureId])
        && OutcomeOf(preds[j], m) == Some(s.outcome)
  {
    var f := SettleFn(m, settleFails);
    KeepSound(preds, f, k);
    var j :| 0 <= j < |preds| && f(preds[j]) == Some(Keep(preds, f)[k]);
    assert SettledOf(preds[j], m, settleFails) == Some(Settlements(preds, m, settleFails)[k]);
  }

  /** Completeness: a prediction with a final score whose write succeeds is settled. */
  lemma SettlementsComplete(preds: seq<PredictionRow>, m: map<int, ApiFixture>, settleFails: set<nat>, j: nat)
    requires j < |preds| && OutcomeOf(preds[j], m).Some? && preds[j].id !in settleFails
    ensures SettledPrediction(preds[j].id, OutcomeOf(preds[j], m).value) in Settlements(preds, m, settleFails)
  {
    KeepComplete(preds, SettleFn(m, settleFails), j);
  }

  // ------------------------------------------------------------ imperative phases

  /** Requests the ids batch by batch; a failed batch is reported by its 1-based number and skipped. */
  method FetchInBatches(ids: seq<int>, fetch: seq<int> -> Option<seq<ApiFixture>>)
    returns (apiFixtures: seq<ApiFixture>, errors: seq<SyncError>)
    ensures apiFixtures == Fetched(Batches(ids), fetch)
    ensures errors == BatchErrors(Batches(ids), fetch)
  {
    apiFixtures := [];
    errors := [];
    var bs := Batches(ids);
    var i := 0;
    var k := 0;
    while i < |ids|
      invariant k <= |bs| && i == k * BatchSize
      invariant k < |bs| <==> i < |ids|
      invariant apiFixtures == Fetched(bs[..k], fetch)
      invariant errors == BatchErrors(bs[..k], fetch)
    {
      BatchBounds(ids, k);
      var batch := ids[i..if i + BatchSize <= |ids| then i + BatchSize else |ids|];
      assert batch == bs[k];
      var batchResults := fetch(batch);
      assert bs[..k + 1][..k] == bs[..k];
      if batchResults.Some? {
        apiFixtures := apiFixtures + batchResults.value;
      } else {
        errors := errors + [ProviderBatchFailed(i / BatchSize + 1)];
      }
      i := i + BatchSize;
      k := k + 1;
    }
    assert bs[..k] == bs;
  }

  method BuildFixtureMap(fs: seq<ApiFixture>) returns (m: map<int, ApiFixture>)
    ensures m == FixtureMap(fs)
  {
    m := map[];
    for i := 0 to |fs|
      invariant m == FixtureMap(fs[..i])
    {
      m := m[fs[i].id := fs[i]];
      assert fs[..i + 1][..i] == fs[..i];
    }
    assert fs[..|fs|] == fs;
  }

  method UpdateFixtures(fs: seq<ApiFixture>, updateFails: set<int>)
    returns (fixturesUpdated: nat, updates: seq<FixtureUpdate>, errors: seq<SyncError>)
    ensures updates == Updates(fs, updateFails) && fixturesUpdated == |updates|
    ensures errors == UpdateErrors(fs, updateFails)
  {
    fixturesUpdated := 0;
    updates := [];
    errors := [];
    for i := 0 to |fs|
      invariant updates == Updates(fs[..i], updateFails) && fixturesUpdated == |updates|
      invariant errors == UpdateErrors(fs[..i], updateFails)
    {
      var f := fs[i];
      assert fs[..i + 1][..i] == fs[..i];
      assert Updates(fs[..i + 1], updateFails) == Updates(fs[..i], updateFails)
        + (if HasFinalScore(f) && f.id !in updateFails then [FinalUpdate(f)] else []);
      assert UpdateErrors(fs[..i + 1], updateFails) == UpdateErrors(fs[..i], updateFails)
        + (if HasFinalScore(f) && f.id in updateFails then [FixtureUpdateFailed(f.id)] else []);
      if !IsFinishedState(f) {
        continue;
      }
      var sc := ExtractScores(f);
      if sc.home.None? || sc.away.None? {
        continue;
      }
      if f.id in updateFails {
        errors := errors + [FixtureUpdateFailed(f.id)];
        continue;
      }
      updates := updates + [FixtureUpdate(f.id, sc.home.value, sc.away.value)];
      fixturesUpdated := fixturesUpdated + 1;
    }
    assert fs[..|fs|] == fs;
  }

  method SettleAll(preds: seq<PredictionRow>, m: map<int, ApiFixture>, settleFails: set<nat>)
    returns (predictionsSettled: nat, settled: seq<SettledPrediction>, errors: seq<SyncError>)
    ensures settled == Settlements(preds, m, settleFails) && predictionsSettled == |settled|
    ensures errors == SettleErrors(preds, m, settleFails)
  {
    predictionsSettled := 0;
    settled := [];
    errors := [];
    for i := 0 to |preds|
      invariant settled == Settlements(preds[..i], m, settleFails) && predictionsSettled == |settled|
      invariant errors == SettleErrors(preds[..i], m, settleFails)
    {
      KeepStep(preds, SettleFn(m, settleFails), i);
      KeepStep(preds, SettleErrorFn(m, settleFails), i);
      var written, failed := SettleOne(preds[i], m, settleFails);
      if failed.Some? {
        errors := errors + [failed.value];
      }
      if written.Some? {
        settled := settled + [written.value];
        predictionsSettled := predictionsSettled + 1;
      }
    }
    assert preds[..|preds|] == preds;
  }

  /** The loop body for one prediction: skipped, settled, or a failed write. */
  method SettleOne(p: PredictionRow, m: map<int, ApiFixture>, settleFails: set<nat>)
    returns (written: Option<SettledPrediction>, failed: Option<SyncError>)
    ensures written == SettledOf(p, m, settleFails) && failed == SettleErrorOf(p, m, settleFails)
  {
    written, failed := None, None;
    if p.fixtureId !in m || !IsFinishedState(m[p.fixtureId]) {
      return;
    }
    var sc := ExtractScores(m[p.fixtureId]);
    if sc.home.None? || sc.away.None? {
      return;
    }
    var outcome := SettlePrediction(p.market, p.selection, p.line, sc.home.value, sc.away.value);
    if p.id in settleFails {
      failed := Some(SettleFailed(p.id));
      return;
    }
    written := Some(SettledPrediction(p.id, outcome));
  }

  /**
   * The whole job. A failed prediction query reports one error and does nothing
   * else; otherwise the distinct fixture ids are fetched in batches, final scores
   * are recorded, and the predictions with a fetched, finished, scored fixture are settled.
   */
  method Sync(rows: Option<seq<PredictionRow>>, now: int, fetch: seq<int> -> Option<seq<ApiFixture>>,
              updateFails: set<int>, settleFails: set<nat>)
    returns (r: SyncReport)
    ensures rows.None? ==> r == SyncReport(0, 0, [FetchPredictionsFailed], [], [])
    ensures rows.Some? ==>
      var unsettled := SelectUnsettled(rows.value, now);
      var batches := Batches(Distinct(FixtureIdsOf(unsettled)));
      var api := Fetched(batches, fetch);
      && r.updates == Updates(api, updateFails)
      && r.settled == Settlements(unsettled, FixtureMap(api), settleFails)
      && r.errors == BatchErrors(batches, fetch) + UpdateErrors(api, updateFails)
                     + SettleErrors(unsettled, FixtureMap(api), settleFails)
      && r.fixturesUpdated == |r.updates| <= |api|
      && r.predictionsSettled == |r.settled| <= |unsettled|
  {
    if rows.None? {
      return SyncReport(0, 0, [FetchPredictionsFailed], [], []);
    }
    var unsettled := SelectUnsettled(rows.value, now);
    if |unsettled| == 0 {
      return SyncReport(0, 0, [], [], []);
    }
    var fixtureIds := Distinct(FixtureIdsOf(unsettled));
    var apiFixtures, batchErrors := FetchInBatches(fixtureIds, fetch);
    var fixtureMap := BuildFixtureMap(apiFixtures);
    var fixturesUpdated, updates, updateErrors := UpdateFixtures(apiFixtures, updateFails);
    var predictionsSettled, settled, settleErrors := SettleAll(unsettled, fixtureMap, settleFails);
    r := SyncReport(fixturesUpdated, predictionsSettled, batchErrors + updateErrors + settleErrors, updates, settled);
  }
}
