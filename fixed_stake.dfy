/**
 * Fixed-percentage staking: 1.5% of the bankroll, halved while a REDUCED mode
 * is active. The mode is found by replaying the settled results oldest to
 * newest (index 0 is the oldest), with VOID entries removed first.
 */
module FixedStake {
  import opened Common
  import opened BettingTypes

  const BasePct: real := 0.015
  const ReducedMultiplier: real := 0.5

  datatype Mode = STANDARD | REDUCED

  datatype ReplayState = ReplayState(mode: Mode, streak: nat)

  predicate IsLoss(r: string) { r == "LOSS" || r == "LOST" }
  predicate IsWin(r: string) { r == "WIN" || r == "WON" }

  /** The history without its VOID entries, order kept. */
  function NonVoid(s: seq<string>): (r: seq<string>)
    ensures |r| <= |s|
    ensures forall i :: 0 <= i < |r| ==> r[i] != "VOID"
  {
    if s == [] then []
    else NonVoid(s[..|s| - 1]) + (if s[|s| - 1] == "VOID" then [] else [s[|s| - 1]])
  }

  function CountWins(w: seq<string>): nat {
    if w == [] then 0 else CountWins(w[..|w| - 1]) + (if IsWin(w[|w| - 1]) then 1 else 0)
  }

  /** The window of up to three results ending at the last one. */
  function LastWindow(s: seq<string>): seq<string> {
    s[if |s| >= 3 then |s| - 3 else 0..]
  }

  /** One replay step: the entry `r` is processed, `window` is the window ending at it. */
  function Step(prev: ReplayState, r: string, window: seq<string>): ReplayState {
    var streak := if IsLoss(r) then prev.streak + 1 else if IsWin(r) then 0 else prev.streak;
    var mode := if streak >= 3 then REDUCED else prev.mode;
    var mode' := if mode == REDUCED && CountWins(window) >= 2 then STANDARD else mode;
    ReplayState(mode', streak)
  }

  lemma StepStreak(prev: ReplayState, r: string, window: seq<string>)
    ensures Step(prev, r, window).streak <= prev.streak + 1
    ensures IsWin(r) ==> Step(prev, r, window).streak == 0
  {
  }

  /** Mode and loss streak after processing every entry of `s` in order. */
  function Replay(s: seq<string>): ReplayState {
    if s == [] then ReplayState(STANDARD, 0)
    else Step(Replay(s[..|s| - 1]), s[|s| - 1], LastWindow(s))
  }

  function FloorToCent(x: real): (c: real)
    ensures c <= x < c + 0.01
  {
    ((x * 100.0).Floor as real) / 100.0
  }

  /** The recommendation the replay gives; the caller-supplied loss counter is only echoed. */
  function FixedStakeOf(bankroll: real, consecutiveLosses: int, lastSettledResults: seq<string>): FixedStakeResult {
    var reduced := Replay(NonVoid(lastSettledResults)).mode == REDUCED;
    var pct := if reduced then BasePct * ReducedMultiplier else BasePct;
    FixedStakeResult(FloorToCent(bankroll * pct), pct, reduced, bankroll, consecutiveLosses)
  }

  method CalculateFixedStake(bankroll: real, consecutiveLosses: int, lastSettledResults: seq<string>)
    returns (r: FixedStakeResult)
    ensures r == FixedStakeOf(bankroll, consecutiveLosses, lastSettledResults)
  {
    var results := NonVoid(lastSettledResults);
    var currentState := STANDARD;
    var currentStreak: nat := 0;
    for i := 0 to |results|
      invariant Replay(results[..i]) == ReplayState(currentState, currentStreak)
    {
      var window := results[if i >= 2 then i - 2 else 0..i + 1];
      ReplayPrefix(results, i);
      currentState, currentStreak := ApplyResult(currentState, currentStreak, results[i], window);
    }
    assert results[..|results|] == results;
    var pct := if currentState == REDUCED then BasePct * ReducedMultiplier else BasePct;
    var stake := bankroll * pct;
    r := FixedStakeResult(FloorToCent(stake), pct, currentState == REDUCED, bankroll, consecutiveLosses);
  }

  /** Replaying one entry more: the window ending at entry `i` is at most three entries long. */
  lemma ReplayPrefix(s: seq<string>, i: nat)
    requires i < |s|
    ensures Replay(s[..i + 1]) == Step(Replay(s[..i]), s[i], s[if i >= 2 then i - 2 else 0..i + 1])
  {
    assert s[..i + 1][..i] == s[..i];
    assert s[if i >= 2 then i - 2 else 0..i + 1] == LastWindow(s[..i + 1]);
  }

  /** The body of the replay loop for one result `res`, with `window` the results ending at it. */
  method ApplyResult(state: Mode, streak: nat, res: string, window: seq<string>)
    returns (state': Mode, streak': nat)
    ensures ReplayState(state', streak') == Step(ReplayState(state, streak), res, window)
  {
    state', streak' := state, streak;
    if IsLoss(res) {
      streak' := streak' + 1;
    } else if IsWin(res) {
      streak' := 0;
    }
    if streak' >= 3 {
      state' := REDUCED;
    }
    if state' == REDUCED {
      var winsInWindow := CountWins(window);
      if winsInWindow >= 2 {
        state' := STANDARD;
      }
    }
  }

  /** The stake is 1.5% or 0.75% of the bankroll, floored to the cent. */
  lemma FixedStakeShape(bankroll: real, c: int, h: seq<string>)
    ensures var r := FixedStakeOf(bankroll, c, h);
      && (r.pct == 0.015 || r.pct == 0.0075)
      && (r.isReduced <==> r.pct == 0.0075)
      && (r.isReduced <==> Replay(NonVoid(h)).mode == REDUCED)
      && 0.0 <= bankroll * r.pct - r.stake < 0.01
      && r.bankroll == bankroll && r.consecutiveLosses == c
  {
  }

  lemma {:induction false} NonVoidConcat(a: seq<string>, b: seq<string>)
    ensures NonVoid(a + b) == NonVoid(a) + NonVoid(b)
    decreases |b|
  {
    if b == [] {
      assert a + b == a;
    } else {
      assert (a + b)[..|a + b| - 1] == a + b[..|b| - 1];
      NonVoidConcat(a, b[..|b| - 1]);
    }
  }

  /** Inserting a VOID anywhere in the history changes nothing. */
  lemma VoidIsIgnored(bankroll: real, consecutiveLosses: int, before: seq<string>, after: seq<string>)
    ensures FixedStakeOf(bankroll, consecutiveLosses, before + ["VOID"] + after)
         == FixedStakeOf(bankroll, consecutiveLosses, before + after)
  {
    VoidDropped(before, after);
  }

  lemma VoidDropped(before: seq<string>, after: seq<string>)
    ensures NonVoid(before + ["VOID"] + after) == NonVoid(before + after)
  {
    var v: seq<string> := ["VOID"];
    assert NonVoid(v) == [] by {
      assert v[..0] == [];
    }
    NonVoidConcat(before + v, after);
    NonVoidConcat(before, v);
    NonVoidConcat(before, after);
  }

  /** The loss counter passed by the caller has no influence on the stake or the mode. */
  lemma LossCounterIsOnlyEchoed(bankroll: real, c1: int, c2: int, h: seq<string>)
    ensures FixedStakeOf(bankroll, c1, h).stake == FixedStakeOf(bankroll, c2, h).stake
    ensures FixedStakeOf(bankroll, c1, h).isReduced == FixedStakeOf(bankroll, c2, h).isReduced
  {
  }

  /** Strings other than LOSS/LOST/WIN/WON (PUSH, say) neither extend nor reset the streak. */
  lemma NeutralResultKeepsStreak(s: seq<string>, x: string)
    requires !IsLoss(x) && !IsWin(x)
    ensures Replay(s + [x]).streak == Replay(s).streak
  {
    assert (s + [x])[..|s|] == s;
  }

  /** A win d entries back from the end bounds the current streak by d. */
  lemma {:induction false} StreakBoundedByRecentWin(s: seq<string>, d: nat)
    requires d < |s| && IsWin(s[|s| - 1 - d])
    ensures Replay(s).streak <= d
  {
    var p := s[..|s| - 1];
    var last := s[|s| - 1];
    StepStreak(Replay(p), last, LastWindow(s));
    if d > 0 {
      assert p[|p| - 1 - (d - 1)] == s[|s| - 1 - d];
      StreakBoundedByRecentWin(p, d - 1);
    }
  }

  lemma {:induction false} NoWinsCountZero(w: seq<string>)
    requires forall i :: 0 <= i < |w| ==> !IsWin(w[i])
    ensures CountWins(w) == 0
  {
    if w != [] {
      NoWinsCountZero(w[..|w| - 1]);
    }
  }

  /** Whenever the running streak reaches three the mode is REDUCED: the window then holds no win. */
  lemma StreakOfThreeMeansReduced(s: seq<string>)
    requires Replay(s).streak >= 3
    ensures Replay(s).mode == REDUCED
  {
    var w := LastWindow(s);
    forall i | 0 <= i < |w| ensures !IsWin(w[i]) {
      var d := |w| - 1 - i;
      assert w[i] == s[|s| - 1 - d];
      if IsWin(w[i]) {
        StreakBoundedByRecentWin(s, d);
      }
    }
    NoWinsCountZero(w);
  }

  /** Three trailing losses (after removing VOIDs) always give the reduced stake. */
  lemma ThreeTrailingLossesReduce(bankroll: real, c: int, h: seq<string>)
    requires var s := NonVoid(h); |s| >= 3 && IsLoss(s[|s| - 1]) && IsLoss(s[|s| - 2]) && IsLoss(s[|s| - 3])
    ensures FixedStakeOf(bankroll, c, h).isReduced
    ensures FixedStakeOf(bankroll, c, h).pct == 0.0075
  {
    var s := NonVoid(h);
    var n := |s|;
    assert s[..n][..n - 1] == s[..n - 1];
    assert s[..n - 1][..n - 2] == s[..n - 2];
    assert s[..n - 2][..n - 3] == s[..n - 3];
    assert s[..n] == s;
    assert Replay(s[..n - 2]).streak >= 1;
    assert Replay(s[..n - 1]).streak >= 2;
    assert Replay(s).streak >= 3;
    StreakOfThreeMeansReduced(s);
  }

  /** REDUCED turns back to STANDARD only at an entry whose window holds at least two wins. */
  lemma RecoveryNeedsTwoWins(s: seq<string>, x: string)
    requires Replay(s).mode == REDUCED && Replay(s + [x]).mode == STANDARD
    ensures CountWins(LastWindow(s + [x])) >= 2
  {
    assert (s + [x])[..|s|] == s;
  }

  lemma {:induction false} NoVoidUnchanged(s: seq<string>)
    requires forall i :: 0 <= i < |s| ==> s[i] != "VOID"
    ensures NonVoid(s) == s
  {
    if s != [] {
      NoVoidUnchanged(s[..|s| - 1]);
    }
  }

  lemma ThreeLossesScenario(bankroll: real)
    ensures FixedStakeOf(bankroll, 3, ["LOSS", "LOSS", "LOSS"]).isReduced
  {
    ThreeTrailingLossesReduce(bankroll, 3, ["LOSS", "LOSS", "LOSS"]);
  }

  lemma RecoveryScenario(bankroll: real)
    ensures !FixedStakeOf(bankroll, 0, ["LOSS", "LOSS", "LOSS", "WIN", "WIN"]).isReduced
    ensures FixedStakeOf(bankroll, 0, ["LOSS", "LOSS", "LOSS", "WIN", "WIN"]).pct == 0.015
  {
    var h := ["LOSS", "LOSS", "LOSS", "WIN", "WIN"];
    NoVoidUnchanged(h);
    assert LastWindow(h) == ["LOSS", "WIN", "WIN"];
    assert CountWins(["LOSS", "WIN", "WIN"]) == 2 by {
      assert ["LOSS", "WIN", "WIN"][..2] == ["LOSS", "WIN"];
      assert ["LOSS", "WIN"][..1] == ["LOSS"];
    }
  }
}
