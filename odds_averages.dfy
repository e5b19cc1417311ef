/**
 * The averaging job: for one fixture, the recent whitelisted points are grouped
 * by market and line, each bookmaker gets one vote per selection, and a group's
 * rows are emitted only when every selection of it has an average.
 */
module OddsAverages {
  import opened Common
  import opened Markets
  import opened NormalizeOdds
  import opened OddsPoints

  datatype MarketConfig = MarketConfig(name: string, line: Option<real>, selections: seq<string>)

  /** 1X2, BTTS, then over/under at each supported line. */
  const Configs: seq<MarketConfig> := [
    MarketConfig(OneXTwo, None, OneXTwoSelections),
    MarketConfig(Btts, None, BttsSelections),
    MarketConfig(OverUnder, Some(1.5), OverUnderSelections),
    MarketConfig(OverUnder, Some(2.5), OverUnderSelections),
    MarketConfig(OverUnder, Some(3.5), OverUnderSelections)]

  datatype OddsAverage = OddsAverage(
    fixtureId: int,
    market: string,
    line: Option<real>,
    selection: string,
    avgOdds: real,
    countPoints: nat,
    windowEndUtc: int,
    source: string)

  // ------------------------------------------------------------ the query

  predicate InQuery(p: OddsPoint, fixtureId: int, windowStart: int) {
    p.fixtureId == fixtureId && p.bookmakerId.Some? && p.bookmakerId.value in Big5Bookmakers
    && p.tsUtc >= windowStart
  }

  /** The stored points of the fixture from a whitelisted bookmaker at or after `windowStart`. */
  function Query(stored: seq<OddsPoint>, fixtureId: int, windowStart: int): (r: seq<OddsPoint>)
    ensures |r| <= |stored|
    ensures forall i :: 0 <= i < |r| ==> InQuery(r[i], fixtureId, windowStart)
    ensures forall i :: 0 <= i < |stored| && InQuery(stored[i], fixtureId, windowStart) ==> stored[i] in r
  {
    if stored == [] then []
    else
      var rest := Query(stored[..|stored| - 1], fixtureId, windowStart);
      if InQuery(stored[|stored| - 1], fixtureId, windowStart) then rest + [stored[|stored| - 1]] else rest
  }

  predicate Whitelisted(s: seq<OddsPoint>) {
    forall i :: 0 <= i < |s| ==> s[i].bookmakerId.Some? && s[i].bookmakerId.value in Big5Bookmakers
  }

  /** The points one market group sees: SportMonks points of that market and line. */
  function GroupPoints(s: seq<OddsPoint>, cfg: MarketConfig): (r: seq<OddsPoint>)
    ensures |r| <= |s|
    ensures forall i :: 0 <= i < |r| ==> r[i].market == cfg.name && r[i].line == cfg.line
                                         && r[i].source == SportmonksSource
    ensures forall i :: 0 <= i < |s| && s[i].market == cfg.name && s[i].line == cfg.line
                          && s[i].source == SportmonksSource
                       ==> s[i] in r
    ensures Whitelisted(s) ==> Whitelisted(r)
  {
    if s == [] then []
    else
      var rest := GroupPoints(s[..|s| - 1], cfg);
      var p := s[|s| - 1];
      if p.market == cfg.name && p.line == cfg.line && p.source == SportmonksSource then rest + [p] else rest
  }

  function SelectionPoints(s: seq<OddsPoint>, selection: string): (r: seq<OddsPoint>)
    ensures |r| <= |s|
    ensures forall i :: 0 <= i < |r| ==> r[i].selection == selection
    ensures forall i :: 0 <= i < |s| && s[i].selection == selection ==> s[i] in r
    ensures Whitelisted(s) ==> Whitelisted(r)
  {
    if s == [] then []
    else
      var rest := SelectionPoints(s[..|s| - 1], selection);
      if s[|s| - 1].selection == selection then rest + [s[|s| - 1]] else rest
  }

  // ----------------------------------------------------- one vote per bookmaker

  /** `Number(bookmaker_id)`; a null id reads as 0. */
  function BidOf(p: OddsPoint): int {
    if p.bookmakerId.Some? then p.bookmakerId.value else 0
  }

  /** The time of the first point of `all` from `bid` priced `odds`, or 0 when there is none. */
  function FindTs(all: seq<OddsPoint>, bid: int, odds: real): int {
    if all == [] then 0
    else if BidOf(all[0]) == bid && all[0].oddsDecimal == odds then all[0].tsUtc
    else FindTs(all[1..], bid, odds)
  }

  /**
   * The vote of each bookmaker after the points `s` of `all`: a point replaces
   * the vote when there is none, when it is 0, or when the point is later than the
   * first point of `all` carrying the held price.
   */
  function LatestFold(all: seq<OddsPoint>, s: seq<OddsPoint>): map<int, real> {
    if s == [] then map[]
    else
      var m := LatestFold(all, s[..|s| - 1]);
      var p := s[|s| - 1];
      var bid := BidOf(p);
      if bid !in m || m[bid] == 0.0 || p.tsUtc > FindTs(all, bid, m[bid]) then m[bid := p.oddsDecimal] else m
  }

  function Bids(s: seq<OddsPoint>): (r: set<int>)
    ensures forall i :: 0 <= i < |s| ==> BidOf(s[i]) in r
  {
    if s == [] then {} else Bids(s[..|s| - 1]) + {BidOf(s[|s| - 1])}
  }

  /** Exactly the bookmakers with a point have a vote, and each vote is the price of one of its own points. */
  lemma {:induction false} LatestFoldVotes(all: seq<OddsPoint>, s: seq<OddsPoint>)
    ensures LatestFold(all, s).Keys == Bids(s)
    ensures forall b :: b in LatestFold(all, s) ==>
              exists i :: 0 <= i < |s| && BidOf(s[i]) == b && s[i].oddsDecimal == LatestFold(all, s)[b]
  {
    if s != [] {
      var init := s[..|s| - 1];
      LatestFoldVotes(all, init);
      var m := LatestFold(all, s);
      forall b | b in m
        ensures exists i :: 0 <= i < |s| && BidOf(s[i]) == b && s[i].oddsDecimal == m[b]
      {
        if b == BidOf(s[|s| - 1]) && m[b] == s[|s| - 1].oddsDecimal {
        } else {
          var i :| 0 <= i < |init| && BidOf(init[i]) == b && init[i].oddsDecimal == m[b];
          assert s[i] == init[i];
        }
      }
    }
  }

  /**
   * Where the intended reading breaks: a bookmaker priced 2.0 at 1 and again at
   * 4, and 3.0 at 3. The held 2.0 is dated by its first point, so the older 3.0
   * wins, although the latest point of the bookmaker is priced 2.0.
   */
  lemma LatestFoldMissesLatest()
    ensures var p1 := OddsPoint(1, Some(2), OneXTwo, "HOME", None, 2.0, 1, SportmonksSource);
      var p2 := p1.(tsUtc := 4);
      var p3 := p1.(oddsDecimal := 3.0, tsUtc := 3);
      var s := [p1, p2, p3];
      LatestFold(s, s) == map[2 := 3.0] && LatestPoint(s) == map[2 := p2]
  {
    var p1 := OddsPoint(1, Some(2), OneXTwo, "HOME", None, 2.0, 1, SportmonksSource);
    var p2 := p1.(tsUtc := 4);
    var p3 := p1.(oddsDecimal := 3.0, tsUtc := 3);
    var s := [p1, p2, p3];
    assert s[..2] == [p1, p2] && s[..2][..1] == [p1] && [p1][..0] == [];
    assert FindTs(s, 2, 2.0) == 1;
    assert LatestFold(s, [p1]) == map[2 := 2.0];
    assert LatestFold(s, [p1, p2]) == map[2 := 2.0];
    assert LatestPoint([p1]) == map[2 := p1];
    assert LatestPoint([p1, p2]) == map[2 := p2];
  }

  /** The intended vote: the latest point of each bookmaker, the first of equally late ones. */
  function LatestPoint(s: seq<OddsPoint>): map<int, OddsPoint> {
    if s == [] then map[]
    else
      var m := LatestPoint(s[..|s| - 1]);
      var p := s[|s| - 1];
      var bid := BidOf(p);
      if bid !in m || p.tsUtc > m[bid].tsUtc then m[bid := p] else m
  }

  /** Each bookmaker of `s` keeps one of its own points, and no point of it is later. */
  lemma {:induction false} LatestPointIsLatest(s: seq<OddsPoint>)
    ensures LatestPoint(s).Keys == Bids(s)
    ensures forall b :: b in LatestPoint(s) ==> BidOf(LatestPoint(s)[b]) == b && LatestPoint(s)[b] in s
    ensures forall i :: 0 <= i < |s| ==> BidOf(s[i]) in LatestPoint(s) && s[i].tsUtc <= LatestPoint(s)[BidOf(s[i])].tsUtc
  {
    if s != [] {
      var init := s[..|s| - 1];
      LatestPointIsLatest(init);
      var m := LatestPoint(s);
      forall i | 0 <= i < |s|
        ensures BidOf(s[i]) in m && s[i].tsUtc <= m[BidOf(s[i])].tsUtc
      {
        if i < |init| {
          assert s[i] == init[i];
        }
      }
    }
  }

  /** The price each bookmaker votes with. */
  function Votes(m: map<int, OddsPoint>): (v: map<int, real>)
    ensures v.Keys == m.Keys
  {
    map b | b in m :: m[b].oddsDecimal
  }

  /** A bookmaker's price, when it has one, dates the point carrying it. */
  predicate PricesDate(all: seq<OddsPoint>) {
    forall i, j :: (0 <= i < |all| && 0 <= j < |all| && BidOf(all[i]) == BidOf(all[j])
                    && all[i].oddsDecimal == all[j].oddsDecimal) ==> all[i].tsUtc == all[j].tsUtc
  }

  lemma {:induction false} FindTsOf(all: seq<OddsPoint>, q: OddsPoint)
    requires q in all && PricesDate(all)
    ensures FindTs(all, BidOf(q), q.oddsDecimal) == q.tsUtc
  {
    if BidOf(all[0]) != BidOf(q) || all[0].oddsDecimal != q.oddsDecimal {
      var rest := all[1..];
      assert q in rest;
      assert PricesDate(rest) by {
        forall i, j | 0 <= i < |rest| && 0 <= j < |rest| && BidOf(rest[i]) == BidOf(rest[j])
          && rest[i].oddsDecimal == rest[j].oddsDecimal
          ensures rest[i].tsUtc == rest[j].tsUtc
        {
          assert rest[i] == all[i + 1] && rest[j] == all[j + 1];
        }
      }
      FindTsOf(rest, q);
    } else {
      var k :| 0 <= k < |all| && all[k] == q;
    }
  }

  /**
   * When no price of a bookmaker repeats at another time and no price is 0, the
   * code's vote is the latest point's price.
   */
  lemma {:induction false} LatestFoldAgrees(all: seq<OddsPoint>, k: nat)
    requires k <= |all| && PricesDate(all)
    requires forall i :: 0 <= i < |all| ==> all[i].oddsDecimal != 0.0
    ensures LatestFold(all, all[..k]) == Votes(LatestPoint(all[..k]))
  {
    if k > 0 {
      var s := all[..k];
      var init := s[..k - 1];
      assert init == all[..k - 1];
      LatestFoldAgrees(all, k - 1);
      LatestPointIsLatest(init);
      var c := LatestPoint(init);
      var p := s[k - 1];
      var bid := BidOf(p);
      if bid in c {
        assert c[bid] in all;
        FindTsOf(all, c[bid]);
      }
    }
  }

  /** The loop that fills `latestByBookmaker`, keeping the latest point of each bookmaker. */
  method LatestByBookmaker(selectionPoints: seq<OddsPoint>) returns (latest: map<int, OddsPoint>)
    ensures latest == LatestPoint(selectionPoints)
  {
    latest := map[];
    for i := 0 to |selectionPoints|
      invariant latest == LatestPoint(selectionPoints[..i])
    {
      assert selectionPoints[..i + 1][..i] == selectionPoints[..i];
      var p := selectionPoints[i];
      var bid := BidOf(p);
      if bid !in latest || p.tsUtc > latest[bid].tsUtc {
        latest := latest[bid := p];
      }
    }
    assert selectionPoints[..|selectionPoints|] == selectionPoints;
  }

  /** The loop of lines 42-48 as written: a held price is dated by the first point carrying it. */
  method LatestByBookmakerAsWritten(selectionPoints: seq<OddsPoint>) returns (latest: map<int, real>)
    ensures latest == LatestFold(selectionPoints, selectionPoints)
  {
    latest := map[];
    for i := 0 to |selectionPoints|
      invariant latest == LatestFold(selectionPoints, selectionPoints[..i])
    {
      assert selectionPoints[..i + 1][..i] == selectionPoints[..i];
      var p := selectionPoints[i];
      var bid := BidOf(p);
      if bid !in latest || latest[bid] == 0.0 || p.tsUtc > FindTs(selectionPoints, bid, latest[bid]) {
        latest := latest[bid := p.oddsDecimal];
      }
    }
    assert selectionPoints[..|selectionPoints|] == selectionPoints;
  }

  /** The votes in ascending bookmaker order (`Object.values` on integer keys). */
  function OddsInOrder(m: map<int, real>, ks: seq<int>): (r: seq<real>)
    ensures |r| <= |ks|
  {
    if ks == [] then []
    else (if ks[0] in m then [m[ks[0]]] else []) + OddsInOrder(m, ks[1..])
  }

  function BookmakerOdds(m: map<int, real>): seq<real> {
    OddsInOrder(m, Big5Bookmakers)
  }

  lemma {:induction false} OddsInOrderCount(m: map<int, real>, ks: seq<int>)
    requires forall i, j :: 0 <= i < j < |ks| ==> ks[i] != ks[j]
    ensures |OddsInOrder(m, ks)| == |set k | k in ks && k in m|
  {
    if ks != [] {
      OddsInOrderCount(m, ks[1..]);
      var here := if ks[0] in m then {ks[0]} else {};
      var later := set k | k in ks[1..] && k in m;
      assert (set k | k in ks && k in m) == here + later;
      assert ks[0] !in ks[1..];
      assert here * later == {};
    }
  }

  /** With whitelisted keys only, there is one value per bookmaker. */
  lemma BookmakerOddsCount(m: map<int, real>)
    requires forall b :: b in m ==> b in Big5Bookmakers
    ensures |BookmakerOdds(m)| == |m.Keys|
  {
    OddsInOrderCount(m, Big5Bookmakers);
    var ks := set k | k in Big5Bookmakers && k in m;
    forall k | k in m.Keys
      ensures k in ks
    {
    }
    assert ks == m.Keys;
  }

  // ------------------------------------------------------------- the groups

  /** The row built from the bookmakers' votes, absent when no vote gives a positive average. */
  function RowFromVotes(fixtureId: int, cfg: MarketConfig, selection: string,
                        votes: map<int, real>, windowEnd: int): (row: Option<OddsAverage>)
    ensures row.Some? ==> InOddsRange(row.value.avgOdds) && row.value.countPoints >= 1
    ensures row.Some? ==> row.value.countPoints == |BookmakerOdds(votes)|
                          && Some(row.value.avgOdds) == CalculateAverageOdds(BookmakerOdds(votes))
  {
    var odds := BookmakerOdds(votes);
    var avg := CalculateAverageOdds(odds);
    if avg.Some? && avg.value > 0.0 then
      Some(OddsAverage(fixtureId, cfg.name, cfg.line, selection, avg.value, |odds|, windowEnd, SportmonksSource))
    else None
  }

  /** The row of one selection, absent when it has no point or no positive average. */
  function SelectionRow(fixtureId: int, cfg: MarketConfig, selection: string,
                        groupPoints: seq<OddsPoint>, windowEnd: int): (row: Option<OddsAverage>)
    ensures row.Some? ==> InOddsRange(row.value.avgOdds) && row.value.countPoints >= 1
    ensures row.Some? ==> SelectionPoints(groupPoints, selection) != []
  {
    var pts := SelectionPoints(groupPoints, selection);
    if |pts| < 1 then None
    else RowFromVotes(fixtureId, cfg, selection, Votes(LatestPoint(pts)), windowEnd)
  }

  /** The row of one selection with the votes exactly as the code computes them. */
  function SelectionRowAsWritten(fixtureId: int, cfg: MarketConfig, selection: string,
                                 groupPoints: seq<OddsPoint>, windowEnd: int): (row: Option<OddsAverage>)
    ensures row.Some? ==> InOddsRange(row.value.avgOdds) && row.value.countPoints >= 1
    ensures row.Some? ==> SelectionPoints(groupPoints, selection) != []
  {
    var pts := SelectionPoints(groupPoints, selection);
    if |pts| < 1 then None
    else RowFromVotes(fixtureId, cfg, selection, LatestFold(pts, pts), windowEnd)
  }

  /**
   * When no price of a bookmaker recurs at another time and no price is 0, the
   * code's row and the intended row are the same.
   */
  lemma SelectionRowAgrees(fixtureId: int, cfg: MarketConfig, selection: string,
                           groupPoints: seq<OddsPoint>, windowEnd: int)
    requires PricesDate(SelectionPoints(groupPoints, selection))
    requires forall i :: 0 <= i < |SelectionPoints(groupPoints, selection)| ==>
               SelectionPoints(groupPoints, selection)[i].oddsDecimal != 0.0
    ensures SelectionRowAsWritten(fixtureId, cfg, selection, groupPoints, windowEnd)
         == SelectionRow(fixtureId, cfg, selection, groupPoints, windowEnd)
  {
    var pts := SelectionPoints(groupPoints, selection);
    LatestFoldAgrees(pts, |pts|);
    assert pts[..|pts|] == pts;
  }

  /** On the points of the finding, the code's row averages 3.0 where the intended row averages 2.0. */
  lemma SelectionRowsDiverge()
    ensures var p1 := OddsPoint(1, Some(2), OneXTwo, "HOME", None, 2.0, 1, SportmonksSource);
      var s := [p1, p1.(tsUtc := 4), p1.(oddsDecimal := 3.0, tsUtc := 3)];
      var cfg := Configs[0];
      && SelectionRowAsWritten(1, cfg, "HOME", s, 9) == Some(OddsAverage(1, OneXTwo, None, "HOME", 3.0, 1, 9, SportmonksSource))
      && SelectionRow(1, cfg, "HOME", s, 9) == Some(OddsAverage(1, OneXTwo, None, "HOME", 2.0, 1, 9, SportmonksSource))
  {
    var p1 := OddsPoint(1, Some(2), OneXTwo, "HOME", None, 2.0, 1, SportmonksSource);
    var s := [p1, p1.(tsUtc := 4), p1.(oddsDecimal := 3.0, tsUtc := 3)];
    LatestFoldMissesLatest();
    DivergencePointsSelected(s, p1);
    assert Votes(map[2 := p1.(tsUtc := 4)]) == map[2 := 2.0];
    SingleVoteOdds(3.0);
    SingleVoteOdds(2.0);
    AverageOfEqualOdds([3.0], 3.0);
    AverageOfEqualOdds([2.0], 2.0);
  }

  lemma DivergencePointsSelected(s: seq<OddsPoint>, p1: OddsPoint)
    requires p1.selection == "HOME"
    requires s == [p1, p1.(tsUtc := 4), p1.(oddsDecimal := 3.0, tsUtc := 3)]
    ensures SelectionPoints(s, "HOME") == s
  {
    assert s[..2] == [p1, p1.(tsUtc := 4)] && s[..2][..1] == [p1] && [p1][..0] == [];
    assert SelectionPoints([p1], "HOME") == [p1];
    assert SelectionPoints(s[..2], "HOME") == s[..2];
  }

  /** One whitelisted vote of bookmaker 2 is listed alone. */
  lemma SingleVoteOdds(x: real)
    ensures BookmakerOdds(map[2 := x]) == [x]
  {
    var m := map[2 := x];
    assert Big5Bookmakers[1..][1..][1..][1..][1..] == [];
    assert OddsInOrder(m, Big5Bookmakers[1..][1..][1..][1..]) == [];
    assert OddsInOrder(m, Big5Bookmakers[1..][1..][1..]) == [];
    assert OddsInOrder(m, Big5Bookmakers[1..][1..]) == [];
    assert OddsInOrder(m, Big5Bookmakers[1..]) == [];
  }

  /** All the values of `opts`, or nothing as soon as one is absent. */
  function Collect<T>(opts: seq<Option<T>>): (r: Option<seq<T>>)
    ensures r.Some? ==> |r.value| == |opts|
  {
    if opts == [] then Some([])
    else
      match Collect(opts[..|opts| - 1])
      case None => None
      case Some(xs) =>
        match opts[|opts| - 1]
        case None => None
        case Some(x) => Some(xs + [x])
  }

  lemma {:induction false} CollectAllOrNothing<T>(opts: seq<Option<T>>)
    ensures Collect(opts).Some? <==> forall i :: 0 <= i < |opts| ==> opts[i].Some?
    ensures Collect(opts).Some? ==> forall i :: 0 <= i < |opts| ==> Collect(opts).value[i] == opts[i].value
  {
    if opts != [] {
      var init := opts[..|opts| - 1];
      CollectAllOrNothing(init);
      assert forall i :: 0 <= i < |init| ==> init[i] == opts[i];
    }
  }

  /** Once one value is absent, every longer prefix is absent. */
  lemma CollectStep<T>(opts: seq<Option<T>>, i: nat, xs: seq<T>)
    requires i < |opts| && opts[i].Some? && Collect(opts[..i]) == Some(xs)
    ensures Collect(opts[..i + 1]) == Some(xs + [opts[i].value])
  {
    assert opts[..i + 1][..i] == opts[..i];
  }

  lemma CollectAbsentExtends<T>(opts: seq<Option<T>>, i: nat)
    requires i < |opts| && opts[i].None?
    ensures Collect(opts).None?
  {
    CollectAllOrNothing(opts);
  }

  /** The row of each selection of a group. */
  function SelectionRows(fixtureId: int, cfg: MarketConfig, groupPoints: seq<OddsPoint>, windowEnd: int)
    : (r: seq<Option<OddsAverage>>)
    ensures |r| == |cfg.selections|
    ensures forall k :: 0 <= k < |r| ==> r[k] == SelectionRow(fixtureId, cfg, cfg.selections[k], groupPoints, windowEnd)
  {
    seq(|cfg.selections|, k requires 0 <= k < |cfg.selections| =>
          SelectionRow(fixtureId, cfg, cfg.selections[k], groupPoints, windowEnd))
  }

  /** All of a group's rows, or none. */
  function GroupRows(fixtureId: int, cfg: MarketConfig, points: seq<OddsPoint>, windowEnd: int): Option<seq<OddsAverage>> {
    Collect(SelectionRows(fixtureId, cfg, GroupPoints(points, cfg), windowEnd))
  }

  /**
   * A group yields rows exactly when every one of its selections has a row,
   * and then its rows are those of its selections, in order.
   */
  lemma GroupAllOrNothing(fixtureId: int, cfg: MarketConfig, points: seq<OddsPoint>, windowEnd: int)
    ensures var g := GroupRows(fixtureId, cfg, points, windowEnd);
      var gp := GroupPoints(points, cfg);
      && (g.Some? <==> forall k :: 0 <= k < |cfg.selections| ==>
                         SelectionRow(fixtureId, cfg, cfg.selections[k], gp, windowEnd).Some?)
      && (g.Some? ==> |g.value| == |cfg.selections|
                      && forall k :: 0 <= k < |cfg.selections| ==>
                           Some(g.value[k]) == SelectionRow(fixtureId, cfg, cfg.selections[k], gp, windowEnd))
  {
    CollectAllOrNothing(SelectionRows(fixtureId, cfg, GroupPoints(points, cfg), windowEnd));
  }

  /** The rows of the groups `cfgs`, in order. */
  function AllRows(fixtureId: int, cfgs: seq<MarketConfig>, points: seq<OddsPoint>, windowEnd: int): seq<OddsAverage> {
    if cfgs == [] then []
    else
      var rest := AllRows(fixtureId, cfgs[..|cfgs| - 1], points, windowEnd);
      match GroupRows(fixtureId, cfgs[|cfgs| - 1], points, windowEnd)
      case Some(rows) => rest + rows
      case None => rest
  }

  function SelectionCount(cfgs: seq<MarketConfig>): nat {
    if cfgs == [] then 0 else SelectionCount(cfgs[..|cfgs| - 1]) + |cfgs[|cfgs| - 1].selections|
  }

  lemma {:induction false} AllRowsBounded(fixtureId: int, cfgs: seq<MarketConfig>, points: seq<OddsPoint>, windowEnd: int)
    ensures |AllRows(fixtureId, cfgs, points, windowEnd)| <= SelectionCount(cfgs)
  {
    if cfgs != [] {
      AllRowsBounded(fixtureId, cfgs[..|cfgs| - 1], points, windowEnd);
    }
  }

  /** At most 11 rows: three 1X2, two BTTS and two per over/under line. */
  lemma AtMostElevenRows(fixtureId: int, points: seq<OddsPoint>, windowEnd: int)
    ensures |AllRows(fixtureId, Configs, points, windowEnd)| <= 11
  {
    AllRowsBounded(fixtureId, Configs, points, windowEnd);
    assert SelectionCount(Configs[..0]) == 0;
    assert Configs[..1][..0] == Configs[..0];
    assert SelectionCount(Configs[..1]) == 3;
    assert Configs[..2][..1] == Configs[..1];
    assert SelectionCount(Configs[..2]) == 5;
    assert Configs[..3][..2] == Configs[..2];
    assert SelectionCount(Configs[..3]) == 7;
    assert Configs[..4][..3] == Configs[..3];
    assert SelectionCount(Configs[..4]) == 9;
    assert Configs[..5][..4] == Configs[..4];
    assert Configs[..5] == Configs;
  }

  /** What every emitted row satisfies. */
  predicate RowFacts(r: OddsAverage, fixtureId: int, windowEnd: int) {
    InOddsRange(r.avgOdds) && 1 <= r.countPoints && r.fixtureId == fixtureId
    && r.windowEndUtc == windowEnd && r.source == SportmonksSource
  }

  lemma {:induction false} AllRowsFacts(fixtureId: int, cfgs: seq<MarketConfig>, points: seq<OddsPoint>, windowEnd: int)
    ensures forall i :: 0 <= i < |AllRows(fixtureId, cfgs, points, windowEnd)| ==>
              RowFacts(AllRows(fixtureId, cfgs, points, windowEnd)[i], fixtureId, windowEnd)
  {
    if cfgs != [] {
      var init := cfgs[..|cfgs| - 1];
      AllRowsFacts(fixtureId, init, points, windowEnd);
      var rest := AllRows(fixtureId, init, points, windowEnd);
      var cfg := cfgs[|cfgs| - 1];
      var g := GroupRows(fixtureId, cfg, points, windowEnd);
      if g.Some? {
        var all := rest + g.value;
        forall i | 0 <= i < |all|
          ensures RowFacts(all[i], fixtureId, windowEnd)
        {
          if i >= |rest| {
            var k := i - |rest|;
            GroupAllOrNothing(fixtureId, cfg, points, windowEnd);
            assert all[i] == g.value[k];
            var row := SelectionRow(fixtureId, cfg, cfg.selections[k], GroupPoints(points, cfg), windowEnd);
            assert Some(g.value[k]) == row;
          } else {
            assert all[i] == rest[i];
          }
        }
      }
    }
  }

  /** `count_points` is the number of distinct whitelisted bookmakers priced for the selection. */
  lemma CountIsDistinctBookmakers(fixtureId: int, cfg: MarketConfig, selection: string,
                                  groupPoints: seq<OddsPoint>, windowEnd: int)
    requires Whitelisted(groupPoints)
    requires SelectionRow(fixtureId, cfg, selection, groupPoints, windowEnd).Some?
    ensures var pts := SelectionPoints(groupPoints, selection);
      SelectionRow(fixtureId, cfg, selection, groupPoints, windowEnd).value.countPoints == |Bids(pts)|
  {
    var pts := SelectionPoints(groupPoints, selection);
    var m := Votes(LatestPoint(pts));
    LatestPointIsLatest(pts);
    forall b | b in m
      ensures b in Big5Bookmakers
    {
      var q := LatestPoint(pts)[b];
      var i :| 0 <= i < |pts| && pts[i] == q;
    }
    BookmakerOddsCount(m);
  }

  // -------------------------------------------------------------- the job

  const WindowMs: int := AvgOddsWindowHours * HourMs

  /**
   * The job's result for stored rows `stored` (`None` when the query fails) at
   * time `now`: absent when the query fails or finds nothing.
   */
  function AveragesFor(fixtureId: int, stored: Option<seq<OddsPoint>>, now: int): Option<seq<OddsAverage>> {
    if stored.None? then None
    else
      var recent := Query(stored.value, fixtureId, now - WindowMs);
      if |recent| == 0 then None else Some(AllRows(fixtureId, Configs, recent, now))
  }

  /** The body of the selection loop: the row of one selection, if it has one. */
  method SelectionAverage(fixtureId: int, cfg: MarketConfig, selection: string,
                          sourcePoints: seq<OddsPoint>, windowEnd: int) returns (row: Option<OddsAverage>)
    ensures row == SelectionRow(fixtureId, cfg, selection, sourcePoints, windowEnd)
  {
    var selectionPoints := SelectionPoints(sourcePoints, selection);
    if |selectionPoints| < 1 {
      return None;
    }
    var latestByBookmaker := LatestByBookmaker(selectionPoints);
    var bookmakerOdds := BookmakerOdds(Votes(latestByBookmaker));
    var avg := CalculateAverageOdds(bookmakerOdds);
    if avg.Some? && avg.value > 0.0 {
      row := Some(OddsAverage(fixtureId, cfg.name, cfg.line, selection, avg.value,
                              |bookmakerOdds|, windowEnd, SportmonksSource));
    } else {
      row := None;
    }
  }

  /** The loop over one group's selections, leaving at the first that fails. */
  method GroupAverages(fixtureId: int, cfg: MarketConfig, recentPoints: seq<OddsPoint>, windowEnd: int)
    returns (rows: Option<seq<OddsAverage>>)
    ensures rows == GroupRows(fixtureId, cfg, recentPoints, windowEnd)
  {
    var sourcePoints := GroupPoints(recentPoints, cfg);
    ghost var opts := SelectionRows(fixtureId, cfg, sourcePoints, windowEnd);
    var marketAverages: seq<OddsAverage> := [];
    var allSelectionsValid := true;
    var i := 0;
    while i < |cfg.selections|
      invariant 0 <= i <= |cfg.selections|
      invariant Collect(opts[..i]) == Some(marketAverages)
    {
      var row := SelectionAverage(fixtureId, cfg, cfg.selections[i], sourcePoints, windowEnd);
      assert row == opts[i];
      if row.None? {
        allSelectionsValid := false;
        CollectAbsentExtends(opts, i);
        break;
      }
      CollectStep(opts, i, marketAverages);
      marketAverages := marketAverages + [row.value];
      i := i + 1;
    }
    assert opts[..|opts|] == opts;
    if allSelectionsValid && |marketAverages| == |cfg.selections| {
      rows := Some(marketAverages);
    } else {
      rows := None;
    }
  }

  /** The loop over the market groups `cfgs`, keeping the complete ones. */
  method MarketAverages(fixtureId: int, cfgs: seq<MarketConfig>, recentPoints: seq<OddsPoint>, windowEnd: int)
    returns (averages: seq<OddsAverage>)
    ensures averages == AllRows(fixtureId, cfgs, recentPoints, windowEnd)
  {
    averages := [];
    for c := 0 to |cfgs|
      invariant averages == AllRows(fixtureId, cfgs[..c], recentPoints, windowEnd)
    {
      assert cfgs[..c + 1][..c] == cfgs[..c];
      var marketAverages := GroupAverages(fixtureId, cfgs[c], recentPoints, windowEnd);
      if marketAverages.Some? {
        averages := averages + marketAverages.value;
      }
    }
    assert cfgs[..|cfgs|] == cfgs;
  }

  /**
   * The job on stored rows `stored` at time `now`. `upserted` says whether the
   * rows were written.
   */
  method ComputeOddsAveragesForFixture(fixtureId: int, stored: Option<seq<OddsPoint>>, now: int)
    returns (result: Option<seq<OddsAverage>>, upserted: bool)
    ensures result == AveragesFor(fixtureId, stored, now)
    ensures upserted <==> result.Some? && |result.value| > 0
  {
    if stored.None? {
      return None, false;
    }
    var recentPoints := Query(stored.value, fixtureId, now - WindowMs);
    if |recentPoints| == 0 {
      return None, false;
    }
    var averages := MarketAverages(fixtureId, Configs, recentPoints, now);
    upserted := |averages| > 0;
    result := Some(averages);
  }

  /** The job's result: absent exactly when the query fails or is empty; otherwise at most 11 plausible rows. */
  lemma AveragesForFacts(fixtureId: int, stored: Option<seq<OddsPoint>>, now: int)
    ensures AveragesFor(fixtureId, stored, now).None?
        <==> stored.None? || Query(stored.value, fixtureId, now - WindowMs) == []
    ensures var r := AveragesFor(fixtureId, stored, now);
      r.Some? ==> |r.value| <= 11 && forall i :: 0 <= i < |r.value| ==> RowFacts(r.value[i], fixtureId, now)
  {
    if stored.Some? {
      var recent := Query(stored.value, fixtureId, now - WindowMs);
      AtMostElevenRows(fixtureId, recent, now);
      AllRowsFacts(fixtureId, Configs, recent, now);
    }
  }
}
