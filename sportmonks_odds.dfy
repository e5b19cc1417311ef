/**
 * Pre-match odds from the SportMonks feed: each raw record either passes a chain
 * of checks and becomes an odds point, or is dropped.
 */
module SportmonksOdds {
  import opened Common
  import opened Markets
  import opened NormalizeOdds
  import opened OddsPoints

  /** SportMonks market ids for 1X2, BTTS, over/under and goals over/under. */
  const TargetMarkets: seq<int> := [1, 14, 12, 80]
  const MinOddsValue: real := 1.01

  /**
   * A raw record of the feed. Absent fields are `None`; bookmaker and market ids
   * are already numbers.
   */
  datatype RawOdds = RawOdds(
    bookmakerId: Option<int>,
    marketId: Option<int>,
    marketName: Option<string>,
    marketDescription: Option<string>,
    labelText: Option<string>,
    value: Option<string>,
    name: Option<string>,
    total: Option<string>,
    handicap: Option<string>)

  /**
   * JavaScript's `parseFloat` (absent for NaN), and the first number of a text
   * as the line pattern finds it (absent when there is none).
   */
  datatype Parsers = Parsers(parseFloat: string -> Option<real>, firstNumber: string -> Option<real>)

  predicate Truthy(o: Option<string>) {
    o.Some? && o.value != ""
  }

  /** JavaScript's `a || b` on two optional strings. */
  function OrElse(a: Option<string>, b: Option<string>): (r: Option<string>)
    ensures Truthy(r) <==> Truthy(a) || Truthy(b)
    ensures Truthy(a) ==> r == a
  {
    if Truthy(a) then a else b
  }

  /** A non-zero bookmaker id among the five whitelisted ones. */
  predicate AcceptedBookmaker(r: RawOdds) {
    r.bookmakerId.Some? && r.bookmakerId.value != 0 && r.bookmakerId.value in Big5Bookmakers
  }

  predicate TargetMarket(r: RawOdds) {
    r.marketId.Some? && r.marketId.value in TargetMarkets
  }

  /** The market's name, else its description, else the empty text. */
  function MarketNameOf(r: RawOdds): string {
    var m := OrElse(r.marketName, r.marketDescription);
    if Truthy(m) then m.value else ""
  }

  /** Label, else value, else name; a missing name reads as the text "undefined". */
  function SelectionLabel(r: RawOdds): string {
    var s := OrElse(r.labelText, OrElse(r.value, r.name));
    if s.Some? then s.value else "undefined"
  }

  /** `line` as the fetcher holds it: null, NaN, or a number. */
  datatype ParsedLine = NoLine | NotANumber | LineAt(x: real)

  /**
   * The over/under line: total, else handicap, parsed; only when neither is
   * given does the first number of the label (else the name) count.
   */
  function OverUnderLine(r: RawOdds, ps: Parsers): (l: ParsedLine)
    ensures Truthy(OrElse(r.total, r.handicap)) ==> l != NoLine
  {
    var rawTotal := OrElse(r.total, r.handicap);
    var line :=
      if Truthy(rawTotal) then
        (match ps.parseFloat(rawTotal.value)
         case Some(x) => LineAt(x)
         case None => NotANumber)
      else NoLine;
    var text := OrElse(r.labelText, r.name);
    if line == NoLine && Truthy(text) then
      (match ps.firstNumber(text.value)
       case Some(x) => LineAt(x)
       case None => NoLine)
    else line
  }

  predicate SupportedLine(l: ParsedLine) {
    l.LineAt? && l.x in OverUnderLines
  }

  function OddsValue(r: RawOdds, ps: Parsers): Option<real> {
    if r.value.Some? then ps.parseFloat(r.value.value) else None
  }

  /** What every emitted point of fixture `fixtureId` stamped `ts` satisfies. */
  predicate WellFormedPoint(p: OddsPoint, fixtureId: int, ts: int) {
    && p.bookmakerId.Some? && p.bookmakerId.value in Big5Bookmakers
    && (p.market == OneXTwo || p.market == Btts || p.market == OverUnder)
    && (p.market == OverUnder ==> p.line.Some? && p.line.value in OverUnderLines)
    && (p.market != OverUnder ==> p.line.None?)
    && p.oddsDecimal > MinOddsValue
    && p.fixtureId == fixtureId && p.tsUtc == ts && p.source == SportmonksSource
  }

  /** One raw record checked and normalised, in the order of the fetch loop. */
  function ToPoint(r: RawOdds, fixtureId: int, ts: int, ps: Parsers): (p: Option<OddsPoint>)
    ensures p.Some? ==> WellFormedPoint(p.value, fixtureId, ts)
    ensures p.Some? ==> AcceptedBookmaker(r) && p.value.bookmakerId == r.bookmakerId && TargetMarket(r)
    ensures p.Some? ==> NormalizeMarket(MarketNameOf(r)) == Some(p.value.market)
    ensures p.Some? ==> NormalizeSelection(p.value.market, SelectionLabel(r)) == Some(p.value.selection)
    ensures p.Some? && p.value.market == OverUnder ==> OverUnderLine(r, ps) == LineAt(p.value.line.value)
    ensures p.Some? ==> OddsValue(r, ps) == Some(p.value.oddsDecimal)
  {
    if !AcceptedBookmaker(r) || !TargetMarket(r) then None
    else
      var market := NormalizeMarket(MarketNameOf(r));
      if market.None? then None
      else
        var selection := NormalizeSelection(market.value, SelectionLabel(r));
        if selection.None? then None
        else if market.value == OverUnder && !SupportedLine(OverUnderLine(r, ps)) then None
        else
          var odds := OddsValue(r, ps);
          if odds.None? || odds.value <= MinOddsValue then None
          else
            var line := if market.value == OverUnder then Some(OverUnderLine(r, ps).x) else None;
            Some(OddsPoint(fixtureId, r.bookmakerId, market.value, selection.value, line,
                           odds.value, ts, SportmonksSource))
  }

  /** Conversely, a record that passes every check is kept. */
  lemma AcceptedWhenAllChecksPass(r: RawOdds, fixtureId: int, ts: int, ps: Parsers)
    requires AcceptedBookmaker(r) && TargetMarket(r)
    requires NormalizeMarket(MarketNameOf(r)).Some?
    requires NormalizeSelection(NormalizeMarket(MarketNameOf(r)).value, SelectionLabel(r)).Some?
    requires NormalizeMarket(MarketNameOf(r)) == Some(OverUnder) ==> SupportedLine(OverUnderLine(r, ps))
    requires OddsValue(r, ps).Some? && OddsValue(r, ps).value > MinOddsValue
    ensures ToPoint(r, fixtureId, ts, ps).Some?
  {
  }

  /**
   * A total that does not parse leaves the line NaN: the label is not consulted
   * and the record is dropped.
   */
  lemma UnparsableTotalDropsRecord(r: RawOdds, fixtureId: int, ts: int, ps: Parsers)
    requires Truthy(r.total) && ps.parseFloat(r.total.value).None?
    requires NormalizeMarket(MarketNameOf(r)) == Some(OverUnder)
    ensures OverUnderLine(r, ps) == NotANumber
    ensures ToPoint(r, fixtureId, ts, ps).None?
  {
  }

  /** Without total and handicap, the first number of the label gives the line. */
  lemma LabelSuppliesMissingLine(r: RawOdds, ps: Parsers)
    requires !Truthy(r.total) && !Truthy(r.handicap)
    requires Truthy(r.labelText) && ps.firstNumber(r.labelText.value).Some?
    ensures OverUnderLine(r, ps) == LineAt(ps.firstNumber(r.labelText.value).value)
  {
  }

  // ------------------------------------------------------------- the fetch

  /** The points of one fixture's record list, in order. */
  function PointsOf(list: seq<RawOdds>, fixtureId: int, ts: int, ps: Parsers): (pts: seq<OddsPoint>)
    ensures |pts| <= |list|
  {
    if list == [] then []
    else
      var rest := PointsOf(list[..|list| - 1], fixtureId, ts, ps);
      match ToPoint(list[|list| - 1], fixtureId, ts, ps)
      case Some(p) => rest + [p]
      case None => rest
  }

  /** A failed request (`None`) contributes nothing; a response without data is the empty list. */
  function FixturePoints(response: Option<seq<RawOdds>>, fixtureId: int, ts: int, ps: Parsers): seq<OddsPoint> {
    match response
    case Some(list) => PointsOf(list, fixtureId, ts, ps)
    case None => []
  }

  /** The points fetched for each fixture of `ids`; the k-th is stamped `clock(k)`. */
  function FixtureParts(ids: seq<int>, fetch: int -> Option<seq<RawOdds>>, clock: nat -> int, ps: Parsers)
    : (parts: seq<seq<OddsPoint>>)
    ensures |parts| == |ids|
    ensures forall k :: 0 <= k < |ids| ==> parts[k] == FixturePoints(fetch(ids[k]), ids[k], clock(k), ps)
  {
    seq(|ids|, k requires 0 <= k < |ids| => FixturePoints(fetch(ids[k]), ids[k], clock(k), ps))
  }

  /** The points of the fixtures at positions `lo` up to `hi`, in order. */
  function FetchRange(ids: seq<int>, lo: nat, hi: nat, fetch: int -> Option<seq<RawOdds>>,
                      clock: nat -> int, ps: Parsers): seq<OddsPoint>
    requires lo <= hi <= |ids|
  {
    Flatten(FixtureParts(ids, fetch, clock, ps)[lo..hi])
  }

  /** The range up to `i + 1` is the range up to `i` followed by fixture `i`. */
  lemma FetchRangeStep(ids: seq<int>, i: nat, fetch: int -> Option<seq<RawOdds>>, clock: nat -> int, ps: Parsers)
    requires i < |ids|
    ensures FetchRange(ids, 0, i + 1, fetch, clock, ps)
         == FetchRange(ids, 0, i, fetch, clock, ps) + FixturePoints(fetch(ids[i]), ids[i], clock(i), ps)
  {
    var parts := FixtureParts(ids, fetch, clock, ps);
    assert parts[0..i + 1][..i] == parts[0..i];
  }

  /**
   * The fetch loop: `fetch` is the provider request of one fixture (`None` when
   * it fails) and `clock(k)` the time read for the k-th fixture.
   */
  method GetSportmonksOddsForFixtures(fixtureIds: seq<int>, fetch: int -> Option<seq<RawOdds>>,
                                      clock: nat -> int, ps: Parsers)
    returns (allPoints: seq<OddsPoint>)
    ensures allPoints == FetchRange(fixtureIds, 0, |fixtureIds|, fetch, clock, ps)
  {
    allPoints := [];
    for i := 0 to |fixtureIds|
      invariant allPoints == FetchRange(fixtureIds, 0, i, fetch, clock, ps)
    {
      FetchRangeStep(fixtureIds, i, fetch, clock, ps);
      var response := fetch(fixtureIds[i]);
      if response.Some? {
        var points := FixtureOdds(response.value, fixtureIds[i], clock(i), ps);
        allPoints := allPoints + points;
      }
    }
  }

  /** The inner loop over one fixture's records, all stamped `stableTs`. */
  method FixtureOdds(oddsList: seq<RawOdds>, fixtureId: int, stableTs: int, ps: Parsers)
    returns (points: seq<OddsPoint>)
    ensures points == PointsOf(oddsList, fixtureId, stableTs, ps)
  {
    points := [];
    for j := 0 to |oddsList|
      invariant points == PointsOf(oddsList[..j], fixtureId, stableTs, ps)
    {
      assert oddsList[..j + 1][..j] == oddsList[..j];
      var point := ToPoint(oddsList[j], fixtureId, stableTs, ps);
      if point.Some? {
        points := points + [point.value];
      }
    }
    assert oddsList[..|oddsList|] == oddsList;
  }

  lemma {:induction false} PointsOfWellFormed(list: seq<RawOdds>, fixtureId: int, ts: int, ps: Parsers)
    ensures forall p :: p in PointsOf(list, fixtureId, ts, ps) ==> WellFormedPoint(p, fixtureId, ts)
  {
    if list != [] {
      PointsOfWellFormed(list[..|list| - 1], fixtureId, ts, ps);
    }
  }

  /**
   * Every fetched point is well formed for the fixture it was fetched for, with
   * the time read for that fixture.
   */
  lemma FetchedPointsWellFormed(ids: seq<int>, lo: nat, hi: nat,
                                fetch: int -> Option<seq<RawOdds>>, clock: nat -> int, ps: Parsers)
    requires lo <= hi <= |ids|
    ensures forall p :: p in FetchRange(ids, lo, hi, fetch, clock, ps) ==>
              exists k :: lo <= k < hi && WellFormedPoint(p, ids[k], clock(k))
  {
    var parts := FixtureParts(ids, fetch, clock, ps);
    forall p | p in FetchRange(ids, lo, hi, fetch, clock, ps)
      ensures exists k :: lo <= k < hi && WellFormedPoint(p, ids[k], clock(k))
    {
      FlattenMember(parts[lo..hi], p);
      var j :| 0 <= j < hi - lo && p in parts[lo..hi][j];
      FixtureWellFormed(ids, lo + j, fetch, clock, ps);
      assert WellFormedPoint(p, ids[lo + j], clock(lo + j));
    }
  }

  lemma FixtureWellFormed(ids: seq<int>, k: nat, fetch: int -> Option<seq<RawOdds>>, clock: nat -> int, ps: Parsers)
    requires k < |ids|
    ensures forall p :: p in FixturePoints(fetch(ids[k]), ids[k], clock(k), ps) ==> WellFormedPoint(p, ids[k], clock(k))
  {
    var response := fetch(ids[k]);
    if response.Some? {
      PointsOfWellFormed(response.value, ids[k], clock(k), ps);
    }
  }

  lemma FetchRangeSplit(ids: seq<int>, lo: nat, mid: nat, hi: nat,
                        fetch: int -> Option<seq<RawOdds>>, clock: nat -> int, ps: Parsers)
    requires lo <= mid <= hi <= |ids|
    ensures FetchRange(ids, lo, hi, fetch, clock, ps)
         == FetchRange(ids, lo, mid, fetch, clock, ps) + FetchRange(ids, mid, hi, fetch, clock, ps)
  {
    FlattenSplit(FixtureParts(ids, fetch, clock, ps), lo, mid, hi);
  }

  lemma FailedFixtureEmpty(ids: seq<int>, k: nat, fetch: int -> Option<seq<RawOdds>>,
                           clock: nat -> int, ps: Parsers)
    requires k < |ids| && fetch(ids[k]).None?
    ensures FetchRange(ids, k, k + 1, fetch, clock, ps) == []
  {
    var parts := FixtureParts(ids, fetch, clock, ps);
    FlattenSlice(parts, k);
  }

  /** A failing fixture contributes no point and the fixtures after it are still fetched. */
  lemma FailedFixtureSkipped(ids: seq<int>, k: nat, fetch: int -> Option<seq<RawOdds>>,
                             clock: nat -> int, ps: Parsers)
    requires k < |ids| && fetch(ids[k]).None?
    ensures FetchRange(ids, 0, |ids|, fetch, clock, ps)
         == FetchRange(ids, 0, k, fetch, clock, ps) + FetchRange(ids, k + 1, |ids|, fetch, clock, ps)
  {
    var n := |ids|;
    var tail := FetchRange(ids, k + 1, n, fetch, clock, ps);
    FetchRangeSplit(ids, k, k + 1, n, fetch, clock, ps);
    FailedFixtureEmpty(ids, k, fetch, clock, ps);
    assert FetchRange(ids, k, n, fetch, clock, ps) == [] + tail == tail;
    FetchRangeSplit(ids, 0, k, n, fetch, clock, ps);
  }
}
