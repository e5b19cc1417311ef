/**
 * Mapping bookmaker market names and selection labels onto the engine's
 * vocabulary, reading a line value, and averaging odds.
 */
module NormalizeOdds {
  import opened Common
  import opened Markets
  import opened Strings

  // ---------------------------------------------------------------- markets

  /** Lower-cased, with '/', '_', '-' and '.' turned into spaces. */
  function MarketText(raw: string): (s: string)
    ensures |s| == |raw|
  {
    ReplaceSeparators(ToLower(raw))
  }

  predicate Names1x2(s: string) {
    Contains(s, "1x2") || Contains(s, "h2h") || Contains(s, "moneyline")
    || s == "match winner" || Contains(s, "fulltime result")
  }

  predicate NamesBtts(s: string) {
    Contains(s, "btts") || Contains(s, "both teams to score")
  }

  predicate NamesOverUnder(s: string) {
    Contains(s, "ou") || Contains(s, "over under") || Contains(s, "totals")
    || Contains(s, "total") || Contains(s, "goal line")
  }

  /** The 1X2 keywords are tried first, then BTTS, then over/under. */
  function NormalizeMarket(raw: string): (r: Option<string>)
    ensures r.Some? ==> r.value == OneXTwo || r.value == Btts || r.value == OverUnder
  {
    MarketOfText(MarketText(raw))
  }

  function MarketOfText(s: string): Option<string> {
    if Names1x2(s) then Some(OneXTwo)
    else if NamesBtts(s) then Some(Btts)
    else if NamesOverUnder(s) then Some(OverUnder)
    else None
  }

  /** Which market a text is filed under, read as the first matching keyword family. */
  lemma MarketClassification(raw: string)
    ensures var s := MarketText(raw);
      && (NormalizeMarket(raw) == Some(OneXTwo) <==> Names1x2(s))
      && (NormalizeMarket(raw) == Some(Btts) <==> !Names1x2(s) && NamesBtts(s))
      && (NormalizeMarket(raw) == Some(OverUnder) <==> !Names1x2(s) && !NamesBtts(s) && NamesOverUnder(s))
      && (NormalizeMarket(raw) == None <==> !Names1x2(s) && !NamesBtts(s) && !NamesOverUnder(s))
  {
  }

  /** Normalising the text first changes nothing: the text form is a fixed point. */
  lemma MarketTextIdempotent(raw: string)
    ensures MarketText(MarketText(raw)) == MarketText(raw)
    ensures NormalizeMarket(MarketText(raw)) == NormalizeMarket(raw)
  {
    MarketTextFixed(raw);
  }

  lemma MarketTextFixed(raw: string)
    ensures MarketText(MarketText(raw)) == MarketText(raw)
  {
    var s := MarketText(raw);
    var t := MarketText(s);
    forall i | 0 <= i < |raw|
      ensures t[i] == s[i]
    {
      NormalCharFixed(raw[i]);
      assert ToLower(s)[i] == LowerChar(s[i]);
      assert ToLower(raw)[i] == LowerChar(raw[i]);
    }
  }

  /** A character already lower-case and separator-free is left as it is. */
  lemma NormalCharFixed(c: char)
    ensures var d := SeparatorToSpace(LowerChar(c)); SeparatorToSpace(LowerChar(d)) == d
  {
  }

  /** An over/under name that happens to name a 1X2 market too is 1X2. */
  lemma OneXTwoTakesPrecedence(raw: string)
    requires Names1x2(MarketText(raw)) && NamesOverUnder(MarketText(raw))
    ensures NormalizeMarket(raw) == Some(OneXTwo)
  {
  }

  lemma DoubleChanceNot1x2()
    ensures !Contains("double chance", "1x2") && !Contains("double chance", "h2h")
  {
    MissingCharNotContained("double chance", "1x2", '1');
    MissingCharNotContained("double chance", "h2h", '2');
  }

  lemma DoubleChanceNotMoneyline()
    ensures !Contains("double chance", "moneyline") && !Contains("double chance", "fulltime result")
  {
    MissingCharNotContained("double chance", "moneyline", 'y');
    MissingCharNotContained("double chance", "fulltime result", 'f');
  }

  lemma DoubleChanceNotBtts()
    ensures !Contains("double chance", "btts") && !Contains("double chance", "both teams to score")
  {
    MissingCharNotContained("double chance", "btts", 't');
    MissingCharNotContained("double chance", "both teams to score", 't');
  }

  /** "Double Chance" contains "ou" and is therefore read as an over/under market. */
  lemma DoubleChanceReadsAsOverUnder()
    ensures NormalizeMarket("Double Chance") == Some(OverUnder)
  {
    DoubleChanceText();
    MarketTextExample("Double Chance", "double chance");
    MarketFromText("Double Chance", "double chance", Some(OverUnder));
  }

  lemma DoubleChanceText()
    ensures MarketOfText("double chance") == Some(OverUnder)
  {
    DoubleChanceNot1x2();
    DoubleChanceNotMoneyline();
    DoubleChanceNotBtts();
    ContainsAt("double chance", "ou", 1);
  }

  /** Separators count as spaces, so "Match-Winner" is the exact text "match winner". */
  lemma MatchWinnerWithSeparator()
    ensures NormalizeMarket("Match-Winner") == Some(OneXTwo)
  {
    MarketTextExample("Match-Winner", "match winner");
    MarketFromText("Match-Winner", "match winner", Some(OneXTwo));
  }

  /** A market name is read through its normalised text. */
  lemma MarketFromText(raw: string, t: string, r: Option<string>)
    requires MarketText(raw) == t && MarketOfText(t) == r
    ensures NormalizeMarket(raw) == r
  {
  }

  /** Normalising a concrete market name, character by character. */
  lemma MarketTextExample(raw: string, t: string)
    requires |raw| == |t| && forall i :: 0 <= i < |raw| ==> SeparatorToSpace(LowerChar(raw[i])) == t[i]
    ensures MarketText(raw) == t
  {
    forall i | 0 <= i < |raw|
      ensures MarketText(raw)[i] == t[i]
    {
      assert ToLower(raw)[i] == LowerChar(raw[i]);
    }
  }

  // ------------------------------------------------------------- selections

  function SelectionText(raw: string): string {
    ToLower(Trim(raw))
  }

  function Selection1x2(s: string): Option<string> {
    if s == "home" || s == "h" || s == "1" then Some("HOME")
    else if s == "draw" || s == "d" || s == "x" then Some("DRAW")
    else if s == "away" || s == "a" || s == "2" then Some("AWAY")
    else None
  }

  function SelectionBtts(s: string): Option<string> {
    if s == "yes" || s == "y" || s == "1" then Some("YES")
    else if s == "no" || s == "n" || s == "0" then Some("NO")
    else None
  }

  function SelectionOverUnder(s: string): Option<string> {
    if Contains(s, "over") || s == "o" then Some("OVER")
    else if Contains(s, "under") || s == "u" then Some("UNDER")
    else None
  }

  /** A label of one of the three markets mapped onto that market's selections; anything else is absent. */
  function NormalizeSelection(market: string, raw: string): (r: Option<string>)
    ensures market == OneXTwo && r.Some? ==> r.value in OneXTwoSelections
    ensures market == Btts && r.Some? ==> r.value in BttsSelections
    ensures market == OverUnder && r.Some? ==> r.value in OverUnderSelections
    ensures market != OneXTwo && market != Btts && market != OverUnder ==> r.None?
  {
    SelectionOfText(market, SelectionText(raw))
  }

  /** The label table, one if-and-only-if per selection, read on the trimmed, lower-cased label. */
  lemma SelectionClassification(raw: string)
    ensures var s := SelectionText(raw);
      && (NormalizeSelection(OneXTwo, raw) == Some("HOME") <==> s == "home" || s == "h" || s == "1")
      && (NormalizeSelection(OneXTwo, raw) == Some("DRAW") <==> s == "draw" || s == "d" || s == "x")
      && (NormalizeSelection(OneXTwo, raw) == Some("AWAY") <==> s == "away" || s == "a" || s == "2")
      && (NormalizeSelection(OneXTwo, raw).None? <==>
            s != "home" && s != "h" && s != "1" && s != "draw" && s != "d" && s != "x"
            && s != "away" && s != "a" && s != "2")
      && (NormalizeSelection(Btts, raw) == Some("YES") <==> s == "yes" || s == "y" || s == "1")
      && (NormalizeSelection(Btts, raw) == Some("NO") <==> s == "no" || s == "n" || s == "0")
      && (NormalizeSelection(Btts, raw).None? <==>
            s != "yes" && s != "y" && s != "1" && s != "no" && s != "n" && s != "0")
      && (NormalizeSelection(OverUnder, raw) == Some("OVER") <==> Contains(s, "over") || s == "o")
      && (NormalizeSelection(OverUnder, raw) == Some("UNDER") <==>
            !Contains(s, "over") && s != "o" && (Contains(s, "under") || s == "u"))
      && (NormalizeSelection(OverUnder, raw).None? <==>
            !Contains(s, "over") && !Contains(s, "under") && s != "o" && s != "u")
  {
  }

  function SelectionOfText(market: string, s: string): Option<string> {
    if market == OneXTwo then Selection1x2(s)
    else if market == Btts then SelectionBtts(s)
    else if market == OverUnder then SelectionOverUnder(s)
    else None
  }

  lemma UnpaddedSelectionText(raw: string)
    requires raw != [] && !IsWhitespace(raw[0]) && !IsWhitespace(raw[|raw| - 1])
    ensures SelectionText(raw) == ToLower(raw)
  {
    TrimUnpadded(raw);
  }

  /** A label with no padding is read by lower-casing it. */
  lemma SelectionFromLower(market: string, raw: string, t: string, r: Option<string>)
    requires raw != [] && !IsWhitespace(raw[0]) && !IsWhitespace(raw[|raw| - 1])
    requires ToLower(raw) == t && SelectionOfText(market, t) == r
    ensures NormalizeSelection(market, raw) == r
  {
    UnpaddedSelectionText(raw);
  }

  /** Capitals do not matter: "Home" is the home side. */
  lemma HomeExample()
    ensures NormalizeSelection(OneXTwo, "Home") == Some("HOME")
  {
    LowerExample("Home", "home");
    SelectionFromLower(OneXTwo, "Home", "home", Some("HOME"));
  }

  /** "X" is the draw. */
  lemma DrawExample()
    ensures NormalizeSelection(OneXTwo, "X") == Some("DRAW")
  {
    LowerExample("X", "x");
    SelectionFromLower(OneXTwo, "X", "x", Some("DRAW"));
  }

  /** "N" is a no in BTTS. */
  lemma NoExample()
    ensures NormalizeSelection(Btts, "N") == Some("NO")
  {
    LowerExample("N", "n");
    SelectionFromLower(Btts, "N", "n", Some("NO"));
  }

  /** Lower-casing a concrete label, character by character. */
  lemma LowerExample(s: string, t: string)
    requires |s| == |t| && forall i :: 0 <= i < |s| ==> LowerChar(s[i]) == t[i]
    ensures ToLower(s) == t
  {
  }

  /** A space either side of the label does not matter. */
  lemma SelectionIgnoresPadding(market: string, raw: string)
    ensures NormalizeSelection(market, [' '] + raw + [' ']) == NormalizeSelection(market, raw)
  {
    PaddedTrim(raw);
  }

  /** The label "1" is the home side in 1X2 but "yes" in BTTS. */
  lemma OneMeansHomeOrYes()
    ensures NormalizeSelection(OneXTwo, "1") == Some("HOME")
    ensures NormalizeSelection(Btts, "1") == Some("YES")
  {
  }

  /** In over/under, "over" anywhere in the label wins, even next to "under". */
  lemma OverCheckedBeforeUnder(raw: string)
    requires Contains(SelectionText(raw), "over")
    ensures NormalizeSelection(OverUnder, raw) == Some("OVER")
  {
  }

  lemma UnderWithoutOver(raw: string)
    requires Contains(SelectionText(raw), "under") && !Contains(SelectionText(raw), "over")
    requires SelectionText(raw) != "o"
    ensures NormalizeSelection(OverUnder, raw) == Some("UNDER")
  {
  }

  /** "Over 2.5" is an over. */
  lemma OverExample()
    ensures NormalizeSelection(OverUnder, "Over 2.5") == Some("OVER")
  {
    OverText();
    LowerExample("Over 2.5", "over 2.5");
    SelectionFromLower(OverUnder, "Over 2.5", "over 2.5", Some("OVER"));
  }

  lemma OverText()
    ensures SelectionOfText(OverUnder, "over 2.5") == Some("OVER")
  {
    ContainsAt("over 2.5", "over", 0);
  }

  /** "Under 2.5" is an under. */
  lemma UnderExample()
    ensures NormalizeSelection(OverUnder, "Under 2.5") == Some("UNDER")
  {
    UnderText();
    LowerExample("Under 2.5", "under 2.5");
    SelectionFromLower(OverUnder, "Under 2.5", "under 2.5", Some("UNDER"));
  }

  lemma UnderText()
    ensures SelectionOfText(OverUnder, "under 2.5") == Some("UNDER")
  {
    MissingCharNotContained("under 2.5", "over", 'o');
    ContainsAt("under 2.5", "under", 0);
  }

  // ------------------------------------------------------------------ lines

  /** A JavaScript number: finite, or NaN / an infinity. */
  datatype JsNumber = Finite(value: real) | NonFinite

  /** The dynamically typed line value the normaliser accepts. */
  datatype RawLine = RawNull | RawUndefined | RawNumber(n: JsNumber) | RawText(text: string)

  /**
   * `toNumber` is JavaScript's `Number` applied to a text; the model does not
   * fix how it parses.
   */
  function NormalizeLine(raw: RawLine, toNumber: string -> JsNumber): (r: Option<real>)
    ensures raw == RawNull || raw == RawUndefined || raw == RawText("") ==> r == None
    ensures raw.RawNumber? ==> (r.Some? <==> raw.n.Finite?)
    ensures raw.RawNumber? && raw.n.Finite? ==> r == Some(raw.n.value)
    ensures raw.RawText? && raw.text != "" ==> (r.Some? <==> toNumber(raw.text).Finite?)
    ensures (raw.RawText? && raw.text != "" && toNumber(raw.text).Finite?)
              ==> r == Some(toNumber(raw.text).value)
  {
    if raw == RawNull || raw == RawUndefined || raw == RawText("") then None
    else
      var n := if raw.RawNumber? then raw.n else toNumber(raw.text);
      if n.Finite? then Some(n.value) else None
  }

  /** A normalised line, passed through again as a number, is unchanged. */
  lemma NormalizeLineIdempotent(raw: RawLine, toNumber: string -> JsNumber)
    requires NormalizeLine(raw, toNumber).Some?
    ensures var x := NormalizeLine(raw, toNumber).value;
      NormalizeLine(RawNumber(Finite(x)), toNumber) == Some(x)
  {
  }

  // ------------------------------------------------------------------- odds

  const MinAverageOdds: real := 1.01
  const MaxAverageOdds: real := 100.0

  predicate InOddsRange(o: real) {
    MinAverageOdds < o < MaxAverageOdds
  }

  /** The entries strictly between 1.01 and 100, in order. */
  function FilterOdds(s: seq<real>): (r: seq<real>)
    ensures |r| <= |s|
    ensures forall i :: 0 <= i < |r| ==> InOddsRange(r[i])
  {
    if s == [] then []
    else (if InOddsRange(s[0]) then [s[0]] else []) + FilterOdds(s[1..])
  }

  /** The filter keeps exactly the entries in range. */
  lemma {:induction false} FilterKeepsPlausible(s: seq<real>)
    ensures forall x :: x in FilterOdds(s) <==> x in s && InOddsRange(x)
  {
    if s != [] {
      FilterKeepsPlausible(s[1..]);
      assert s == [s[0]] + s[1..];
    }
  }

  /** The mean of the plausible odds; absent when there is none. */
  function CalculateAverageOdds(odds: seq<real>): (r: Option<real>)
    ensures r.None? <==> forall i :: 0 <= i < |odds| ==> !InOddsRange(odds[i])
    ensures r.Some? ==> InOddsRange(r.value)
  {
    var f := FilterOdds(odds);
    FilterKeepsPlausible(odds);
    if |f| == 0 then None
    else
      SumBounds(f, MinAverageOdds, MaxAverageOdds);
      MeanBounds(Sum(f), |f|, MinAverageOdds, MaxAverageOdds);
      Some(Sum(f) / |f| as real)
  }

  /** Strict bounds on every element carry over to the sum. */
  lemma {:induction false} SumBounds(s: seq<real>, lo: real, hi: real)
    requires s != []
    requires forall i :: 0 <= i < |s| ==> lo < s[i] < hi
    ensures lo * |s| as real < Sum(s) < hi * |s| as real
  {
    if |s| > 1 {
      SumBounds(s[1..], lo, hi);
    }
  }

  lemma {:induction false} SumWeakBounds(s: seq<real>, lo: real, hi: real)
    requires forall i :: 0 <= i < |s| ==> lo <= s[i] <= hi
    ensures lo * |s| as real <= Sum(s) <= hi * |s| as real
  {
    if s != [] {
      SumWeakBounds(s[1..], lo, hi);
    }
  }

  lemma MeanBounds(total: real, n: nat, lo: real, hi: real)
    requires n > 0 && lo * n as real < total < hi * n as real
    ensures lo < total / n as real < hi
  {
    var m := total / n as real;
    assert total == m * n as real;
  }

  lemma WeakMeanBounds(total: real, n: nat, lo: real, hi: real)
    requires n > 0 && lo * n as real <= total <= hi * n as real
    ensures lo <= total / n as real <= hi
  {
    var m := total / n as real;
    assert total == m * n as real;
  }

  lemma FilteredWithin(odds: seq<real>, lo: real, hi: real)
    requires forall i :: 0 <= i < |odds| && InOddsRange(odds[i]) ==> lo <= odds[i] <= hi
    ensures forall i :: 0 <= i < |FilterOdds(odds)| ==> lo <= FilterOdds(odds)[i] <= hi
  {
    var f := FilterOdds(odds);
    FilterKeepsPlausible(odds);
    forall i | 0 <= i < |f|
      ensures lo <= f[i] <= hi
    {
      var j :| 0 <= j < |odds| && odds[j] == f[i];
    }
  }

  /** The average lies between any bounds that hold for every plausible entry. */
  lemma AverageWithinEntries(odds: seq<real>, lo: real, hi: real)
    requires CalculateAverageOdds(odds).Some?
    requires forall i :: 0 <= i < |odds| && InOddsRange(odds[i]) ==> lo <= odds[i] <= hi
    ensures lo <= CalculateAverageOdds(odds).value <= hi
  {
    var f := FilterOdds(odds);
    FilteredWithin(odds, lo, hi);
    MeanOfBounded(f, lo, hi);
  }

  lemma MeanOfBounded(f: seq<real>, lo: real, hi: real)
    requires f != []
    requires forall i :: 0 <= i < |f| ==> lo <= f[i] <= hi
    ensures lo <= Sum(f) / |f| as real <= hi
  {
    SumWeakBounds(f, lo, hi);
    WeakMeanBounds(Sum(f), |f|, lo, hi);
  }

  /** Odds all equal to one plausible value average to that value. */
  lemma AverageOfEqualOdds(odds: seq<real>, x: real)
    requires odds != [] && InOddsRange(x)
    requires forall i :: 0 <= i < |odds| ==> odds[i] == x
    ensures CalculateAverageOdds(odds) == Some(x)
  {
    assert InOddsRange(odds[0]);
    AverageWithinEntries(odds, x, x);
  }

  lemma {:induction false} FilterMultiplicity(s: seq<real>, x: real)
    ensures multiset(FilterOdds(s))[x] == if InOddsRange(x) then multiset(s)[x] else 0
  {
    if s != [] {
      FilterMultiplicity(s[1..], x);
      assert s == [s[0]] + s[1..];
      assert multiset(s) == multiset([s[0]]) + multiset(s[1..]);
    }
  }

  /** The average does not depend on the order of the odds. */
  lemma AverageOrderIndependent(a: seq<real>, b: seq<real>)
    requires multiset(a) == multiset(b)
    ensures CalculateAverageOdds(a) == CalculateAverageOdds(b)
  {
    forall x
      ensures multiset(FilterOdds(a))[x] == multiset(FilterOdds(b))[x]
    {
      FilterMultiplicity(a, x);
      FilterMultiplicity(b, x);
    }
    assert multiset(FilterOdds(a)) == multiset(FilterOdds(b));
    assert |FilterOdds(a)| == |multiset(FilterOdds(a))| == |FilterOdds(b)|;
    SumPermutation(FilterOdds(a), FilterOdds(b));
  }

  lemma {:induction false} FilterAppendIgnored(s: seq<real>, x: real)
    requires !InOddsRange(x)
    ensures FilterOdds(s + [x]) == FilterOdds(s)
  {
    if s == [] {
      assert [x][1..] == [];
    } else {
      assert (s + [x])[1..] == s[1..] + [x];
      FilterAppendIgnored(s[1..], x);
    }
  }

  /** Odds of 1.01 or less, or 100 or more, are ignored. */
  lemma OutOfRangeIgnored(s: seq<real>, x: real)
    requires !InOddsRange(x)
    ensures CalculateAverageOdds(s + [x]) == CalculateAverageOdds(s)
  {
    FilterAppendIgnored(s, x);
  }
}
