/** De-duplication of odds points by their upsert key, keeping the first of each key. */
module SyncOdds {
  import opened Common
  import opened OddsPoints

  /**
   * The upsert key. A null and an undefined bookmaker are the same absent
   * component; the odds value is not part of the key.
   */
  datatype DedupKey = DedupKey(
    fixtureId: int,
    market: string,
    line: Option<real>,
    selection: string,
    source: string,
    tsUtc: int,
    bookmaker: Option<int>)

  function KeyOf(p: OddsPoint): DedupKey {
    DedupKey(p.fixtureId, p.market, p.line, p.selection, p.source, p.tsUtc, p.bookmakerId)
  }

  /** The keys of all points of `s`. */
  function Keys(s: seq<OddsPoint>): set<DedupKey> {
    if s == [] then {} else Keys(s[..|s| - 1]) + {KeyOf(s[|s| - 1])}
  }

  /** Every point's key is among the keys. */
  lemma {:induction false} KeyInKeys(s: seq<OddsPoint>, i: nat)
    requires i < |s|
    ensures KeyOf(s[i]) in Keys(s)
  {
    if i < |s| - 1 {
      KeyInKeys(s[..|s| - 1], i);
    }
  }

  /** A key no point has is not among the keys. */
  lemma {:induction false} KeyNotInKeys(s: seq<OddsPoint>, k: DedupKey)
    requires forall i :: 0 <= i < |s| ==> KeyOf(s[i]) != k
    ensures k !in Keys(s)
  {
    if s != [] {
      var init := s[..|s| - 1];
      forall i | 0 <= i < |init|
        ensures KeyOf(init[i]) != k
      {
        assert init[i] == s[i];
      }
      KeyNotInKeys(init, k);
    }
  }

  /** A point is kept when no earlier point has its key. */
  function Dedup(s: seq<OddsPoint>): seq<OddsPoint> {
    if s == [] then []
    else
      var rest := Dedup(s[..|s| - 1]);
      if KeyOf(s[|s| - 1]) in Keys(s[..|s| - 1]) then rest else rest + [s[|s| - 1]]
  }

  /** The filter with a `seen` set. */
  method DeduplicatePoints(points: seq<OddsPoint>) returns (unique: seq<OddsPoint>)
    ensures unique == Dedup(points)
  {
    var seen: set<DedupKey> := {};
    unique := [];
    for i := 0 to |points|
      invariant unique == Dedup(points[..i])
      invariant seen == Keys(points[..i])
    {
      assert points[..i + 1][..i] == points[..i];
      var key := KeyOf(points[i]);
      if key !in seen {
        seen := seen + {key};
        unique := unique + [points[i]];
      }
    }
    assert points[..|points|] == points;
  }

  predicate UniqueKeys(s: seq<OddsPoint>) {
    forall i, j :: 0 <= i < j < |s| ==> KeyOf(s[i]) != KeyOf(s[j])
  }

  /** Every input key is still present, and no other. */
  lemma {:induction false} DedupKeepsEveryKey(s: seq<OddsPoint>)
    ensures Keys(Dedup(s)) == Keys(s)
  {
    if s != [] {
      var init := s[..|s| - 1];
      DedupKeepsEveryKey(init);
      var rest := Dedup(init);
      if KeyOf(s[|s| - 1]) !in Keys(init) {
        assert (rest + [s[|s| - 1]])[..|rest|] == rest;
      }
    }
  }

  /** No two output points share a key. */
  lemma {:induction false} DedupUniqueKeys(s: seq<OddsPoint>)
    ensures UniqueKeys(Dedup(s))
  {
    if s != [] {
      var init := s[..|s| - 1];
      DedupUniqueKeys(init);
      DedupKeepsEveryKey(init);
      var rest := Dedup(init);
      var x := s[|s| - 1];
      if KeyOf(x) !in Keys(init) {
        var d := rest + [x];
        forall i, j | 0 <= i < j < |d|
          ensures KeyOf(d[i]) != KeyOf(d[j])
        {
          if j == |rest| {
            KeyInKeys(rest, i);
            assert d[i] == rest[i];
          } else {
            assert d[i] == rest[i] && d[j] == rest[j];
          }
        }
      }
    }
  }

  /** Points with pairwise distinct keys pass through unchanged. */
  lemma {:induction false} DedupOfUnique(s: seq<OddsPoint>)
    requires UniqueKeys(s)
    ensures Dedup(s) == s
  {
    if s != [] {
      var init := s[..|s| - 1];
      UniquePrefix(s);
      DedupOfUnique(init);
      var x := s[|s| - 1];
      forall i | 0 <= i < |init|
        ensures KeyOf(init[i]) != KeyOf(x)
      {
        assert init[i] == s[i];
      }
      KeyNotInKeys(init, KeyOf(x));
      assert s == init + [x];
    }
  }

  lemma UniquePrefix(s: seq<OddsPoint>)
    requires UniqueKeys(s) && s != []
    ensures UniqueKeys(s[..|s| - 1])
  {
    var init := s[..|s| - 1];
    forall i, j | 0 <= i < j < |init|
      ensures KeyOf(init[i]) != KeyOf(init[j])
    {
      assert init[i] == s[i] && init[j] == s[j];
    }
  }

  /** Running the de-duplication twice changes nothing. */
  lemma DedupIdempotent(s: seq<OddsPoint>)
    ensures Dedup(Dedup(s)) == Dedup(s)
  {
    DedupUniqueKeys(s);
    DedupOfUnique(Dedup(s));
  }

  /**
   * The output is the input at strictly increasing positions `idx`, each the
   * first position of its key.
   */
  lemma {:induction false} DedupIsFirstOccurrenceSubsequence(s: seq<OddsPoint>) returns (idx: seq<nat>)
    ensures |idx| == |Dedup(s)|
    ensures forall k :: 0 <= k < |idx| ==> idx[k] < |s| && Dedup(s)[k] == s[idx[k]]
    ensures forall k, l :: 0 <= k < l < |idx| ==> idx[k] < idx[l]
    ensures forall k, j :: 0 <= k < |idx| && 0 <= j < idx[k] ==> KeyOf(s[j]) != KeyOf(s[idx[k]])
  {
    if s == [] {
      idx := [];
    } else {
      var init := s[..|s| - 1];
      var x := s[|s| - 1];
      var prev := DedupIsFirstOccurrenceSubsequence(init);
      var rest := Dedup(init);
      forall k | 0 <= k < |prev|
        ensures prev[k] < |s| - 1 && rest[k] == s[prev[k]]
        ensures forall j :: 0 <= j < prev[k] ==> KeyOf(s[j]) != KeyOf(s[prev[k]])
      {
        assert init[prev[k]] == s[prev[k]];
        forall j | 0 <= j < prev[k]
          ensures KeyOf(s[j]) != KeyOf(s[prev[k]])
        {
          assert init[j] == s[j];
        }
      }
      if KeyOf(x) in Keys(init) {
        idx := prev;
      } else {
        idx := prev + [|s| - 1];
        forall j | 0 <= j < |s| - 1
          ensures KeyOf(s[j]) != KeyOf(x)
        {
          KeyInKeys(init, j);
          assert init[j] == s[j];
        }
      }
    }
  }

  /** Of two points with one key, whatever their prices, the first is kept. */
  lemma SameKeyKeepsFirst(p: OddsPoint, q: OddsPoint)
    requires KeyOf(p) == KeyOf(q)
    ensures Dedup([p, q]) == [p]
  {
    assert [p, q][..1] == [p];
    assert [p][..0] == [];
    assert Keys([p]) == {KeyOf(p)};
    assert Dedup([p]) == [p];
  }

  /** Two prices of one bookmakerless offer collapse to the first. */
  lemma AbsentBookmakersShareKey(p: OddsPoint, odds: real)
    requires p.bookmakerId.None?
    ensures Dedup([p, p.(oddsDecimal := odds)]) == [p]
  {
    SameKeyKeepsFirst(p, p.(oddsDecimal := odds));
  }
}
