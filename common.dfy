/** Small helpers shared by every module of the model. */
module Common {

  /** The source's `null`/`undefined` for an optional value. */
  datatype Option<+T> = None | Some(value: T) {
    function GetOr(default: T): T {
      if Some? then value else default
    }
  }

  function Min(a: real, b: real): (r: real)
    ensures r <= a && r <= b && (r == a || r == b)
  {
    if a <= b then a else b
  }

  function Max(a: real, b: real): (r: real)
    ensures r >= a && r >= b && (r == a || r == b)
  {
    if a >= b then a else b
  }

  function MinNat(a: nat, b: nat): nat {
    if a <= b then a else b
  }

  /** Number of occurrences of `x` in `s`. */
  function Count<T(==)>(s: seq<T>, x: T): (n: nat)
    ensures n <= |s|
  {
    if s == [] then 0 else Count(s[..|s| - 1], x) + (if s[|s| - 1] == x then 1 else 0)
  }

  lemma {:induction false} CountAppend<T>(s: seq<T>, t: seq<T>, x: T)
    ensures Count(s + t, x) == Count(s, x) + Count(t, x)
    decreases |t|
  {
    if t == [] {
      assert s + t == s;
    } else {
      assert (s + t)[..|s + t| - 1] == s + t[..|t| - 1];
      CountAppend(s, t[..|t| - 1], x);
    }
  }

  /** Arithmetic sum of a sequence of reals. */
  function Sum(s: seq<real>): real {
    if s == [] then 0.0 else s[0] + Sum(s[1..])
  }

  lemma {:induction false} SumConcat(a: seq<real>, b: seq<real>)
    ensures Sum(a + b) == Sum(a) + Sum(b)
  {
    if a == [] {
      assert a + b == b;
    } else {
      assert (a + b)[1..] == a[1..] + b;
      SumConcat(a[1..], b);
    }
  }

  /** The sum of a sequence depends only on its multiset of elements. */
  lemma {:induction false} SumPermutation(a: seq<real>, b: seq<real>)
    requires multiset(a) == multiset(b)
    ensures Sum(a) == Sum(b)
  {
    if a == [] {
      assert |b| == |multiset(b)| == 0;
    } else {
      var x := a[0];
      assert x in multiset(b);
      var k :| 0 <= k < |b| && b[k] == x;
      var rest := b[..k] + b[k + 1..];
      assert b == b[..k] + [x] + b[k + 1..];
      assert a == [x] + a[1..];
      assert multiset(b) == multiset(b[..k]) + multiset([x]) + multiset(b[k + 1..]);
      assert multiset(a) == multiset([x]) + multiset(a[1..]);
      assert multiset(rest) == multiset(b[..k]) + multiset(b[k + 1..]);
      assert multiset(b) == multiset([x]) + multiset(rest);
      forall y ensures multiset(a[1..])[y] == multiset(rest)[y] {
        assert multiset(a)[y] == multiset(b)[y];
        assert multiset(a)[y] == multiset([x])[y] + multiset(a[1..])[y];
        assert multiset(b)[y] == multiset([x])[y] + multiset(rest)[y];
      }
      assert multiset(a[1..]) == multiset(rest);
      SumPermutation(a[1..], rest);
      SumConcat(b[..k] + [x], b[k + 1..]);
      SumConcat(b[..k], [x]);
      SumConcat(b[..k], b[k + 1..]);
    }
  }

  /** The elements of `s` in order of first occurrence, each kept once (a JavaScript `new Set(s)` read back). */
  function Distinct<T(==)>(s: seq<T>): (d: seq<T>)
    ensures forall i :: 0 <= i < |s| ==> s[i] in d
    ensures forall i :: 0 <= i < |d| ==> d[i] in s
  {
    if s == [] then []
    else
      var prefix := Distinct(s[..|s| - 1]);
      if s[|s| - 1] in prefix then prefix else prefix + [s[|s| - 1]]
  }

  ghost predicate NoDuplicates<T>(s: seq<T>) {
    forall i, j :: 0 <= i < j < |s| ==> s[i] != s[j]
  }

  lemma {:induction false} DistinctHasNoDuplicates<T>(s: seq<T>)
    ensures NoDuplicates(Distinct(s))
  {
    if s != [] {
      DistinctHasNoDuplicates(s[..|s| - 1]);
    }
  }

  /** The values `f` gives for the elements of `s`, in order, skipping the absent ones. */
  function Keep<A, B>(s: seq<A>, f: A -> Option<B>): (r: seq<B>)
    ensures |r| <= |s|
  {
    if s == [] then [] else Keep(s[..|s| - 1], f) + KeepOne(f(s[|s| - 1]))
  }

  function KeepOne<B>(o: Option<B>): (r: seq<B>) {
    match o
    case Some(b) => [b]
    case None => []
  }

  lemma KeepStep<A, B>(s: seq<A>, f: A -> Option<B>, i: nat)
    requires i < |s|
    ensures Keep(s[..i + 1], f) == Keep(s[..i], f) + KeepOne(f(s[i]))
  {
    assert s[..i + 1][..i] == s[..i];
  }

  /** Every present value is kept. */
  lemma {:induction false} KeepComplete<A, B>(s: seq<A>, f: A -> Option<B>, j: nat)
    requires j < |s| && f(s[j]).Some?
    ensures f(s[j]).value in Keep(s, f)
  {
    if j < |s| - 1 {
      assert s[..|s| - 1][j] == s[j];
      KeepComplete(s[..|s| - 1], f, j);
    }
  }

  /** Every kept value is the value of some element. */
  lemma {:induction false} KeepSound<A, B>(s: seq<A>, f: A -> Option<B>, k: nat)
    requires k < |Keep(s, f)|
    ensures exists j :: 0 <= j < |s| && f(s[j]) == Some(Keep(s, f)[k])
  {
    var pre := s[..|s| - 1];
    if k < |Keep(pre, f)| {
      KeepSound(pre, f, k);
      var j :| 0 <= j < |pre| && f(pre[j]) == Some(Keep(pre, f)[k]);
      assert pre[j] == s[j];
    } else {
      assert f(s[|s| - 1]) == Some(Keep(s, f)[k]);
    }
  }

  /** Concatenation of a sequence of sequences. */
  function Flatten<T>(ss: seq<seq<T>>): (r: seq<T>) {
    if ss == [] then [] else Flatten(ss[..|ss| - 1]) + ss[|ss| - 1]
  }

  lemma {:induction false} FlattenConcat<T>(a: seq<seq<T>>, b: seq<seq<T>>)
    ensures Flatten(a + b) == Flatten(a) + Flatten(b)
    decreases |b|
  {
    if b == [] {
      assert a + b == a;
    } else {
      var init := b[..|b| - 1];
      assert (a + b)[..|a + b| - 1] == a + init;
      FlattenConcat(a, init);
    }
  }

  /** Flattening a slice splits at any point inside it. */
  lemma FlattenSplit<T>(ss: seq<seq<T>>, lo: nat, mid: nat, hi: nat)
    requires lo <= mid <= hi <= |ss|
    ensures Flatten(ss[lo..hi]) == Flatten(ss[lo..mid]) + Flatten(ss[mid..hi])
  {
    assert ss[lo..hi] == ss[lo..mid] + ss[mid..hi];
    FlattenConcat(ss[lo..mid], ss[mid..hi]);
  }

  lemma FlattenSlice<T>(ss: seq<seq<T>>, k: nat)
    requires k < |ss|
    ensures Flatten(ss[k..k + 1]) == ss[k]
  {
    assert ss[k..k + 1] == [ss[k]];
    assert [ss[k]][..0] == [];
  }

  /** Whatever is in the concatenation is in one of the parts. */
  lemma {:induction false} FlattenMember<T>(ss: seq<seq<T>>, x: T)
    requires x in Flatten(ss)
    ensures exists k :: 0 <= k < |ss| && x in ss[k]
  {
    var init := ss[..|ss| - 1];
    if x !in ss[|ss| - 1] {
      FlattenMember(init, x);
      var k :| 0 <= k < |init| && x in init[k];
      assert init[k] == ss[k];
    }
  }
}

/** The fixed market vocabulary and engine constants. */
module Markets {
  const OneXTwo: string := "1X2"
  const Btts: string := "BTTS"
  const OverUnder: string := "OU"

  const OneXTwoSelections: seq<string> := ["HOME", "DRAW", "AWAY"]
  const BttsSelections: seq<string> := ["YES", "NO"]
  const OverUnderSelections: seq<string> := ["OVER", "UNDER"]
  const OverUnderLines: seq<real> := [1.5, 2.5, 3.5]

  const LookaheadHours: int := 72
  const HistoryMatches: nat := 10
  const ProbThreshold: real := 0.70
  /** Declared by the source but never read by the engine. */
  const MinEdge: real := 0.05
  const MinPublishOdds: real := 1.50
  /** Declared by the source but never read by the engine. */
  const DailyPickLimit: nat := 20
  const AvgOddsWindowHours: int := 24
  const PoissonMaxGoals: nat := 6

  /** The five whitelisted bookmakers: bet365, 888Sport, Betfair, Pinnacle, William Hill. */
  const Big5Bookmakers: seq<int> := [2, 5, 9, 20, 29]

  const HourMs: int := 3600000
}
