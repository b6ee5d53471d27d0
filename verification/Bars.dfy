/**
 Candle normalisation: drop malformed rows, sort by time (stably), let the last
 row of each timestamp win, keep the newest 1500.
 */
module Bars {
  import opened Core

  /** An `f64` as far as bar validity can see it. */
  datatype Float = Finite(value: real) | NotFinite

  datatype Bar = Bar(timeMs: int, open: Float, high: Float, low: Float, close: Float, volume: Float)

  const MAX_TIMESTAMP_MS: int := 4_102_444_800_000
  const MAX_COUNT_BACK: nat := 1500

  predicate IsFinitePositive(x: Float) {
    x.Finite? && x.value > 0.0
  }

  predicate IsValidBar(b: Bar) {
    && 1 <= b.timeMs <= MAX_TIMESTAMP_MS
    && IsFinitePositive(b.open) && IsFinitePositive(b.high)
    && IsFinitePositive(b.low) && IsFinitePositive(b.close)
    && b.volume.Finite? && b.volume.value >= 0.0
    && b.high.value >= b.low.value
    && b.high.value >= b.open.value && b.high.value >= b.close.value
    && b.low.value <= b.open.value && b.low.value <= b.close.value
  }

  // ---- The pipeline ------------------------------------------------------

  function ValidOnly(raw: seq<Bar>): (r: seq<Bar>) {
    if raw == [] then []
    else ValidOnly(Front(raw)) + (if IsValidBar(Last(raw)) then [Last(raw)] else [])
  }

  /** The rows of `s` with timestamp `t`, in order. */
  ghost function At(s: seq<Bar>, t: int): seq<Bar> {
    if s == [] then []
    else At(Front(s), t) + (if Last(s).timeMs == t then [Last(s)] else [])
  }

  ghost predicate Ascending(s: seq<Bar>) {
    forall i, j :: 0 <= i < j < |s| ==> s[i].timeMs <= s[j].timeMs
  }

  ghost predicate StrictlyAscending(s: seq<Bar>) {
    forall i, j :: 0 <= i < j < |s| ==> s[i].timeMs < s[j].timeMs
  }

  function InsertLate(s: seq<Bar>, b: Bar): (r: seq<Bar>) {
    if s == [] || Last(s).timeMs <= b.timeMs then s + [b] else InsertLate(Front(s), b) + [Last(s)]
  }

  /** The standard library's stable `sort_by_key(|bar| bar.time_ms)`. */
  function StableSort(s: seq<Bar>): (r: seq<Bar>) {
    if s == [] then [] else InsertLate(StableSort(Front(s)), Last(s))
  }

  function DedupeLastWins(s: seq<Bar>): (r: seq<Bar>) {
    if s == [] then []
    else
      var r := DedupeLastWins(Front(s));
      if r != [] && Last(r).timeMs == Last(s).timeMs then Front(r) + [Last(s)] else r + [Last(s)]
  }

  function NewestCapped(s: seq<Bar>): (r: seq<Bar>) {
    if |s| > MAX_COUNT_BACK then s[|s| - MAX_COUNT_BACK..] else s
  }

  function Normalize(raw: seq<Bar>): (r: seq<Bar>) {
    NewestCapped(DedupeLastWins(StableSort(ValidOnly(raw))))
  }

  /** The dedupe loop and the drain of `normalize_bars`. */
  method NormalizeBars(raw: seq<Bar>) returns (out: seq<Bar>)
    ensures out == Normalize(raw)
    ensures IsNormalForm(raw, out)
  {
    var bars := StableSort(ValidOnly(raw));
    out := [];
    for i := 0 to |bars|
      invariant out == DedupeLastWins(bars[..i])
    {
      assert Front(bars[..i + 1]) == bars[..i];
      if out != [] && out[|out| - 1].timeMs == bars[i].timeMs {
        out := out[|out| - 1 := bars[i]];
        assert out == Front(DedupeLastWins(bars[..i])) + [bars[i]];
      } else {
        out := out + [bars[i]];
      }
    }
    assert bars[..|bars|] == bars;
    if |out| > MAX_COUNT_BACK {
      out := out[|out| - MAX_COUNT_BACK..];
    }
    NormalizeIsNormalForm(raw);
  }

  // ---- What normalisation means ------------------------------------------

  /** Row `j` of `raw` is valid and no later valid row has its timestamp. */
  ghost predicate LastValidAt(raw: seq<Bar>, j: nat)
    requires j < |raw|
  {
    && IsValidBar(raw[j])
    && forall k :: j < k < |raw| && IsValidBar(raw[k]) ==> raw[k].timeMs != raw[j].timeMs
  }

  ghost predicate IsLastValid(raw: seq<Bar>, b: Bar) {
    exists j: nat :: j < |raw| && raw[j] == b && LastValidAt(raw, j)
  }

  ghost predicate HasTime(s: seq<Bar>, t: int) {
    exists i :: 0 <= i < |s| && s[i].timeMs == t
  }

  /** The reference: `out` is strictly ascending, each of its bars is the last valid row of its
      timestamp, and a valid timestamp is missing only if 1500 newer ones are present. */
  ghost predicate IsNormalForm(raw: seq<Bar>, out: seq<Bar>) {
    && StrictlyAscending(out)
    && |out| <= MAX_COUNT_BACK
    && (forall i :: 0 <= i < |out| ==> IsLastValid(raw, out[i]))
    && (forall j :: 0 <= j < |raw| && IsValidBar(raw[j]) ==>
          HasTime(out, raw[j].timeMs) || (|out| == MAX_COUNT_BACK && raw[j].timeMs < out[0].timeMs))
  }

  // ---- Sorting -----------------------------------------------------------

  lemma AtAppend(s: seq<Bar>, b: Bar, t: int)
    ensures At(s + [b], t) == At(s, t) + (if b.timeMs == t then [b] else [])
  {
    FrontOfAppend(s, b);
  }

  lemma {:induction false} InsertLateMembers(s: seq<Bar>, b: Bar)
    ensures forall x :: x in InsertLate(s, b) ==> x in s || x == b
    decreases |s|
  {
    if s != [] && Last(s).timeMs > b.timeMs {
      InsertLateMembers(Front(s), b);
    }
  }

  lemma {:induction false} InsertLateAscending(s: seq<Bar>, b: Bar)
    requires Ascending(s)
    ensures Ascending(InsertLate(s, b))
    decreases |s|
  {
    if s != [] && Last(s).timeMs > b.timeMs {
      InsertLateAscending(Front(s), b);
      InsertLateMembers(Front(s), b);
      var r := InsertLate(Front(s), b);
      forall i | 0 <= i < |r|
        ensures r[i].timeMs <= Last(s).timeMs
      {
        assert r[i] in r;
      }
    }
  }

  lemma {:induction false} InsertLateStable(s: seq<Bar>, b: Bar, t: int)
    ensures At(InsertLate(s, b), t) == At(s + [b], t)
    decreases |s|
  {
    AtAppend(s, b, t);
    if s != [] && Last(s).timeMs > b.timeMs {
      InsertLateStable(Front(s), b, t);
      AtAppend(InsertLate(Front(s), b), Last(s), t);
      AtAppend(Front(s), b, t);
    }
  }

  /** Sorted, and every timestamp keeps its rows in their original order: a stable permutation. */
  lemma {:induction false} StableSortFacts(s: seq<Bar>, t: int)
    ensures Ascending(StableSort(s))
    ensures At(StableSort(s), t) == At(s, t)
  {
    if s != [] {
      StableSortFacts(Front(s), t);
      var r := StableSort(Front(s));
      InsertLateAscending(r, Last(s));
      InsertLateStable(r, Last(s), t);
      AtAppend(r, Last(s), t);
    }
  }

  // ---- Last row of a timestamp -------------------------------------------

  lemma {:induction false} AtMembers(s: seq<Bar>, t: int)
    ensures At(s, t) == [] <==> !HasTime(s, t)
    ensures At(s, t) != [] ==> Last(At(s, t)).timeMs == t && Last(At(s, t)) in s
  {
    if s != [] {
      AtMembers(Front(s), t);
      assert HasTime(Front(s), t) ==> HasTime(s, t);
      if Last(s).timeMs == t {
        assert s[|s| - 1].timeMs == t;
      } else if HasTime(s, t) {
        var i :| 0 <= i < |s| && s[i].timeMs == t;
        assert Front(s)[i].timeMs == t;
      }
    }
  }

  lemma {:induction false} LastValidOfAt(raw: seq<Bar>, t: int)
    ensures At(ValidOnly(raw), t) != [] ==> IsLastValid(raw, Last(At(ValidOnly(raw), t)))
    ensures forall j :: 0 <= j < |raw| && IsValidBar(raw[j]) && raw[j].timeMs == t ==> At(ValidOnly(raw), t) != []
  {
    if raw != [] {
      var f := Front(raw);
      LastValidOfAt(f, t);
      if IsValidBar(Last(raw)) {
        AtAppend(ValidOnly(f), Last(raw), t);
      } else {
        assert ValidOnly(raw) == ValidOnly(f);
      }
      AtMembers(ValidOnly(f), t);
      if IsValidBar(Last(raw)) && Last(raw).timeMs == t {
        assert LastValidAt(raw, |raw| - 1);
      } else {
        assert At(ValidOnly(raw), t) == At(ValidOnly(f), t);
        if At(ValidOnly(f), t) != [] {
          var b := Last(At(ValidOnly(f), t));
          var j: nat :| j < |f| && f[j] == b && LastValidAt(f, j);
          assert raw[j] == b && LastValidAt(raw, j);
        }
        forall j | 0 <= j < |raw| && IsValidBar(raw[j]) && raw[j].timeMs == t
          ensures At(ValidOnly(raw), t) != []
        {
          assert f[j] == raw[j];
        }
      }
    }
  }

  // ---- Dedupe ------------------------------------------------------------

  lemma {:induction false} DedupeEnds(s: seq<Bar>)
    requires s != []
    ensures DedupeLastWins(s) != [] && Last(DedupeLastWins(s)) == Last(s)
  {
  }

  lemma {:induction false} DedupeStrict(s: seq<Bar>)
    requires Ascending(s)
    ensures StrictlyAscending(DedupeLastWins(s))
  {
    if |s| > 1 {
      var r := DedupeLastWins(Front(s));
      DedupeStrict(Front(s));
      DedupeEnds(Front(s));
      assert Last(r).timeMs <= Last(s).timeMs;
    }
  }

  lemma {:induction false} DedupeIsLast(s: seq<Bar>, x: Bar)
    requires Ascending(s) && x in DedupeLastWins(s)
    ensures At(s, x.timeMs) != [] && Last(At(s, x.timeMs)) == x
  {
    var f, b := Front(s), Last(s);
    var r := DedupeLastWins(f);
    if x != b {
      assert x in r;
      DedupeIsLast(f, x);
      DedupeStrict(f);
      DedupeEnds(f);
      assert Last(f).timeMs <= b.timeMs;
      var i :| 0 <= i < |DedupeLastWins(s)| && DedupeLastWins(s)[i] == x;
      assert i < |DedupeLastWins(s)| - 1 && r[i] == x;
      assert x.timeMs != b.timeMs by {
        DedupeStrict(s);
        DedupeEnds(s);
      }
    }
  }

  lemma {:induction false} DedupeCovers(s: seq<Bar>, x: Bar)
    requires x in s
    ensures HasTime(DedupeLastWins(s), x.timeMs)
  {
    var r, d := DedupeLastWins(Front(s)), DedupeLastWins(s);
    if x.timeMs == Last(s).timeMs {
      assert d[|d| - 1].timeMs == x.timeMs;
    } else {
      assert x in Front(s);
      DedupeCovers(Front(s), x);
      var i :| 0 <= i < |r| && r[i].timeMs == x.timeMs;
      assert d[i].timeMs == x.timeMs;
    }
  }

  // ---- Main results ------------------------------------------------------

  /** A bar that survives the dedupe of a stable sort is the last valid row of its timestamp. */
  lemma SurvivorIsLast(raw: seq<Bar>, sorted: seq<Bar>, x: Bar)
    requires Ascending(sorted) && At(sorted, x.timeMs) == At(ValidOnly(raw), x.timeMs)
    requires x in DedupeLastWins(sorted)
    ensures IsLastValid(raw, x)
  {
    DedupeIsLast(sorted, x);
    LastValidOfAt(raw, x.timeMs);
  }

  lemma ValidSurvives(raw: seq<Bar>, sorted: seq<Bar>, j: nat)
    requires j < |raw| && IsValidBar(raw[j]) && At(sorted, raw[j].timeMs) == At(ValidOnly(raw), raw[j].timeMs)
    ensures HasTime(DedupeLastWins(sorted), raw[j].timeMs)
  {
    var t := raw[j].timeMs;
    LastValidOfAt(raw, t);
    AtMembers(sorted, t);
    var k :| 0 <= k < |sorted| && sorted[k].timeMs == t;
    DedupeCovers(sorted, sorted[k]);
  }

  lemma NormalizeIsNormalForm(raw: seq<Bar>)
    ensures IsNormalForm(raw, Normalize(raw))
  {
    var sorted := StableSort(ValidOnly(raw));
    var d := DedupeLastWins(sorted);
    StableSortFacts(ValidOnly(raw), 0);
    DedupeStrict(sorted);
    var out := Normalize(raw);
    var cut := |d| - |out|;
    assert forall i :: 0 <= i < |out| ==> out[i] == d[cut + i];
    forall i | 0 <= i < |out|
      ensures IsLastValid(raw, out[i])
    {
      assert d[cut + i] in d;
      StableSortFacts(ValidOnly(raw), out[i].timeMs);
      SurvivorIsLast(raw, sorted, out[i]);
    }
    forall j | 0 <= j < |raw| && IsValidBar(raw[j])
      ensures HasTime(out, raw[j].timeMs) || (|out| == MAX_COUNT_BACK && raw[j].timeMs < out[0].timeMs)
    {
      StableSortFacts(ValidOnly(raw), raw[j].timeMs);
      ValidSurvives(raw, sorted, j);
      var i :| 0 <= i < |d| && d[i].timeMs == raw[j].timeMs;
      if i >= cut {
        assert out[i - cut].timeMs == raw[j].timeMs;
      } else {
        assert out[0] == d[cut];
      }
    }
  }

  ghost function Times(s: seq<Bar>): set<int> {
    set i | 0 <= i < |s| :: s[i].timeMs
  }

  ghost function ValidTimes(raw: seq<Bar>): set<int> {
    set j | 0 <= j < |raw| && IsValidBar(raw[j]) :: raw[j].timeMs
  }

  lemma {:induction false} TimesCount(s: seq<Bar>)
    requires StrictlyAscending(s)
    ensures |Times(s)| == |s|
  {
    if s != [] {
      TimesCount(Front(s));
      assert Last(s).timeMs !in Times(Front(s));
      assert Times(s) == Times(Front(s)) + {Last(s).timeMs} by {
        assert forall i :: 0 <= i < |s| - 1 ==> Front(s)[i] == s[i];
        assert s[|s| - 1].timeMs in Times(s);
      }
    }
  }

  /** If a full normal form misses `t`, then everything it holds is newer, hence held by any other. */
  lemma NewerTimesShared(raw: seq<Bar>, a: seq<Bar>, b: seq<Bar>, t: int)
    requires IsNormalForm(raw, a) && IsNormalForm(raw, b)
    requires t in Times(a) && |b| == MAX_COUNT_BACK && t < b[0].timeMs
    ensures Times(b) <= Times(a) - {t}
  {
    var i :| 0 <= i < |a| && a[i].timeMs == t;
    assert a[0].timeMs <= t;
    forall u | u in Times(b)
      ensures u in Times(a) - {t}
    {
      var k :| 0 <= k < |b| && b[k].timeMs == u;
      assert IsLastValid(raw, b[k]);
      assert HasTime(a, u);
    }
  }

  lemma NormalFormTimesWithin(raw: seq<Bar>, a: seq<Bar>, b: seq<Bar>)
    requires IsNormalForm(raw, a) && IsNormalForm(raw, b)
    ensures Times(a) <= Times(b)
  {
    forall t | t in Times(a)
      ensures t in Times(b)
    {
      var i :| 0 <= i < |a| && a[i].timeMs == t;
      assert IsLastValid(raw, a[i]);
      if t !in Times(b) {
        assert !HasTime(b, t);
        NewerTimesShared(raw, a, b, t);
        TimesCount(a);
        TimesCount(b);
        SubsetCount(Times(b), Times(a) - {t});
        assert false;
      }
    }
  }

  lemma {:induction false} AscendingByTimes(a: seq<Bar>, b: seq<Bar>)
    requires StrictlyAscending(a) && StrictlyAscending(b) && Times(a) == Times(b)
    ensures |a| == |b| && forall i :: 0 <= i < |a| ==> a[i].timeMs == b[i].timeMs
  {
    TimesCount(a);
    TimesCount(b);
    if a != [] {
      assert Last(a).timeMs in Times(b) && Last(b).timeMs in Times(a);
      var x, y := Front(a), Front(b);
      assert Times(x) == Times(a) - {Last(a).timeMs} by { FrontTimes(a); }
      assert Times(y) == Times(b) - {Last(b).timeMs} by { FrontTimes(b); }
      AscendingByTimes(x, y);
    }
  }

  lemma FrontTimes(s: seq<Bar>)
    requires s != [] && StrictlyAscending(s)
    ensures Times(Front(s)) == Times(s) - {Last(s).timeMs}
  {
    assert forall i :: 0 <= i < |s| - 1 ==> Front(s)[i] == s[i];
  }

  /** The normal form of a series is unique, so the reference predicate pins `Normalize` down. */
  lemma NormalFormUnique(raw: seq<Bar>, a: seq<Bar>, b: seq<Bar>)
    requires IsNormalForm(raw, a) && IsNormalForm(raw, b)
    ensures a == b
  {
    NormalFormTimesWithin(raw, a, b);
    NormalFormTimesWithin(raw, b, a);
    AscendingByTimes(a, b);
    forall i | 0 <= i < |a|
      ensures a[i] == b[i]
    {
      assert IsLastValid(raw, a[i]) && IsLastValid(raw, b[i]);
      var j: nat :| j < |raw| && raw[j] == a[i] && LastValidAt(raw, j);
      var k: nat :| k < |raw| && raw[k] == b[i] && LastValidAt(raw, k);
      assert j == k;
    }
  }

  /** Both directions at once: a series is the output exactly when it is the normal form. */
  lemma NormalizeIff(raw: seq<Bar>, out: seq<Bar>)
    ensures out == Normalize(raw) <==> IsNormalForm(raw, out)
  {
    NormalizeIsNormalForm(raw);
    if IsNormalForm(raw, out) {
      NormalFormUnique(raw, out, Normalize(raw));
    }
  }

  /** Exactly the newest min(1500, distinct valid timestamps) survive. */
  lemma NormalizeKeepsNewest(raw: seq<Bar>)
    ensures |Normalize(raw)| == if |ValidTimes(raw)| < 1500 then |ValidTimes(raw)| else 1500
    ensures Times(Normalize(raw)) <= ValidTimes(raw)
    ensures forall t, u :: t in Times(Normalize(raw)) && u in ValidTimes(raw) - Times(Normalize(raw)) ==> u < t
  {
    NormalizeIsNormalForm(raw);
    var out := Normalize(raw);
    TimesCount(out);
    forall t | t in Times(out)
      ensures t in ValidTimes(raw)
    {
      var i :| 0 <= i < |out| && out[i].timeMs == t;
      assert IsLastValid(raw, out[i]);
    }
    SubsetCount(Times(out), ValidTimes(raw));
    forall u | u in ValidTimes(raw) && u !in Times(out)
      ensures |out| == MAX_COUNT_BACK && forall t :: t in Times(out) ==> u < t
    {
      assert !HasTime(out, u);
    }
    if |out| < MAX_COUNT_BACK {
      assert Times(out) == ValidTimes(raw);
    }
  }

  /** Normalising twice (bridge client, then dispatcher or stream) equals normalising once. */
  lemma NormalizeIdempotent(raw: seq<Bar>)
    ensures Normalize(Normalize(raw)) == Normalize(raw)
  {
    var n := Normalize(raw);
    NormalizeIsNormalForm(raw);
    forall i | 0 <= i < |n|
      ensures IsLastValid(n, n[i])
    {
      assert IsLastValid(raw, n[i]);
      assert LastValidAt(n, i);
    }
    NormalizeIff(n, n);
  }

  /** A bar is valid exactly if its time is in range, its volume is not negative and its prices form an envelope:
      a positive low, a high, and open and close between them, all of them finite. */
  lemma ValidBarIff(b: Bar)
    ensures IsValidBar(b) <==>
              && 1 <= b.timeMs <= 4_102_444_800_000
              && b.volume.Finite? && b.volume.value >= 0.0
              && b.low.Finite? && b.open.Finite? && b.close.Finite? && b.high.Finite?
              && 0.0 < b.low.value <= b.open.value <= b.high.value
              && b.low.value <= b.close.value <= b.high.value
  {
  }
}
