/** The session metrics of AnalyticsMetricsService
    (blackjack-trainer/src/app/core/services/analytics-metrics.service.ts):
    totals, hint usage, recent entries, per-action and per-scenario
    statistics, rolling trends, overdue spaced-repetition keys and the
    response-time histogram, all computed from the answer history. */
module Analytics {

  import opened Options
  import opened Models
  import opened Srs

  // ---------------------------------------------------------------
  // Array built-ins

  /** The position a bound of Array.prototype.slice denotes in an array
      of length n: negative bounds count back from the end, and the
      result is clamped to 0..n. */
  function SliceIndex(n: nat, k: int): (i: nat)
    ensures i <= n
  {
    if k < 0 then (if n + k > 0 then n + k else 0)
    else if k < n then k else n
  }

  /** s.slice(start) */
  function SliceFrom<T>(s: seq<T>, start: int): seq<T> {
    s[SliceIndex(|s|, start)..]
  }

  /** s.slice(0, end) */
  function SliceTo<T>(s: seq<T>, end: int): seq<T> {
    s[..SliceIndex(|s|, end)]
  }

  /** s.slice(-count) keeps the last min(count, |s|) elements when count
      is positive, and the whole array when count is 0 (since -0 is 0). */
  lemma SliceLast<T>(s: seq<T>, count: int)
    requires count >= 0
    ensures count > 0 ==> SliceFrom(s, -count) == s[|s| - IMin(count, |s|)..]
    ensures count == 0 ==> SliceFrom(s, -count) == s
  {
  }

  /** s.slice(0, limit) keeps the first min(limit, |s|) elements when limit
      is not negative. */
  lemma SliceFirst<T>(s: seq<T>, limit: int)
    requires limit >= 0
    ensures SliceTo(s, limit) == s[..IMin(limit, |s|)]
  {
  }

  /** Array.prototype.reverse: the elements in the opposite order. */
  function Reverse<T>(s: seq<T>): (r: seq<T>)
    ensures |r| == |s|
    ensures forall i :: 0 <= i < |s| ==> r[i] == s[|s| - 1 - i]
  {
    if s == [] then [] else [s[|s| - 1]] + Reverse(s[..|s| - 1])
  }

  // ---------------------------------------------------------------
  // Sums and ratios

  function SumAttempts(h: seq<SessionStatEntry>): nat {
    if h == [] then 0 else SumAttempts(h[..|h| - 1]) + h[|h| - 1].attempts
  }

  function SumCorrect(h: seq<SessionStatEntry>): nat {
    if h == [] then 0 else SumCorrect(h[..|h| - 1]) + h[|h| - 1].correct
  }

  /** Appending an entry adds its counts to both sums. */
  lemma SumsSnoc(h: seq<SessionStatEntry>, e: SessionStatEntry)
    ensures SumAttempts(h + [e]) == SumAttempts(h) + e.attempts
    ensures SumCorrect(h + [e]) == SumCorrect(h) + e.correct
  {
    assert (h + [e])[..|h|] == h;
  }

  /** Entries whose successes do not exceed their attempts, as every entry
      the trainers record (0 or 1 success in 1 attempt). */
  predicate WellCounted(h: seq<SessionStatEntry>) {
    forall i :: 0 <= i < |h| ==> h[i].correct <= h[i].attempts
  }

  lemma {:induction false} CorrectAtMostAttempts(h: seq<SessionStatEntry>)
    requires WellCounted(h)
    ensures SumCorrect(h) <= SumAttempts(h)
  {
    if h != [] {
      var prefix := h[..|h| - 1];
      assert forall i :: 0 <= i < |prefix| ==> prefix[i] == h[i];
      CorrectAtMostAttempts(prefix);
    }
  }

  /** (c / a) * 100 when a is non-zero, else 0: the source's `a ? ... : 0`. */
  function Percent(c: int, a: int): real {
    if a != 0 then c as real / a as real * 100.0 else 0.0
  }

  /** The plain ratio c / a with the same zero fallback. */
  function Ratio(c: int, a: int): real {
    if a != 0 then c as real / a as real else 0.0
  }

  /** A ratio of counts with 0 <= c <= a lies in [0, 1]. */
  lemma RatioBounded(c: int, a: int)
    requires 0 <= c <= a
    ensures 0.0 <= Ratio(c, a) <= 1.0
    ensures Percent(c, a) == Ratio(c, a) * 100.0
  {
    if a != 0 {
      var q := c as real / a as real;
      assert q * a as real == c as real;
    }
  }

  // ---------------------------------------------------------------
  // computeTotals

  datatype TotalsMetrics = TotalsMetrics(attempts: nat, correct: nat, accuracy: real, avgTime: real)

  /** The response times of the entries that carry one, in order. */
  function Times(h: seq<SessionStatEntry>): (r: seq<real>)
    ensures |r| <= |h|
  {
    if h == [] then []
    else
      var e := h[|h| - 1];
      Times(h[..|h| - 1]) + (if e.ms.Some? then [e.ms.value] else [])
  }

  function SumReals(s: seq<real>): real {
    if s == [] then 0.0 else SumReals(s[..|s| - 1]) + s[|s| - 1]
  }

  /** The arithmetic mean, 0 for no values. */
  function Mean(s: seq<real>): real {
    if s == [] then 0.0 else SumReals(s) / |s| as real
  }

  function ComputeTotals(h: seq<SessionStatEntry>): TotalsMetrics {
    var attempts := SumAttempts(h);
    var correct := SumCorrect(h);
    TotalsMetrics(attempts, correct, Percent(correct, attempts), Mean(Times(h)))
  }

  /** Accuracy is a percentage, and 0 for an empty history. */
  lemma TotalsAccuracy(h: seq<SessionStatEntry>)
    requires WellCounted(h)
    ensures var t := ComputeTotals(h);
      t.correct <= t.attempts && 0.0 <= t.accuracy <= 100.0 && (t.attempts == 0 ==> t.accuracy == 0.0)
  {
    CorrectAtMostAttempts(h);
    RatioBounded(SumCorrect(h), SumAttempts(h));
  }

  /** Recording one more entry adds its counts to the totals and its time,
      if any, to the timed values. */
  lemma TotalsSnoc(h: seq<SessionStatEntry>, e: SessionStatEntry)
    ensures ComputeTotals(h + [e]).attempts == ComputeTotals(h).attempts + e.attempts
    ensures ComputeTotals(h + [e]).correct == ComputeTotals(h).correct + e.correct
    ensures Times(h + [e]) == Times(h) + (if e.ms.Some? then [e.ms.value] else [])
  {
    SumsSnoc(h, e);
    assert (h + [e])[..|h|] == h;
  }

  /** Every value within [lo, hi] puts the sum within |s| * [lo, hi]. */
  lemma {:induction false} SumBetween(s: seq<real>, lo: real, hi: real)
    requires forall i :: 0 <= i < |s| ==> lo <= s[i] <= hi
    ensures |s| as real * lo <= SumReals(s) <= |s| as real * hi
  {
    if s != [] {
      var prefix := s[..|s| - 1];
      assert forall i :: 0 <= i < |prefix| ==> prefix[i] == s[i];
      SumBetween(prefix, lo, hi);
      var n := |prefix| as real;
      assert |s| as real * lo == n * lo + lo;
      assert |s| as real * hi == n * hi + hi;
    }
  }

  /** The mean of values within [lo, hi] is within [lo, hi]. */
  lemma MeanBetween(s: seq<real>, lo: real, hi: real)
    requires s != []
    requires forall i :: 0 <= i < |s| ==> lo <= s[i] <= hi
    ensures lo <= Mean(s) <= hi
  {
    SumBetween(s, lo, hi);
    var n := |s| as real;
    QuotientBetween(SumReals(s), n, lo, hi);
  }

  /** For a positive divisor n, a dividend within n * [lo, hi] gives a
      quotient within [lo, hi]. */
  lemma QuotientBetween(total: real, n: real, lo: real, hi: real)
    requires n > 0.0 && n * lo <= total <= n * hi
    ensures lo <= total / n <= hi
  {
    var m := total / n;
    assert m * n == total;
    if m < lo {
      PositiveProduct(lo - m, n);
    }
    if m > hi {
      PositiveProduct(m - hi, n);
    }
  }

  lemma PositiveProduct(a: real, b: real)
    requires a > 0.0 && b > 0.0
    ensures a * b > 0.0
  {
  }

  /** The average time is taken over the timed entries only: 0 when none
      is timed, and otherwise within the range of their times. */
  lemma TotalsAverageTime(h: seq<SessionStatEntry>, lo: real, hi: real)
    requires forall i :: 0 <= i < |h| && h[i].ms.Some? ==> lo <= h[i].ms.value <= hi
    ensures Times(h) == [] ==> ComputeTotals(h).avgTime == 0.0
    ensures Times(h) != [] ==> lo <= ComputeTotals(h).avgTime <= hi
  {
    TimesWithin(h, lo, hi);
    if Times(h) != [] {
      MeanBetween(Times(h), lo, hi);
    }
  }

  lemma {:induction false} TimesWithin(h: seq<SessionStatEntry>, lo: real, hi: real)
    requires forall i :: 0 <= i < |h| && h[i].ms.Some? ==> lo <= h[i].ms.value <= hi
    ensures forall i :: 0 <= i < |Times(h)| ==> lo <= Times(h)[i] <= hi
  {
    if h != [] {
      var prefix := h[..|h| - 1];
      assert forall i :: 0 <= i < |prefix| ==> prefix[i] == h[i];
      TimesWithin(prefix, lo, hi);
    }
  }

  // ---------------------------------------------------------------
  // computeHintUsage

  datatype HintMetrics = HintMetrics(total: nat, withHint: nat, hintRate: real)

  /** history.filter(h => h.mode === 'drill') */
  function DrillEntries(h: seq<SessionStatEntry>): (r: seq<SessionStatEntry>)
    ensures forall i :: 0 <= i < |r| ==> r[i].mode == Drill
  {
    if h == [] then []
    else
      var e := h[|h| - 1];
      DrillEntries(h[..|h| - 1]) + (if e.mode == Drill then [e] else [])
  }

  /** drill.filter(h => h.usedHint) */
  function Hinted(d: seq<SessionStatEntry>): (r: seq<SessionStatEntry>)
    ensures |r| <= |d|
    ensures forall i :: 0 <= i < |r| ==> r[i].usedHint == Some(true)
  {
    if d == [] then []
    else
      var e := d[|d| - 1];
      Hinted(d[..|d| - 1]) + (if e.usedHint == Some(true) then [e] else [])
  }

  function ComputeHintUsage(h: seq<SessionStatEntry>): HintMetrics {
    var drill := DrillEntries(h);
    var withHint := |Hinted(drill)|;
    HintMetrics(|drill|, withHint, Percent(withHint, |drill|))
  }

  /** Hinted answers are among the drill answers, and the rate is a
      percentage that is 0 when there is no drill answer. */
  lemma HintUsageBounds(h: seq<SessionStatEntry>)
    ensures var m := ComputeHintUsage(h);
      m.withHint <= m.total && 0.0 <= m.hintRate <= 100.0 && (m.total == 0 ==> m.hintRate == 0.0)
  {
    var drill := DrillEntries(h);
    RatioBounded(|Hinted(drill)|, |drill|);
  }

  /** One more entry counts only if it is a drill answer, and counts as
      hinted only if it is a drill answer that used a hint. */
  lemma HintUsageSnoc(h: seq<SessionStatEntry>, e: SessionStatEntry)
    ensures ComputeHintUsage(h + [e]).total == ComputeHintUsage(h).total + (if e.mode == Drill then 1 else 0)
    ensures ComputeHintUsage(h + [e]).withHint
         == ComputeHintUsage(h).withHint + (if e.mode == Drill && e.usedHint == Some(true) then 1 else 0)
  {
    assert (h + [e])[..|h|] == h;
    var d := DrillEntries(h);
    if e.mode == Drill {
      assert DrillEntries(h + [e]) == d + [e];
      assert (d + [e])[..|d|] == d;
    } else {
      assert DrillEntries(h + [e]) == d;
    }
  }

  // ---------------------------------------------------------------
  // computeRecent and computeSpark

  /** [...history].slice(-count).reverse() */
  function ComputeRecent(h: seq<SessionStatEntry>, count: int): seq<SessionStatEntry> {
    Reverse(SliceFrom(h, -count))
  }

  /** For a positive count: the last min(count, |h|) entries, newest first;
      for count 0 the whole history, newest first. */
  lemma RecentNewestFirst(h: seq<SessionStatEntry>, count: int)
    requires count >= 0
    ensures var r := ComputeRecent(h, count);
      |r| == (if count == 0 then |h| else IMin(count, |h|))
      && forall i :: 0 <= i < |r| ==> r[i] == h[|h| - 1 - i]
  {
    SliceLast(h, count);
  }

  /** The percentage of one entry, 0 without attempts. */
  function EntryPercent(e: SessionStatEntry): real {
    Percent(e.correct, e.attempts)
  }

  /** [...history].slice(-count).map(percentage) */
  function ComputeSpark(h: seq<SessionStatEntry>, count: int): (r: seq<real>) {
    var last := SliceFrom(h, -count);
    seq(|last|, i requires 0 <= i < |last| => EntryPercent(last[i]))
  }

  /** For a positive count the spark line has one point per entry of the
      last min(count, |h|), oldest first, each a percentage. */
  lemma SparkPoints(h: seq<SessionStatEntry>, count: int)
    requires count > 0 && WellCounted(h)
    ensures var r := ComputeSpark(h, count);
      var start := |h| - IMin(count, |h|);
      |r| == IMin(count, |h|)
      && forall i :: 0 <= i < |r| ==> r[i] == EntryPercent(h[start + i]) && 0.0 <= r[i] <= 100.0
  {
    SliceLast(h, count);
    var start := |h| - IMin(count, |h|);
    forall j | start <= j < |h|
      ensures 0.0 <= EntryPercent(h[j]) <= 100.0
    {
      RatioBounded(h[j].correct, h[j].attempts);
    }
  }

  // ---------------------------------------------------------------
  // Aggregation by action or by scenario

  /** The field an aggregation groups by: `expected` (the correct action)
      or `scenario` (the scenario key). */
  datatype Field = ByAction | ByScenario

  function KeyOf(e: SessionStatEntry, f: Field): Option<string> {
    match f
    case ByAction => e.expected
    case ByScenario => e.scenario
  }

  /** An entry grouped under key k; entries whose field is absent or empty
      are skipped (`if (!h.expected) continue`). */
  predicate HasKey(e: SessionStatEntry, f: Field, k: string) {
    KeyOf(e, f) == Some(k) && k != ""
  }

  /** Some entry of h is grouped under k. */
  predicate Occurs(h: seq<SessionStatEntry>, f: Field, k: string) {
    exists i :: 0 <= i < |h| && HasKey(h[i], f, k)
  }

  datatype Tally = Tally(attempts: nat, correct: nat)

  /** The per-key tallies the aggregation loop builds, entry by entry. */
  function AggOf(h: seq<SessionStatEntry>, f: Field): map<string, Tally> {
    if h == [] then map[]
    else
      var m := AggOf(h[..|h| - 1], f);
      var e := h[|h| - 1];
      if !Truthy(KeyOf(e, f)) then m
      else
        var k := KeyOf(e, f).value;
        var t := if k in m then m[k] else Tally(0, 0);
        m[k := Tally(t.attempts + e.attempts, t.correct + e.correct)]
  }

  /** The keys in the order they were first added (the order in which
      Object.entries lists keys that are not array indices). */
  function KeysOf(h: seq<SessionStatEntry>, f: Field): seq<string> {
    if h == [] then []
    else
      var ks := KeysOf(h[..|h| - 1], f);
      var e := h[|h| - 1];
      if !Truthy(KeyOf(e, f)) || KeyOf(e, f).value in ks then ks else ks + [KeyOf(e, f).value]
  }

  /** The entries grouped under k, in history order. */
  function EntriesFor(h: seq<SessionStatEntry>, f: Field, k: string): (r: seq<SessionStatEntry>)
    ensures forall i :: 0 <= i < |r| ==> HasKey(r[i], f, k)
  {
    if h == [] then []
    else
      var e := h[|h| - 1];
      EntriesFor(h[..|h| - 1], f, k) + (if HasKey(e, f, k) then [e] else [])
  }

  function TallyOf(es: seq<SessionStatEntry>): Tally {
    Tally(SumAttempts(es), SumCorrect(es))
  }

  /** A key is tallied exactly when some entry is grouped under it. */
  lemma {:induction false} AggKeysOccur(h: seq<SessionStatEntry>, f: Field)
    ensures forall k :: k in AggOf(h, f) <==> Occurs(h, f, k)
  {
    if h != [] {
      var prefix := h[..|h| - 1];
      AggKeysOccur(prefix, f);
      forall k
        ensures k in AggOf(h, f) <==> Occurs(h, f, k)
      {
        if k in AggOf(prefix, f) {
          var i :| 0 <= i < |prefix| && HasKey(prefix[i], f, k);
          assert h[i] == prefix[i];
        }
        if exists i :: 0 <= i < |h| && HasKey(h[i], f, k) {
          var i :| 0 <= i < |h| && HasKey(h[i], f, k);
          if i < |prefix| {
            assert prefix[i] == h[i];
          }
        }
      }
    }
  }

  /** A key no entry carries has no entries. */
  lemma {:induction false} NoEntriesForAbsentKey(h: seq<SessionStatEntry>, f: Field, k: string)
    requires forall i :: 0 <= i < |h| ==> !HasKey(h[i], f, k)
    ensures EntriesFor(h, f, k) == []
  {
    if h != [] {
      var prefix := h[..|h| - 1];
      assert forall i :: 0 <= i < |prefix| ==> prefix[i] == h[i];
      NoEntriesForAbsentKey(prefix, f, k);
    }
  }

  /** Each tally holds the sums over its key's entries. */
  lemma {:induction false} AggTotals(h: seq<SessionStatEntry>, f: Field)
    ensures forall k :: k in AggOf(h, f) ==> AggOf(h, f)[k] == TallyOf(EntriesFor(h, f, k))
  {
    if h != [] {
      var prefix := h[..|h| - 1];
      AggTotals(prefix, f);
      AggKeysOccur(prefix, f);
      forall k | k in AggOf(h, f)
        ensures AggOf(h, f)[k] == TallyOf(EntriesFor(h, f, k))
      {
        if k !in AggOf(prefix, f) {
          NoEntriesForAbsentKey(prefix, f, k);
        }
        AggTotalsStep(h, f, k);
      }
    }
  }

  /** The last entry of h updates the tally of key k exactly as it extends
      k's entries. */
  lemma AggTotalsStep(h: seq<SessionStatEntry>, f: Field, k: string)
    requires h != [] && k in AggOf(h, f)
    requires k in AggOf(h[..|h| - 1], f) ==> AggOf(h[..|h| - 1], f)[k] == TallyOf(EntriesFor(h[..|h| - 1], f, k))
    requires k !in AggOf(h[..|h| - 1], f) ==> EntriesFor(h[..|h| - 1], f, k) == []
    ensures AggOf(h, f)[k] == TallyOf(EntriesFor(h, f, k))
  {
    var m, before, e := AggOf(h[..|h| - 1], f), EntriesFor(h[..|h| - 1], f, k), h[|h| - 1];
    if HasKey(e, f, k) {
      assert AggOf(h, f)[k] == Tally(TallyAt(m, k).attempts + e.attempts, TallyAt(m, k).correct + e.correct);
      SumsSnoc(before, e);
    } else {
      assert AggOf(h, f)[k] == m[k];
      assert EntriesFor(h, f, k) == before + [] == before;
    }
  }

  /** The key list names each tallied key, and each only once. */
  lemma {:induction false} KeysOfAgg(h: seq<SessionStatEntry>, f: Field)
    ensures forall k :: k in KeysOf(h, f) <==> k in AggOf(h, f)
    ensures forall i, j :: 0 <= i < j < |KeysOf(h, f)| ==> KeysOf(h, f)[i] != KeysOf(h, f)[j]
  {
    if h != [] {
      KeysOfAgg(h[..|h| - 1], f);
    }
  }

  /** A key missing from the key list has no entries. */
  lemma AbsentKeyNoEntries(h: seq<SessionStatEntry>, f: Field, k: string)
    requires k !in KeysOf(h, f)
    ensures EntriesFor(h, f, k) == []
  {
    KeysOfAgg(h, f);
    AggKeysOccur(h, f);
    NoEntriesForAbsentKey(h, f, k);
  }

  /** The aggregation loop of computeActionStats and computeWeakest: one
      tally per key, created on first sight (`map[k] ||= {...}`) and
      increased by each entry grouped under it. */
  method Aggregate(h: seq<SessionStatEntry>, f: Field) returns (agg: map<string, Tally>, order: seq<string>)
    ensures agg == AggOf(h, f) && order == KeysOf(h, f)
  {
    agg, order := map[], [];
    for i := 0 to |h|
      invariant agg == AggOf(h[..i], f) && order == KeysOf(h[..i], f)
    {
      assert h[..i + 1][..i] == h[..i];
      var e := h[i];
      if !Truthy(KeyOf(e, f)) {
        continue;
      }
      var k := KeyOf(e, f).value;
      var t := if k in agg then agg[k] else Tally(0, 0);
      if k !in order {
        order := order + [k];
      }
      agg := agg[k := Tally(t.attempts + e.attempts, t.correct + e.correct)];
    }
    assert h[..|h|] == h;
  }

  // ---------------------------------------------------------------
  // Ordering

  /** Ordinal string order: code unit by code unit, a proper prefix
      first. */
  predicate StrLess(a: string, b: string) {
    if a == [] then b != []
    else b != [] && (a[0] < b[0] || (a[0] == b[0] && StrLess(a[1..], b[1..])))
  }

  lemma {:induction false} StrLessIrreflexive(a: string)
    ensures !StrLess(a, a)
  {
    if a != [] {
      StrLessIrreflexive(a[1..]);
    }
  }

  lemma {:induction false} StrLessTransitive(a: string, b: string, c: string)
    requires StrLess(a, b) && StrLess(b, c)
    ensures StrLess(a, c)
  {
    if a != [] && a[0] == b[0] && b[0] == c[0] {
      StrLessTransitive(a[1..], b[1..], c[1..]);
    }
  }

  lemma {:induction false} StrLessTotal(a: string, b: string)
    requires a != b
    ensures StrLess(a, b) || StrLess(b, a)
  {
    if a != [] && b != [] && a[0] == b[0] {
      assert a == [a[0]] + a[1..] && b == [b[0]] + b[1..];
      StrLessTotal(a[1..], b[1..]);
    }
  }

  /** Sorting by a numeric key with Array.prototype.sort, which is stable:
      each element is inserted after every element whose key does not
      exceed its own. */
  function InsertBy<T>(s: seq<T>, x: T, key: T -> real): (r: seq<T>)
    ensures multiset(r) == multiset(s) + multiset{x}
  {
    if s == [] || key(s[|s| - 1]) <= key(x) then s + [x]
    else
      assert s == s[..|s| - 1] + [s[|s| - 1]];
      InsertBy(s[..|s| - 1], x, key) + [s[|s| - 1]]
  }

  function SortBy<T>(s: seq<T>, key: T -> real): (r: seq<T>)
    ensures multiset(r) == multiset(s)
  {
    if s == [] then []
    else
      assert s == s[..|s| - 1] + [s[|s| - 1]];
      InsertBy(SortBy(s[..|s| - 1], key), s[|s| - 1], key)
  }

  predicate SortedBy<T>(s: seq<T>, key: T -> real) {
    forall i, j :: 0 <= i < j < |s| ==> key(s[i]) <= key(s[j])
  }

  /** The elements whose key is exactly k, in order. */
  function Among<T>(s: seq<T>, key: T -> real, k: real): seq<T> {
    if s == [] then []
    else Among(s[..|s| - 1], key, k) + (if key(s[|s| - 1]) == k then [s[|s| - 1]] else [])
  }

  /** Appending an element whose key is at least every other key keeps
      the order. */
  lemma SortedSnocBy<T>(s: seq<T>, x: T, key: T -> real)
    requires SortedBy(s, key)
    requires forall i :: 0 <= i < |s| ==> key(s[i]) <= key(x)
    ensures SortedBy(s + [x], key)
  {
    var r := s + [x];
    forall i, j | 0 <= i < j < |r|
      ensures key(r[i]) <= key(r[j])
    {
      assert r[i] == s[i];
      if j < |s| {
        assert r[j] == s[j];
      }
    }
  }

  lemma {:induction false} InsertBySorted<T>(s: seq<T>, x: T, key: T -> real)
    requires SortedBy(s, key)
    ensures SortedBy(InsertBy(s, x, key), key)
  {
    if s == [] {
    } else if key(s[|s| - 1]) <= key(x) {
      SortedSnocBy(s, x, key);
    } else {
      var front, last := s[..|s| - 1], s[|s| - 1];
      assert SortedBy(front, key);
      InsertBySorted(front, x, key);
      var r := InsertBy(front, x, key);
      forall i | 0 <= i < |r|
        ensures key(r[i]) <= key(last)
      {
        assert r[i] in multiset(r);
        if r[i] != x {
          assert r[i] in multiset(front);
          var j :| 0 <= j < |front| && front[j] == r[i];
          assert s[j] == r[i];
        }
      }
      SortedSnocBy(r, last, key);
    }
  }

  lemma AmongSnoc<T>(s: seq<T>, y: T, key: T -> real, k: real)
    ensures Among(s + [y], key, k) == Among(s, key, k) + (if key(y) == k then [y] else [])
  {
    assert (s + [y])[..|s|] == s;
  }

  /** Insertion keeps the elements of equal key in their order, with the
      new one after them. */
  lemma {:induction false} InsertByAmong<T>(s: seq<T>, x: T, key: T -> real, k: real)
    ensures Among(InsertBy(s, x, key), key, k) == Among(s, key, k) + (if key(x) == k then [x] else [])
  {
    if s == [] || key(s[|s| - 1]) <= key(x) {
      AmongSnoc(s, x, key, k);
    } else {
      var front, last := s[..|s| - 1], s[|s| - 1];
      InsertByAmong(front, x, key, k);
      var r := InsertBy(front, x, key);
      AmongSnoc(r, last, key, k);
      var before := Among(front, key, k);
      var ofX: seq<T> := if key(x) == k then [x] else [];
      var ofLast: seq<T> := if key(last) == k then [last] else [];
      SwapDisjoint(before, ofX, ofLast);
    }
  }

  lemma SwapDisjoint<T>(before: seq<T>, a: seq<T>, b: seq<T>)
    requires a == [] || b == []
    ensures before + a + b == before + b + a
  {
  }

  /** The sorted sequence holds only elements of the input. */
  lemma SortByMembers<T>(s: seq<T>, key: T -> real)
    ensures forall i :: 0 <= i < |SortBy(s, key)| ==> SortBy(s, key)[i] in s
  {
    var r := SortBy(s, key);
    forall i | 0 <= i < |r|
      ensures r[i] in s
    {
      assert r[i] in multiset(s);
    }
  }

    lemma {:induction false} SortBySorted<T>(s: seq<T>, key: T -> real)
    ensures SortedBy(SortBy(s, key), key)
  {
    if s != [] {
      SortBySorted(s[..|s| - 1], key);
      InsertBySorted(SortBy(s[..|s| - 1], key), s[|s| - 1], key);
    }
  }

  /** Elements with equal keys keep their relative order. */
  lemma {:induction false} SortByStable<T>(s: seq<T>, key: T -> real, k: real)
    ensures Among(SortBy(s, key), key, k) == Among(s, key, k)
  {
    if s != [] {
      var front, last := s[..|s| - 1], s[|s| - 1];
      SortByStable(front, key, k);
      InsertByAmong(SortBy(front, key), last, key, k);
    }
  }

  /** Sorting keeps the length and the set of elements. */
  lemma SortBySameMembers<T>(s: seq<T>, key: T -> real)
    ensures |SortBy(s, key)| == |s|
    ensures forall x :: x in SortBy(s, key) <==> x in s
  {
    var r := SortBy(s, key);
    assert |multiset(r)| == |r| && |multiset(s)| == |s|;
    forall x
      ensures x in r <==> x in s
    {
      assert x in r <==> x in multiset(r);
      assert x in s <==> x in multiset(s);
    }
  }

  /** In an ascending sequence, no element of the first n has a larger key
      than an element outside them. */
  lemma PrefixLowest<T>(sorted: seq<T>, key: T -> real, n: int)
    requires SortedBy(sorted, key) && 0 <= n <= |sorted|
    ensures forall i, x :: 0 <= i < n && x in sorted && x !in sorted[..n] ==> key(sorted[i]) <= key(x)
  {
    forall i, x | 0 <= i < n && x in sorted && x !in sorted[..n]
      ensures key(sorted[i]) <= key(x)
    {
      var j :| 0 <= j < |sorted| && sorted[j] == x;
    }
  }

  /** Sorting ascending and keeping the first `limit`: min(limit, |s|)
      elements of s in ascending order, none with a key above that of an
      element left out, and all of s when it fits. */
  lemma KeepLowest<T>(s: seq<T>, key: T -> real, limit: int)
    requires limit >= 0
    ensures var r := SliceTo(SortBy(s, key), limit);
      |r| == IMin(limit, |s|)
      && SortedBy(r, key)
      && (forall x :: x in r ==> x in s)
      && (forall i, x :: 0 <= i < |r| && x in s && x !in r ==> key(r[i]) <= key(x))
      && (|s| <= limit ==> forall x :: x in s ==> x in r)
  {
    var sorted := SortBy(s, key);
    SortBySorted(s, key);
    SortBySameMembers(s, key);
    SliceFirst(sorted, limit);
    var n := IMin(limit, |sorted|);
    PrefixLowest(sorted, key, n);
    var r := sorted[..n];
    assert SliceTo(sorted, limit) == r;
    assert forall x :: x in r ==> x in sorted;
    if |s| <= limit {
      assert r == sorted;
    }
  }

  // ---------------------------------------------------------------
  // computeActionStats

  datatype ActionStat = ActionStat(action: string, attempts: nat, correct: nat, acc: real)

  /** A row of the table: the sums and the ratio correct / attempts (0
      without attempts). */
  function StatRow(action: string, t: Tally): ActionStat {
    ActionStat(action, t.attempts, t.correct, Ratio(t.correct, t.attempts))
  }

  /** The tally of a key, empty when absent. */
  function TallyAt(agg: map<string, Tally>, k: string): Tally {
    if k in agg then agg[k] else Tally(0, 0)
  }

  function StatRows(keys: seq<string>, agg: map<string, Tally>): (r: seq<ActionStat>)
    ensures |r| == |keys|
    ensures forall i :: 0 <= i < |r| ==> r[i] == StatRow(keys[i], TallyAt(agg, keys[i]))
  {
    seq(|keys|, i requires 0 <= i < |keys| => StatRow(keys[i], TallyAt(agg, keys[i])))
  }

  predicate NamesAscending(rows: seq<ActionStat>) {
    forall i, j :: 0 <= i < j < |rows| ==> StrLess(rows[i].action, rows[j].action)
  }

  /** Inserts a row whose action is new into rows ordered by action. */
  function InsertByName(rows: seq<ActionStat>, x: ActionStat): (r: seq<ActionStat>)
    ensures multiset(r) == multiset(rows) + multiset{x}
  {
    if rows == [] || StrLess(x.action, rows[0].action) then [x] + rows
    else
      assert rows == [rows[0]] + rows[1..];
      [rows[0]] + InsertByName(rows[1..], x)
  }

  /** .sort((a, b) => a.action.localeCompare(b.action)), on rows with
      distinct actions. */
  function SortByName(rows: seq<ActionStat>): (r: seq<ActionStat>)
    ensures multiset(r) == multiset(rows)
  {
    if rows == [] then []
    else
      assert rows == rows[..|rows| - 1] + [rows[|rows| - 1]];
      InsertByName(SortByName(rows[..|rows| - 1]), rows[|rows| - 1])
  }

  lemma {:induction false} InsertByNameAscending(rows: seq<ActionStat>, x: ActionStat)
    requires NamesAscending(rows)
    requires forall i :: 0 <= i < |rows| ==> rows[i].action != x.action
    ensures NamesAscending(InsertByName(rows, x))
  {
    if rows == [] {
    } else if StrLess(x.action, rows[0].action) {
      forall j | 0 <= j < |rows|
        ensures StrLess(x.action, rows[j].action)
      {
        if j > 0 {
          StrLessTransitive(x.action, rows[0].action, rows[j].action);
        }
      }
    } else {
      StrLessTotal(x.action, rows[0].action);
      var tail := rows[1..];
      assert NamesAscending(tail);
      InsertByNameAscending(tail, x);
      var r := InsertByName(tail, x);
      forall y | y in r
        ensures StrLess(rows[0].action, y.action)
      {
        assert y in multiset(r);
      }
    }
  }

  predicate DistinctNames(rows: seq<ActionStat>) {
    forall i, j :: 0 <= i < j < |rows| ==> rows[i].action != rows[j].action
  }

  lemma {:induction false} SortByNameAscending(rows: seq<ActionStat>)
    requires DistinctNames(rows)
    ensures NamesAscending(SortByName(rows))
  {
    if rows != [] {
      var front, last := rows[..|rows| - 1], rows[|rows| - 1];
      assert DistinctNames(front);
      SortByNameAscending(front);
      var sorted := SortByName(front);
      forall i | 0 <= i < |sorted|
        ensures sorted[i].action != last.action
      {
        assert sorted[i] in multiset(front);
      }
      InsertByNameAscending(sorted, last);
    }
  }

  /** The rows of computeActionStats, as a function of the history. */
  function ActionStats(h: seq<SessionStatEntry>): seq<ActionStat> {
    SortByName(StatRows(KeysOf(h, ByAction), AggOf(h, ByAction)))
  }

  method ComputeActionStats(h: seq<SessionStatEntry>) returns (rows: seq<ActionStat>)
    ensures rows == ActionStats(h)
  {
    var agg, order := Aggregate(h, ByAction);
    rows := SortByName(StatRows(order, agg));
  }

  /** The rows are in ascending order of action, hence one per action. */
  lemma ActionStatsAscending(h: seq<SessionStatEntry>)
    ensures NamesAscending(ActionStats(h))
  {
    KeysOfAgg(h, ByAction);
    SortByNameAscending(StatRows(KeysOf(h, ByAction), AggOf(h, ByAction)));
  }

  /** Some row is about action a. */
  predicate HasRow(rows: seq<ActionStat>, a: string) {
    exists i :: 0 <= i < |rows| && rows[i].action == a
  }

  /** Sorting the rows of a key list keeps one row per key, each with its
      key's tally. */
  lemma SortedStatRows(keys: seq<string>, agg: map<string, Tally>)
    ensures var r := SortByName(StatRows(keys, agg));
      (forall i :: 0 <= i < |r| ==> r[i].action in keys && r[i] == StatRow(r[i].action, TallyAt(agg, r[i].action)))
      && forall a :: a in keys ==> HasRow(r, a)
  {
    var rows := StatRows(keys, agg);
    var r := SortByName(rows);
    forall i | 0 <= i < |r|
      ensures r[i].action in keys && r[i] == StatRow(r[i].action, TallyAt(agg, r[i].action))
    {
      assert r[i] in multiset(rows);
      var j :| 0 <= j < |rows| && rows[j] == r[i];
    }
    forall a | a in keys
      ensures HasRow(r, a)
    {
      var j :| 0 <= j < |keys| && keys[j] == a;
      assert rows[j] in multiset(r);
      var i :| 0 <= i < |r| && r[i] == rows[j];
    }
  }

  /** There is a row for an action exactly when some entry expected it, and
      each row sums that action's entries. */
  lemma ActionStatsRows(h: seq<SessionStatEntry>)
    ensures var r := ActionStats(h);
      (forall a :: HasRow(r, a) <==> Occurs(h, ByAction, a))
      && forall i :: 0 <= i < |r| ==> r[i] == StatRow(r[i].action, TallyOf(EntriesFor(h, ByAction, r[i].action)))
  {
    KeysOfAgg(h, ByAction);
    AggKeysOccur(h, ByAction);
    AggTotals(h, ByAction);
    SortedStatRows(KeysOf(h, ByAction), AggOf(h, ByAction));
  }

  // ---------------------------------------------------------------
  // computeWeakest and computeHardestActions

  datatype WeakScenario = WeakScenario(scenario: string, acc: real, attempts: nat)

  function WeakAcc(w: WeakScenario): real { w.acc }

  /** The scenarios, mapped to rows, that have at least minAttempts
      attempts, in key order. */
  function Candidates(keys: seq<string>, agg: map<string, Tally>, minAttempts: int): (r: seq<WeakScenario>)
    ensures forall w :: w in r ==> w.attempts >= minAttempts && w.scenario in keys && w == WeakRow(w.scenario, TallyAt(agg, w.scenario))
  {
    if keys == [] then []
    else
      var k := keys[|keys| - 1];
      var w := WeakRow(k, TallyAt(agg, k));
      Candidates(keys[..|keys| - 1], agg, minAttempts) + (if w.attempts >= minAttempts then [w] else [])
  }

  function WeakRow(scenario: string, t: Tally): WeakScenario {
    WeakScenario(scenario, Ratio(t.correct, t.attempts), t.attempts)
  }

  /** computeWeakest(history, minAttempts, limit) */
  function Weakest(h: seq<SessionStatEntry>, minAttempts: int, limit: int): seq<WeakScenario> {
    var candidates := Candidates(KeysOf(h, ByScenario), AggOf(h, ByScenario), minAttempts);
    SliceTo(SortBy(candidates, WeakAcc), limit)
  }

  method ComputeWeakest(h: seq<SessionStatEntry>, minAttempts: int, limit: int) returns (r: seq<WeakScenario>)
    ensures r == Weakest(h, minAttempts, limit)
  {
    var agg, order := Aggregate(h, ByScenario);
    r := SliceTo(SortBy(Candidates(order, agg, minAttempts), WeakAcc), limit);
  }

  /** The rows kept from sorted candidates: min(limit, #candidates) of
      them, in ascending accuracy, each a candidate, none less accurate
      than a candidate left out, and every candidate when they all fit. */
  lemma KeptCandidates(keys: seq<string>, agg: map<string, Tally>, minAttempts: int, limit: int)
    requires limit >= 0
    ensures var c := Candidates(keys, agg, minAttempts);
      var r := SliceTo(SortBy(c, WeakAcc), limit);
      |r| == IMin(limit, |c|)
      && SortedBy(r, WeakAcc)
      && (forall i :: 0 <= i < |r| ==>
           r[i].attempts >= minAttempts && r[i].scenario in keys && r[i] == WeakRow(r[i].scenario, TallyAt(agg, r[i].scenario)))
      && (forall i, w :: 0 <= i < |r| && w in c && w !in r ==> r[i].acc <= w.acc)
      && (|c| <= limit ==> forall w :: w in c ==> w in r)
  {
    var c := Candidates(keys, agg, minAttempts);
    KeepLowest(c, WeakAcc, limit);
    var r := SliceTo(SortBy(c, WeakAcc), limit);
    forall i | 0 <= i < |r|
      ensures r[i].attempts >= minAttempts && r[i].scenario in keys && r[i] == WeakRow(r[i].scenario, TallyAt(agg, r[i].scenario))
    {
      assert r[i] in c;
    }
    forall i, w | 0 <= i < |r| && w in c && w !in r
      ensures r[i].acc <= w.acc
    {
      assert WeakAcc(r[i]) <= WeakAcc(w);
    }
  }

  /** A scenario some entry carries, with at least minAttempts attempts
      summed over its entries. */
  predicate Eligible(h: seq<SessionStatEntry>, f: Field, k: string, minAttempts: int) {
    Occurs(h, f, k) && SumAttempts(EntriesFor(h, f, k)) >= minAttempts
  }

  /** The accuracy of key k over its entries. */
  function KeyAcc(h: seq<SessionStatEntry>, f: Field, k: string): real {
    Ratio(SumCorrect(EntriesFor(h, f, k)), SumAttempts(EntriesFor(h, f, k)))
  }

  /** At most `limit` rows, in ascending accuracy, each a scenario with at
      least minAttempts attempts summed over its entries; an eligible
      scenario left out is at least as accurate as every row kept, and
      when fewer than `limit` rows come back every eligible scenario is
      among them. */
  lemma WeakestRows(h: seq<SessionStatEntry>, minAttempts: int, limit: int)
    requires limit >= 0
    ensures var r := Weakest(h, minAttempts, limit);
      |r| <= limit
      && SortedBy(r, WeakAcc)
      && (forall i :: 0 <= i < |r| ==>
           r[i].attempts >= minAttempts
           && r[i] == WeakRow(r[i].scenario, TallyOf(EntriesFor(h, ByScenario, r[i].scenario))))
      && (forall i, k :: 0 <= i < |r| && Eligible(h, ByScenario, k, minAttempts)
                         && (forall j :: 0 <= j < |r| ==> r[j].scenario != k)
                         ==> r[i].acc <= KeyAcc(h, ByScenario, k))
      && (|r| < limit ==> forall k :: Eligible(h, ByScenario, k, minAttempts) ==>
                            exists j :: 0 <= j < |r| && r[j].scenario == k)
  {
    var keys, agg := KeysOf(h, ByScenario), AggOf(h, ByScenario);
    var c := Candidates(keys, agg, minAttempts);
    var r := Weakest(h, minAttempts, limit);
    KeysOfAgg(h, ByScenario);
    AggKeysOccur(h, ByScenario);
    AggTotals(h, ByScenario);
    KeptCandidates(keys, agg, minAttempts, limit);
    forall k | Eligible(h, ByScenario, k, minAttempts)
      ensures WeakRow(k, TallyAt(agg, k)) in c
      ensures WeakRow(k, TallyAt(agg, k)).acc == KeyAcc(h, ByScenario, k)
    {
      CandidatesComplete(keys, agg, minAttempts, k);
    }
    forall k | |r| < limit && Eligible(h, ByScenario, k, minAttempts)
      ensures exists j :: 0 <= j < |r| && r[j].scenario == k
    {
      var w := WeakRow(k, TallyAt(agg, k));
      var j :| 0 <= j < |r| && r[j] == w;
    }
  }

  /** Every key with enough attempts is a candidate. */
  lemma {:induction false} CandidatesComplete(keys: seq<string>, agg: map<string, Tally>, minAttempts: int, k: string)
    requires k in keys && TallyAt(agg, k).attempts >= minAttempts
    ensures WeakRow(k, TallyAt(agg, k)) in Candidates(keys, agg, minAttempts)
  {
    var front := keys[..|keys| - 1];
    if keys[|keys| - 1] != k {
      assert k in front;
      CandidatesComplete(front, agg, minAttempts, k);
    }
  }

  /** With room for all of them, every key with enough attempts is kept. */
  lemma AllCandidatesKept(keys: seq<string>, agg: map<string, Tally>, minAttempts: int, limit: int, k: string)
    requires limit >= |keys| && k in keys && TallyAt(agg, k).attempts >= minAttempts
    ensures exists i :: 0 <= i < |SliceTo(SortBy(Candidates(keys, agg, minAttempts), WeakAcc), limit)|
                     && SliceTo(SortBy(Candidates(keys, agg, minAttempts), WeakAcc), limit)[i].scenario == k
  {
    var candidates := Candidates(keys, agg, minAttempts);
    var sorted := SortBy(candidates, WeakAcc);
    var j :| 0 <= j < |keys| && keys[j] == k;
    var w := WeakRow(k, TallyAt(agg, k));
    CandidatesComplete(keys, agg, minAttempts, k);
    assert w in multiset(sorted);
    CandidatesAtMostKeys(keys, agg, minAttempts);
    SliceFirst(sorted, limit);
    var i :| 0 <= i < |sorted| && sorted[i] == w;
    assert SliceTo(sorted, limit)[i] == w;
  }

  /** With room for every entry, each scenario with at least minAttempts
      attempts appears. */
  lemma WeakestComplete(h: seq<SessionStatEntry>, minAttempts: int, limit: int, k: string)
    requires limit >= |h|
    requires Occurs(h, ByScenario, k)
    requires SumAttempts(EntriesFor(h, ByScenario, k)) >= minAttempts
    ensures exists i :: 0 <= i < |Weakest(h, minAttempts, limit)| && Weakest(h, minAttempts, limit)[i].scenario == k
  {
    KeysOfAgg(h, ByScenario);
    AggKeysOccur(h, ByScenario);
    AggTotals(h, ByScenario);
    KeysAtMostEntries(h, ByScenario);
    var keys, agg := KeysOf(h, ByScenario), AggOf(h, ByScenario);
    assert k in agg && k in keys;
    AllCandidatesKept(keys, agg, minAttempts, limit, k);
    assert Weakest(h, minAttempts, limit) == SliceTo(SortBy(Candidates(keys, agg, minAttempts), WeakAcc), limit);
  }

  lemma {:induction false} KeysAtMostEntries(h: seq<SessionStatEntry>, f: Field)
    ensures |KeysOf(h, f)| <= |h|
  {
    if h != [] {
      KeysAtMostEntries(h[..|h| - 1], f);
    }
  }

  lemma {:induction false} CandidatesAtMostKeys(keys: seq<string>, agg: map<string, Tally>, minAttempts: int)
    ensures |Candidates(keys, agg, minAttempts)| <= |keys|
  {
    if keys != [] {
      CandidatesAtMostKeys(keys[..|keys| - 1], agg, minAttempts);
    }
  }

  datatype HardAction = HardAction(action: string, acc: real, attempts: nat)

  function StatAcc(s: ActionStat): real { s.acc }

  /** The action rows with at least minAttempts attempts, in order. */
  function AtLeastAttempts(rows: seq<ActionStat>, minAttempts: int): (r: seq<ActionStat>)
    ensures forall x :: x in r ==> x.attempts >= minAttempts && x in rows
  {
    if rows == [] then []
    else
      var s := rows[|rows| - 1];
      AtLeastAttempts(rows[..|rows| - 1], minAttempts) + (if s.attempts >= minAttempts then [s] else [])
  }

  function ToHard(s: ActionStat): HardAction {
    HardAction(s.action, s.acc, s.attempts)
  }

  /** computeHardestActions(history, minAttempts, limit) */
  function HardestActions(h: seq<SessionStatEntry>, minAttempts: int, limit: int): seq<HardAction> {
    HardestOf(ActionStats(h), minAttempts, limit)
  }

  /** The filter, sort, slice and projection applied to the rows. */
  function HardestOf(stats: seq<ActionStat>, minAttempts: int, limit: int): seq<HardAction> {
    var picked := SliceTo(SortBy(AtLeastAttempts(stats, minAttempts), StatAcc), limit);
    seq(|picked|, i requires 0 <= i < |picked| => ToHard(picked[i]))
  }

  /** Every row with enough attempts passes the filter. */
  lemma {:induction false} AtLeastAttemptsComplete(rows: seq<ActionStat>, minAttempts: int, x: ActionStat)
    requires x in rows && x.attempts >= minAttempts
    ensures x in AtLeastAttempts(rows, minAttempts)
  {
    var front := rows[..|rows| - 1];
    if rows[|rows| - 1] != x {
      assert x in front;
      AtLeastAttemptsComplete(front, minAttempts, x);
    }
  }

  lemma {:induction false} AtLeastAttemptsShorter(rows: seq<ActionStat>, minAttempts: int)
    ensures |AtLeastAttempts(rows, minAttempts)| <= |rows|
  {
    if rows != [] {
      AtLeastAttemptsShorter(rows[..|rows| - 1], minAttempts);
    }
  }

  /** Keeping the first `limit` of the sorted rows with enough attempts:
      min(limit, #such rows) of them, in ascending accuracy, each one of
      the given rows with enough attempts, none less accurate than such a
      row left out, and all of them when they fit. */
  lemma KeptStats(stats: seq<ActionStat>, minAttempts: int, limit: int)
    requires limit >= 0
    ensures var kept := AtLeastAttempts(stats, minAttempts);
      var r := SliceTo(SortBy(kept, StatAcc), limit);
      |r| == IMin(limit, |kept|)
      && SortedBy(r, StatAcc)
      && (forall i :: 0 <= i < |r| ==> r[i].attempts >= minAttempts && r[i] in stats)
      && (forall i, x :: 0 <= i < |r| && x in stats && x.attempts >= minAttempts && x !in r ==> r[i].acc <= x.acc)
      && (|kept| <= limit ==> forall x :: x in stats && x.attempts >= minAttempts ==> x in r)
  {
    var kept := AtLeastAttempts(stats, minAttempts);
    KeepLowest(kept, StatAcc, limit);
    var r := SliceTo(SortBy(kept, StatAcc), limit);
    forall i | 0 <= i < |r|
      ensures r[i].attempts >= minAttempts && r[i] in stats
    {
      assert r[i] in kept;
    }
    forall x | x in stats && x.attempts >= minAttempts
      ensures x !in r ==> forall i :: 0 <= i < |r| ==> r[i].acc <= x.acc
      ensures |kept| <= limit ==> x in r
    {
      AtLeastAttemptsComplete(stats, minAttempts, x);
      if x !in r {
        assert forall i :: 0 <= i < |r| ==> StatAcc(r[i]) <= StatAcc(x);
      }
    }
  }

  /** At most `limit` rows, in ascending accuracy, each the action-stats
      row of an action with at least minAttempts attempts; an eligible
      action left out is at least as accurate as every row kept, and when
      fewer than `limit` rows come back every eligible action is among
      them. */
  lemma HardestActionsRows(h: seq<SessionStatEntry>, minAttempts: int, limit: int)
    requires limit >= 0
    ensures var r := HardestActions(h, minAttempts, limit);
      |r| <= limit
      && (forall i, j :: 0 <= i < j < |r| ==> r[i].acc <= r[j].acc)
      && (forall i :: 0 <= i < |r| ==>
           r[i].attempts >= minAttempts
           && exists j :: 0 <= j < |ActionStats(h)| && ToHard(ActionStats(h)[j]) == r[i])
      && (forall i, a :: 0 <= i < |r| && Eligible(h, ByAction, a, minAttempts)
                         && (forall j :: 0 <= j < |r| ==> r[j].action != a)
                         ==> r[i].acc <= KeyAcc(h, ByAction, a))
      && (|r| < limit ==> forall a :: Eligible(h, ByAction, a, minAttempts) ==>
                            exists j :: 0 <= j < |r| && r[j].action == a)
  {
    var stats := ActionStats(h);
    var r := HardestActions(h, minAttempts, limit);
    HardestOfRows(stats, minAttempts, limit);
    forall i, a | 0 <= i < |r| && Eligible(h, ByAction, a, minAttempts) && (forall j :: 0 <= j < |r| ==> r[j].action != a)
      ensures r[i].acc <= KeyAcc(h, ByAction, a)
    {
      var x := EligibleRow(h, a, minAttempts);
      assert ToHard(x) !in r;
    }
    forall a | |r| < limit && Eligible(h, ByAction, a, minAttempts)
      ensures exists j :: 0 <= j < |r| && r[j].action == a
    {
      var x := EligibleRow(h, a, minAttempts);
      var j :| 0 <= j < |r| && r[j] == ToHard(x);
    }
  }

  /** The action-stats row of an eligible action. */
  lemma EligibleRow(h: seq<SessionStatEntry>, a: string, minAttempts: int) returns (x: ActionStat)
    requires Eligible(h, ByAction, a, minAttempts)
    ensures x in ActionStats(h) && x.attempts >= minAttempts && x.action == a && x.acc == KeyAcc(h, ByAction, a)
  {
    var stats := ActionStats(h);
    ActionStatsRows(h);
    var k :| 0 <= k < |stats| && stats[k].action == a;
    x := stats[k];
  }

  lemma HardestOfRows(stats: seq<ActionStat>, minAttempts: int, limit: int)
    requires limit >= 0
    ensures var r := HardestOf(stats, minAttempts, limit);
      |r| == IMin(limit, |AtLeastAttempts(stats, minAttempts)|)
      && (forall i, j :: 0 <= i < j < |r| ==> r[i].acc <= r[j].acc)
      && (forall i :: 0 <= i < |r| ==>
           r[i].attempts >= minAttempts && exists j :: 0 <= j < |stats| && ToHard(stats[j]) == r[i])
      && (forall i, x :: 0 <= i < |r| && x in stats && x.attempts >= minAttempts && ToHard(x) !in r ==> r[i].acc <= x.acc)
      && (|AtLeastAttempts(stats, minAttempts)| <= limit ==>
            forall x :: x in stats && x.attempts >= minAttempts ==> ToHard(x) in r)
  {
    KeptStats(stats, minAttempts, limit);
    var picked := SliceTo(SortBy(AtLeastAttempts(stats, minAttempts), StatAcc), limit);
    ProjectRows(picked, HardestOf(stats, minAttempts, limit));
    var r := HardestOf(stats, minAttempts, limit);
    forall i | 0 <= i < |r|
      ensures exists j :: 0 <= j < |stats| && ToHard(stats[j]) == r[i]
    {
      var j :| 0 <= j < |stats| && stats[j] == picked[i];
    }
  }

  /** The projected rows keep the order, accuracy and attempts of the rows
      they come from, and project each one. */
  lemma ProjectRows(picked: seq<ActionStat>, r: seq<HardAction>)
    requires |r| == |picked| && forall k :: 0 <= k < |r| ==> r[k] == ToHard(picked[k])
    ensures forall x :: x in picked ==> ToHard(x) in r
    ensures forall i :: 0 <= i < |r| ==> r[i].acc == picked[i].acc && r[i].attempts == picked[i].attempts
  {
    forall x | x in picked
      ensures ToHard(x) in r
    {
      var k :| 0 <= k < |picked| && picked[k] == x;
      assert r[k] == ToHard(x);
    }
  }

  /** With room for every entry, each action with at least minAttempts
      attempts appears. */
  lemma HardestActionsComplete(h: seq<SessionStatEntry>, minAttempts: int, limit: int, a: string)
    requires limit >= |h| && Eligible(h, ByAction, a, minAttempts)
    ensures exists j :: 0 <= j < |HardestActions(h, minAttempts, limit)| && HardestActions(h, minAttempts, limit)[j].action == a
  {
    var stats := ActionStats(h);
    var rows := StatRows(KeysOf(h, ByAction), AggOf(h, ByAction));
    assert |multiset(stats)| == |stats| && |multiset(rows)| == |rows|;
    KeysAtMostEntries(h, ByAction);
    AtLeastAttemptsShorter(stats, minAttempts);
    ActionStatsRows(h);
    var k :| 0 <= k < |stats| && stats[k].action == a;
    var x := stats[k];
    assert x in stats && x.attempts >= minAttempts;
    HardestOfRows(stats, minAttempts, limit);
    var r := HardestActions(h, minAttempts, limit);
    assert ToHard(x) in r;
    var j :| 0 <= j < |r| && r[j] == ToHard(x);
  }

  // ---------------------------------------------------------------
  // computeActionTrends

  /** The running percentage after each entry: correct over attempts of
      the entries so far, 0 while there are no attempts. */
  function RunningAccuracy(last: seq<SessionStatEntry>): (r: seq<real>) {
    seq(|last|, i requires 0 <= i < |last| => Percent(SumCorrect(last[..i + 1]), SumAttempts(last[..i + 1])))
  }

  /** The trend of one action: the running percentage over its last
      `window` entries (all of them when window is 0, as slice(-0) keeps
      everything). */
  function Trend(entries: seq<SessionStatEntry>, window: int): seq<real> {
    RunningAccuracy(SliceFrom(entries, -window))
  }

  /** For a positive window the trend has one point per entry of the last
      min(window, n), each a percentage of the attempts up to it. */
  lemma TrendPoints(entries: seq<SessionStatEntry>, window: int)
    requires window > 0 && WellCounted(entries)
    ensures var t := Trend(entries, window);
      var last := entries[|entries| - IMin(window, |entries|)..];
      |t| == IMin(window, |entries|)
      && forall i :: 0 <= i < |t| ==>
           t[i] == Percent(SumCorrect(last[..i + 1]), SumAttempts(last[..i + 1])) && 0.0 <= t[i] <= 100.0
  {
    SliceLast(entries, window);
    var last := entries[|entries| - IMin(window, |entries|)..];
    var t := Trend(entries, window);
    forall i | 0 <= i < |t|
      ensures 0.0 <= t[i] <= 100.0
    {
      var run := last[..i + 1];
      assert forall j :: 0 <= j < |run| ==> run[j] == entries[|entries| - |last| + j];
      CorrectAtMostAttempts(run);
      RatioBounded(SumCorrect(run), SumAttempts(run));
    }
  }

  /** The inner loop: running attempts and successes, one percentage per
      entry. */
  method Rolling(last: seq<SessionStatEntry>) returns (acc: seq<real>)
    ensures acc == RunningAccuracy(last)
  {
    acc := [];
    var runAttempts, runCorrect := 0, 0;
    for i := 0 to |last|
      invariant runAttempts == SumAttempts(last[..i]) && runCorrect == SumCorrect(last[..i])
      invariant |acc| == i
      invariant forall j :: 0 <= j < i ==> acc[j] == Percent(SumCorrect(last[..j + 1]), SumAttempts(last[..j + 1]))
    {
      assert last[..i + 1][..i] == last[..i];
      runAttempts := runAttempts + last[i].attempts;
      runCorrect := runCorrect + last[i].correct;
      acc := acc + [Percent(runCorrect, runAttempts)];
    }
  }

  /** The grouping loop of computeActionTrends: each expected action's
      entries, in history order (`(perAction[a] ||= []).push(h)`), and the
      actions in the order they were first seen. */
  method GroupByAction(h: seq<SessionStatEntry>) returns (perAction: map<string, seq<SessionStatEntry>>, order: seq<string>)
    ensures forall a :: a in perAction <==> Occurs(h, ByAction, a)
    ensures forall a :: a in perAction ==> perAction[a] == EntriesFor(h, ByAction, a)
    ensures forall a :: a in perAction <==> a in order
  {
    perAction, order := map[], [];
    for i := 0 to |h|
      invariant order == KeysOf(h[..i], ByAction)
      invariant forall a :: a in perAction <==> a in order
      invariant forall a :: a in perAction ==> perAction[a] == EntriesFor(h[..i], ByAction, a)
    {
      assert h[..i + 1][..i] == h[..i];
      var e := h[i];
      if !Truthy(e.expected) {
        continue;
      }
      var a := e.expected.value;
      if a !in perAction {
        AbsentKeyNoEntries(h[..i], ByAction, a);
        order := order + [a];
        perAction := perAction[a := []];
      }
      perAction := perAction[a := perAction[a] + [e]];
    }
    assert h[..|h|] == h;
    KeysOfAgg(h, ByAction);
    AggKeysOccur(h, ByAction);
  }

  /** computeActionTrends(history, window): one trend per expected action,
      over that action's entries. */
  method ComputeActionTrends(h: seq<SessionStatEntry>, window: int) returns (trends: map<string, seq<real>>)
    ensures forall a :: a in trends <==> Occurs(h, ByAction, a)
    ensures forall a :: a in trends ==> trends[a] == Trend(EntriesFor(h, ByAction, a), window)
  {
    var perAction, order := GroupByAction(h);
    trends := map[];
    for j := 0 to |order|
      invariant forall a :: a in trends <==> a in order[..j]
      invariant forall a :: a in trends ==> trends[a] == Trend(perAction[a], window)
    {
      var a := order[j];
      assert order[..j + 1] == order[..j] + [a];
      var acc := Rolling(SliceFrom(perAction[a], -window));
      trends := trends[a := acc];
    }
    assert order[..|order|] == order;
  }

  // ---------------------------------------------------------------
  // computeOverdueSrs

  datatype OverdueMetric = OverdueMetric(key: string, overdueMinutes: int, ef: real, lapses: int)

  /** A key is listed when its due time is set (non-zero, the truthiness
      test `!e.nextDue`) and has passed. */
  predicate IsOverdue(e: SrsEntry, now: int) {
    e.nextDue != 0 && now > e.nextDue
  }

  /** The row of an overdue key: lateness in whole minutes, rounded. */
  function OverdueRow(key: string, e: SrsEntry, now: int): OverdueMetric {
    OverdueMetric(key, Round((now - e.nextDue) as real / 60000.0), e.ef, e.lapses)
  }

  /** The rows the loop pushes, in key order; keys without an entry (`!e`)
      are skipped. */
  function DueRows(keys: seq<string>, srs: map<string, SrsEntry>, now: int): (r: seq<OverdueMetric>)
    ensures forall o :: o in r ==> o.key in keys && o.key in srs && IsOverdue(srs[o.key], now) && o == OverdueRow(o.key, srs[o.key], now)
  {
    if keys == [] then []
    else
      var k := keys[|keys| - 1];
      DueRows(keys[..|keys| - 1], srs, now) + (if k in srs && IsOverdue(srs[k], now) then [OverdueRow(k, srs[k], now)] else [])
  }

  /** The sort key of `b.overdueMinutes - a.overdueMinutes`: the most
      overdue first. */
  function Lateness(o: OverdueMetric): real {
    -(o.overdueMinutes as real)
  }

  /** computeOverdueSrs(entries, srsMap, now, limit), with the map's keys in
      the order Object.keys lists them; the unused `entries` argument is
      dropped. */
  function OverdueSrs(srs: map<string, SrsEntry>, keys: seq<string>, now: int, limit: int): seq<OverdueMetric> {
    SliceTo(SortBy(DueRows(keys, srs, now), Lateness), limit)
  }

  method ComputeOverdueSrs(srs: map<string, SrsEntry>, keys: seq<string>, now: int, limit: int) returns (r: seq<OverdueMetric>)
    ensures r == OverdueSrs(srs, keys, now, limit)
  {
    var due: seq<OverdueMetric> := [];
    for i := 0 to |keys|
      invariant due == DueRows(keys[..i], srs, now)
    {
      assert keys[..i + 1][..i] == keys[..i];
      var key := keys[i];
      if key !in srs || srs[key].nextDue == 0 {
        continue;
      }
      var e := srs[key];
      if now > e.nextDue {
        due := due + [OverdueRow(key, e, now)];
      }
    }
    assert keys[..|keys|] == keys;
    r := SliceTo(SortBy(due, Lateness), limit);
  }

  /** At most `limit` rows, most overdue first, each an overdue key with a
      non-negative lateness in minutes; an overdue key left out is no
      later than any row kept, and when fewer than `limit` rows come back
      every overdue key is among them. */
  lemma OverdueSrsRows(srs: map<string, SrsEntry>, keys: seq<string>, now: int, limit: int)
    requires limit >= 0
    ensures var r := OverdueSrs(srs, keys, now, limit);
      |r| == IMin(limit, |DueRows(keys, srs, now)|)
      && (forall i, j :: 0 <= i < j < |r| ==> r[i].overdueMinutes >= r[j].overdueMinutes)
      && (forall i :: 0 <= i < |r| ==>
           r[i].key in keys && r[i].key in srs && IsOverdue(srs[r[i].key], now)
           && r[i] == OverdueRow(r[i].key, srs[r[i].key], now) && r[i].overdueMinutes >= 0)
      && (forall i, k :: 0 <= i < |r| && k in keys && k in srs && IsOverdue(srs[k], now)
                         && OverdueRow(k, srs[k], now) !in r
                         ==> r[i].overdueMinutes >= OverdueRow(k, srs[k], now).overdueMinutes)
      && (|r| < limit ==> forall k :: k in keys && k in srs && IsOverdue(srs[k], now) ==> OverdueRow(k, srs[k], now) in r)
  {
    var due := DueRows(keys, srs, now);
    KeepLowest(due, Lateness, limit);
    var r := OverdueSrs(srs, keys, now, limit);
    assert forall i, j :: 0 <= i < j < |r| ==> Lateness(r[i]) <= Lateness(r[j]);
    forall k | k in keys && k in srs && IsOverdue(srs[k], now)
      ensures OverdueRow(k, srs[k], now) !in r ==> forall i :: 0 <= i < |r| ==> r[i].overdueMinutes >= OverdueRow(k, srs[k], now).overdueMinutes
      ensures |r| < limit ==> OverdueRow(k, srs[k], now) in r
    {
      var o := OverdueRow(k, srs[k], now);
      DueRowsComplete(keys, srs, now, k);
      if o !in r {
        assert forall i :: 0 <= i < |r| ==> Lateness(r[i]) <= Lateness(o);
      }
    }
  }

  lemma {:induction false} DueRowsAtMostKeys(keys: seq<string>, srs: map<string, SrsEntry>, now: int)
    ensures |DueRows(keys, srs, now)| <= |keys|
  {
    if keys != [] {
      DueRowsAtMostKeys(keys[..|keys| - 1], srs, now);
    }
  }

  lemma {:induction false} DueRowsComplete(keys: seq<string>, srs: map<string, SrsEntry>, now: int, k: string)
    requires k in keys && k in srs && IsOverdue(srs[k], now)
    ensures OverdueRow(k, srs[k], now) in DueRows(keys, srs, now)
  {
    var front := keys[..|keys| - 1];
    if keys[|keys| - 1] != k {
      assert k in front;
      DueRowsComplete(front, srs, now, k);
    }
  }

  /** With room for every key, each overdue key is listed. */
  lemma OverdueSrsComplete(srs: map<string, SrsEntry>, keys: seq<string>, now: int, limit: int, k: string)
    requires limit >= |keys| && k in keys && k in srs && IsOverdue(srs[k], now)
    ensures OverdueRow(k, srs[k], now) in OverdueSrs(srs, keys, now, limit)
  {
    var due := DueRows(keys, srs, now);
    var sorted := SortBy(due, Lateness);
    DueRowsComplete(keys, srs, now, k);
    DueRowsAtMostKeys(keys, srs, now);
    assert OverdueRow(k, srs[k], now) in multiset(sorted);
    SliceFirst(sorted, limit);
  }

  // ---------------------------------------------------------------
  // computeTimeDistribution

  datatype TimeBucket = TimeBucket(bucket: string, count: nat)

  /** The six buckets, in the order the source declares them. */
  const BucketNames: seq<string> := ["<250ms", "250-500ms", "500ms-1s", "1-2s", "2-5s", ">5s"]

  /** The boundaries between consecutive buckets, in milliseconds. */
  const Bounds: seq<real> := [250.0, 500.0, 1000.0, 2000.0, 5000.0]

  /** The bucket a response time falls in. */
  function BucketOf(ms: real): (b: nat)
    ensures b < 6
  {
    if ms < 250.0 then 0
    else if ms < 500.0 then 1
    else if ms < 1000.0 then 2
    else if ms < 2000.0 then 3
    else if ms < 5000.0 then 4
    else 5
  }

  /** Bucket b holds exactly the times from its lower bound (inclusive) to
      its upper bound (exclusive); the first has no lower bound and the last
      no upper bound. */
  lemma BucketBounds(ms: real, b: nat)
    requires b < 6
    ensures BucketOf(ms) == b <==> (b == 0 || Bounds[b - 1] <= ms) && (b == 5 || ms < Bounds[b])
  {
  }

  /** The timed entries of h that fall in bucket b. */
  function BucketCount(h: seq<SessionStatEntry>, b: nat): nat {
    if h == [] then 0
    else
      var e := h[|h| - 1];
      BucketCount(h[..|h| - 1], b) + (if e.ms.Some? && BucketOf(e.ms.value) == b then 1 else 0)
  }

  method ComputeTimeDistribution(h: seq<SessionStatEntry>) returns (r: seq<TimeBucket>)
    ensures |r| == 6
    ensures forall b :: 0 <= b < 6 ==> r[b] == TimeBucket(BucketNames[b], BucketCount(h, b))
  {
    var counts: seq<nat> := [0, 0, 0, 0, 0, 0];
    for i := 0 to |h|
      invariant |counts| == 6
      invariant forall b :: 0 <= b < 6 ==> counts[b] == BucketCount(h[..i], b)
    {
      assert h[..i + 1][..i] == h[..i];
      if h[i].ms.None? {
        continue;
      }
      var key := BucketOf(h[i].ms.value);
      counts := counts[key := counts[key] + 1];
    }
    assert h[..|h|] == h;
    r := seq(6, b requires 0 <= b < 6 => TimeBucket(BucketNames[b], counts[b]));
  }

  /** Every timed entry lands in exactly one bucket, so the counts add up
      to the number of timed entries. */
  lemma {:induction false} BucketsCoverTimed(h: seq<SessionStatEntry>)
    ensures BucketCount(h, 0) + BucketCount(h, 1) + BucketCount(h, 2) + BucketCount(h, 3) + BucketCount(h, 4) + BucketCount(h, 5)
         == |Times(h)|
  {
    if h != [] {
      BucketsCoverTimed(h[..|h| - 1]);
    }
  }

  /** The boundary cases of the histogram: each bound opens the next
      bucket. */
  lemma BucketEdges()
    ensures BucketOf(249.0) == 0 && BucketOf(250.0) == 1 && BucketOf(499.0) == 1
    ensures BucketOf(500.0) == 2 && BucketOf(999.0) == 2 && BucketOf(1000.0) == 3
    ensures BucketOf(1999.0) == 3 && BucketOf(2000.0) == 4 && BucketOf(4999.0) == 4
    ensures BucketOf(5000.0) == 5
  {
  }
}
