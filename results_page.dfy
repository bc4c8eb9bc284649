/**
 * The results dashboard: statistics over the loaded analyses, the
 * search/type/date filter, the per-type histogram and the CSV export.
 */
module ResultsPage {
  import opened Wrappers
  import opened Text
  import Seqs
  import MultimodalResults

  type Timestamp = int

  /** The filename of a joined upload row. */
  datatype FileInfo = FileInfo(filename: string, score: real)

  /** One completed analysis as the page holds it, newest first. */
  datatype AnalysisResult = AnalysisResult(
    id: string,
    fundusConfidence: real,
    ergConfidence: real,
    combinedConfidence: real,
    colorBlindnessType: string,
    severityLevel: string,
    createdAt: Timestamp,
    fundusImage: Option<FileInfo>,
    ergData: Option<FileInfo>)

  datatype DashboardStats = DashboardStats(
    totalAnalyses: nat,
    normalResults: nat,
    abnormalResults: nat,
    averageConfidence: real,
    recentAnalyses: seq<AnalysisResult>)

  predicate IsNormal(a: AnalysisResult) {
    a.colorBlindnessType == "Normal"
  }

  /** Sum of the combined confidences. */
  function SumCombined(a: seq<AnalysisResult>): real {
    if |a| == 0 then 0.0 else SumCombined(a[..|a| - 1]) + a[|a| - 1].combinedConfidence
  }

  lemma {:induction false} SumBounds(a: seq<AnalysisResult>, lo: real, hi: real)
    requires forall i :: 0 <= i < |a| ==> lo <= a[i].combinedConfidence <= hi
    ensures |a| as real * lo <= SumCombined(a) <= |a| as real * hi
  {
    if |a| > 0 {
      SumBounds(a[..|a| - 1], lo, hi);
    }
  }

  /** sum / n on a positive count. */
  function Mean(sum: real, n: nat): (m: real)
    requires n > 0
    ensures m * n as real == sum
  {
    sum / n as real
  }

  /** A mean of values within [lo, hi] lies within [lo, hi]. */
  lemma MeanBounds(sum: real, n: nat, lo: real, hi: real)
    requires n > 0
    requires n as real * lo <= sum <= n as real * hi
    ensures lo <= Mean(sum, n) <= hi
  {
  }

  /** The statistics computed after loading. */
  function ComputeStats(a: seq<AnalysisResult>): (s: DashboardStats)
    ensures s.totalAnalyses == |a|
    ensures s.normalResults == Seqs.Count(a, IsNormal)
    ensures s.normalResults + s.abnormalResults == s.totalAnalyses
    ensures |a| == 0 ==> s.averageConfidence == 0.0
    ensures |a| > 0 ==> s.averageConfidence == Mean(SumCombined(a), |a|)
    ensures |s.recentAnalyses| == if |a| < 5 then |a| else 5
    ensures forall i :: 0 <= i < |s.recentAnalyses| ==> s.recentAnalyses[i] == a[i]
  {
    Seqs.FilterLength(a, IsNormal);
    var total := |a|;
    var normal := |Seqs.Filter(a, IsNormal)|;
    var average := if total == 0 then 0.0 else Mean(SumCombined(a), total);
    DashboardStats(total, normal, total - normal, average, if total < 5 then a else a[..5])
  }

  /** The average lies within any bounds that every confidence lies within. */
  lemma AverageWithinBounds(a: seq<AnalysisResult>, lo: real, hi: real)
    requires |a| > 0
    requires forall i :: 0 <= i < |a| ==> lo <= a[i].combinedConfidence <= hi
    ensures lo <= ComputeStats(a).averageConfidence <= hi
  {
    SumBounds(a, lo, hi);
    MeanBounds(SumCombined(a), |a|, lo, hi);
  }

  /** The filter controls: search term, type ("all" or one type) and an optional date range. */
  datatype Filters = Filters(searchTerm: string, filterType: string, from: Option<Timestamp>, to: Option<Timestamp>)

  /** Case-insensitive substring match on the type or either filename. */
  predicate MatchesSearch(a: AnalysisResult, term: string) {
    var t := ToLower(term);
    || Contains(ToLower(a.colorBlindnessType), t)
    || (a.fundusImage.Some? && Contains(ToLower(a.fundusImage.value.filename), t))
    || (a.ergData.Some? && Contains(ToLower(a.ergData.value.filename), t))
  }

  predicate MatchesType(a: AnalysisResult, filterType: string) {
    filterType == "all" || a.colorBlindnessType == filterType
  }

  /** The date range applies only when both bounds are set; then both ends are inclusive. */
  predicate MatchesDate(a: AnalysisResult, from: Option<Timestamp>, to: Option<Timestamp>) {
    from.None? || to.None? || (from.value <= a.createdAt && a.createdAt <= to.value)
  }

  predicate Passes(f: Filters, a: AnalysisResult) {
    MatchesSearch(a, f.searchTerm) && MatchesType(a, f.filterType) && MatchesDate(a, f.from, f.to)
  }

  function FilteredAnalyses(a: seq<AnalysisResult>, f: Filters): (r: seq<AnalysisResult>)
    ensures forall x :: x in r <==> x in a && Passes(f, x)
    ensures Seqs.IsSubsequence(r, a)
    ensures forall x :: multiset(r)[x] == if Passes(f, x) then multiset(a)[x] else 0
  {
    Seqs.FilterIsSubsequence(a, x => Passes(f, x));
    Seqs.FilterMultiplicity(a, x => Passes(f, x));
    Seqs.Filter(a, x => Passes(f, x))
  }

  /** With an empty search, type "all" and no date range, nothing is filtered out. */
  lemma DefaultFiltersKeepAll(a: seq<AnalysisResult>)
    ensures FilteredAnalyses(a, Filters("", "all", None, None)) == a
  {
    var f := Filters("", "all", None, None);
    forall i | 0 <= i < |a|
      ensures Passes(f, a[i])
    {
      ContainsEmpty(ToLower(a[i].colorBlindnessType));
    }
    Seqs.FilterKeepsAll(a, x => Passes(f, x));
  }

  /** An empty search term matches every analysis, whatever its type or files. */
  lemma EmptySearchMatches(a: AnalysisResult)
    ensures MatchesSearch(a, "")
  {
    ContainsEmpty(ToLower(a.colorBlindnessType));
  }

  /** The distinct types present. */
  function TypesOf(a: seq<AnalysisResult>): set<string> {
    set i | 0 <= i < |a| :: a[i].colorBlindnessType
  }

  /** Number of analyses of type t. */
  function CountType(a: seq<AnalysisResult>, t: string): nat {
    if |a| == 0 then 0
    else CountType(a[..|a| - 1], t) + (if a[|a| - 1].colorBlindnessType == t then 1 else 0)
  }

  lemma {:induction false} CountTypeAbsent(a: seq<AnalysisResult>, t: string)
    requires t !in TypesOf(a)
    ensures CountType(a, t) == 0
  {
    if |a| > 0 {
      var p := a[..|a| - 1];
      assert TypesOf(p) <= TypesOf(a) by {
        forall s | s in TypesOf(p) ensures s in TypesOf(a) {
          var i :| 0 <= i < |p| && p[i].colorBlindnessType == s;
          assert a[i].colorBlindnessType == s;
        }
      }
      CountTypeAbsent(p, t);
      assert a[|a| - 1].colorBlindnessType in TypesOf(a);
    }
  }

  /** Sum of the values of a map. */
  ghost function MapTotal(m: map<string, nat>): nat
    decreases |m|
  {
    if m == map[] then 0
    else
      var k :| k in m;
      m[k] + MapTotal(m - {k})
  }

  /** The sum does not depend on which key is taken out first. */
  lemma {:induction false} MapTotalRemove(m: map<string, nat>, k: string)
    requires k in m
    ensures MapTotal(m) == m[k] + MapTotal(m - {k})
    decreases |m|
  {
    var j :| j in m && MapTotal(m) == m[j] + MapTotal(m - {j});
    if j != k {
      MapTotalRemove(m - {j}, k);
      MapTotalRemove(m - {k}, j);
      assert m - {j} - {k} == m - {k} - {j};
    }
  }

  lemma MapTotalIncrement(m: map<string, nat>, k: string)
    ensures k in m ==> MapTotal(m[k := m[k] + 1]) == MapTotal(m) + 1
    ensures k !in m ==> MapTotal(m[k := 1]) == MapTotal(m) + 1
  {
    var n := if k in m then m[k := m[k] + 1] else m[k := 1];
    MapTotalRemove(n, k);
    if k in m {
      MapTotalRemove(m, k);
      assert n - {k} == m - {k};
    } else {
      assert n - {k} == m;
    }
  }

  /** One more analysis adds its type to the types present. */
  lemma TypesStep(a: seq<AnalysisResult>, i: nat)
    requires i < |a|
    ensures TypesOf(a[..i + 1]) == TypesOf(a[..i]) + {a[i].colorBlindnessType}
  {
    var p, q := a[..i], a[..i + 1];
    assert q[..i] == p && q[i] == a[i];
    forall s | s in TypesOf(q) ensures s in TypesOf(p) + {a[i].colorBlindnessType} {
      var j :| 0 <= j < i + 1 && q[j].colorBlindnessType == s;
      if j < i {
        assert p[j].colorBlindnessType == s;
      }
    }
    assert q[i].colorBlindnessType in TypesOf(q);
    forall s | s in TypesOf(p) ensures s in TypesOf(q) {
      var j :| 0 <= j < i && p[j].colorBlindnessType == s;
      assert q[j].colorBlindnessType == s;
    }
  }

  /** One more analysis adds one to its own type's count and nothing to the others. */
  lemma CountStep(a: seq<AnalysisResult>, i: nat)
    requires i < |a|
    ensures forall t :: CountType(a[..i + 1], t) == CountType(a[..i], t) + (if a[i].colorBlindnessType == t then 1 else 0)
  {
    assert a[..i + 1][..i] == a[..i];
  }

  /** `acc[t] = (acc[t] || 0) + 1`: one more analysis of type t. */
  function Bump(dist: map<string, nat>, t: string): map<string, nat> {
    dist[t := (if t in dist then dist[t] else 0) + 1]
  }

  /** The histogram of a prefix: its keys, its counts and its total. */
  ghost predicate HistogramOf(dist: map<string, nat>, a: seq<AnalysisResult>) {
    && dist.Keys == TypesOf(a)
    && (forall t :: t in dist ==> dist[t] == CountType(a, t))
    && MapTotal(dist) == |a|
  }

  lemma BumpKeys(a: seq<AnalysisResult>, i: nat, dist: map<string, nat>)
    requires i < |a| && dist.Keys == TypesOf(a[..i])
    ensures Bump(dist, a[i].colorBlindnessType).Keys == TypesOf(a[..i + 1])
  {
    TypesStep(a, i);
  }

  lemma BumpCounts(a: seq<AnalysisResult>, i: nat, dist: map<string, nat>)
    requires i < |a| && dist.Keys == TypesOf(a[..i])
    requires forall t :: t in dist ==> dist[t] == CountType(a[..i], t)
    ensures var d := Bump(dist, a[i].colorBlindnessType);
            forall t :: t in d ==> d[t] == CountType(a[..i + 1], t)
  {
    CountStep(a, i);
    if a[i].colorBlindnessType !in dist {
      CountTypeAbsent(a[..i], a[i].colorBlindnessType);
    }
  }

  /** Counting one more analysis turns the histogram of a prefix into that of the next. */
  lemma BumpExtends(a: seq<AnalysisResult>, i: nat, dist: map<string, nat>)
    requires i < |a| && HistogramOf(dist, a[..i])
    ensures HistogramOf(Bump(dist, a[i].colorBlindnessType), a[..i + 1])
  {
    BumpKeys(a, i, dist);
    BumpCounts(a, i, dist);
    MapTotalIncrement(dist, a[i].colorBlindnessType);
  }

  /**
   * The per-type histogram, built by counting into a dictionary: its keys are
   * the types present, each count is that type's number of analyses, and the
   * counts add up to the number of analyses.
   */
  method TypeDistribution(a: seq<AnalysisResult>) returns (dist: map<string, nat>)
    ensures dist.Keys == TypesOf(a)
    ensures forall t :: t in dist ==> dist[t] == CountType(a, t)
    ensures MapTotal(dist) == |a|
  {
    dist := map[];
    var i := 0;
    while i < |a|
      invariant 0 <= i <= |a|
      invariant HistogramOf(dist, a[..i])
    {
      BumpExtends(a, i, dist);
      dist := Bump(dist, a[i].colorBlindnessType);
      i := i + 1;
    }
    assert a[..|a|] == a;
    assert HistogramOf(dist, a);
  }

  /**
   * A value the page's plain-object accumulator can hold under a key: a
   * count, or the text of an inherited Object.prototype member followed by
   * `ones` appended "1"s (what `(member || 0) + 1` concatenates to).
   */
  datatype Slot = Tally(n: nat) | Stringified(member: string, ones: nat)

  /**
   * `acc[t] = (acc[t] || 0) + 1` on the `{}` the page starts from, as written:
   * a key the object does not own reads the inherited member of that name,
   * which is truthy, so `+ 1` concatenates; a primitive assigned to
   * `__proto__` is dropped.
   */
  function BumpAsWritten(acc: map<string, Slot>, t: string): map<string, Slot> {
    if t in acc then
      match acc[t]
      case Tally(n) => acc[t := Tally(n + 1)]
      case Stringified(m, k) => acc[t := Stringified(m, k + 1)]
    else if t == "__proto__" then acc
    else if t in MultimodalResults.InheritedKeys then acc[t := Stringified(t, 1)]
    else acc[t := Tally(1)]
  }

  /** The histogram as the page's `reduce` builds it; `__proto__` never becomes a key. */
  function DistributionAsWritten(a: seq<AnalysisResult>): (acc: map<string, Slot>)
    ensures forall t :: t in acc ==> t in TypesOf(a) && t != "__proto__"
  {
    if |a| == 0 then map[]
    else
      var n := |a| - 1;
      TypesStep(a, n);
      assert a[..n + 1] == a;
      BumpAsWritten(DistributionAsWritten(a[..n]), a[n].colorBlindnessType)
  }

  /** For names that are not Object.prototype members, the page counts correctly. */
  lemma {:induction false} AsWrittenAgreesOutsideInherited(a: seq<AnalysisResult>)
    ensures forall t :: t !in MultimodalResults.InheritedKeys ==>
              (t in DistributionAsWritten(a) <==> t in TypesOf(a))
    ensures forall t :: t !in MultimodalResults.InheritedKeys && t in DistributionAsWritten(a) ==>
              DistributionAsWritten(a)[t] == Tally(CountType(a, t))
  {
    if |a| > 0 {
      var n := |a| - 1;
      var p := a[..n];
      AsWrittenAgreesOutsideInherited(p);
      TypesStep(a, n);
      CountStep(a, n);
      assert a[..n + 1] == a;
      var t := a[n].colorBlindnessType;
      if t !in MultimodalResults.InheritedKeys && t !in DistributionAsWritten(p) {
        CountTypeAbsent(p, t);
      }
    }
  }

  /** An analysis typed "constructor" is tallied as text, and one typed "__proto__" not at all. */
  lemma InheritedTypeNameMiscounted(x: AnalysisResult)
    ensures x.colorBlindnessType == "constructor" ==>
              DistributionAsWritten([x]) == map["constructor" := Stringified("constructor", 1)]
    ensures x.colorBlindnessType == "__proto__" ==> DistributionAsWritten([x]) == map[]
  {
    assert [x][..0] == [];
    assert "constructor" in MultimodalResults.InheritedKeys;
  }

  const CsvHeader: seq<string> :=
    ["Date", "Type", "Severity", "Combined Confidence", "Fundus Confidence", "ERG Confidence"]

  /** One data row: date, type, severity, and the three confidences as rounded percentages. */
  function CsvFields(a: AnalysisResult, day: Timestamp -> string): (fields: seq<string>)
    ensures |fields| == |CsvHeader|
  {
    [day(a.createdAt), a.colorBlindnessType, a.severityLevel,
     IntToString(Round(a.combinedConfidence * 100.0)),
     IntToString(Round(a.fundusConfidence * 100.0)),
     IntToString(Round(a.ergConfidence * 100.0))]
  }

  function CsvLines(filtered: seq<AnalysisResult>, day: Timestamp -> string): (lines: seq<string>)
    ensures |lines| == |filtered| + 1
  {
    [Join(CsvHeader, ",")] + seq(|filtered|, i requires 0 <= i < |filtered| => Join(CsvFields(filtered[i], day), ","))
  }

  /** The exported file: the header line, then one line per filtered analysis, joined by newlines. */
  function ExportCsv(filtered: seq<AnalysisResult>, day: Timestamp -> string): string {
    Join(CsvLines(filtered, day), "\n")
  }

  /** Text fields free of the two separators. */
  predicate Plain(s: string) {
    '\n' !in s && ',' !in s
  }

  predicate CsvSafe(a: AnalysisResult, day: Timestamp -> string) {
    Plain(day(a.createdAt)) && Plain(a.colorBlindnessType) && Plain(a.severityLevel)
  }

  /** A data line of a plain analysis holds exactly six comma-separated fields and no newline. */
  lemma CsvLineShape(a: AnalysisResult, day: Timestamp -> string)
    requires CsvSafe(a, day)
    ensures CountChar(Join(CsvFields(a, day), ","), ',') == 5
    ensures '\n' !in Join(CsvFields(a, day), ",")
  {
    var fields := CsvFields(a, day);
    JoinSeparatorCount(fields, ',');
    JoinAvoids(fields, ",", '\n');
  }

  lemma HeaderShape()
    ensures CountChar(Join(CsvHeader, ","), ',') == 5
    ensures '\n' !in Join(CsvHeader, ",")
  {
    PlainHeader();
    JoinSeparatorCount(CsvHeader, ',');
    JoinAvoids(CsvHeader, ",", '\n');
  }

  lemma PlainHeader()
    ensures forall i :: 0 <= i < |CsvHeader| ==> Plain(CsvHeader[i])
  {
    forall i | 0 <= i < |CsvHeader| ensures Plain(CsvHeader[i]) {
      var h := CsvHeader[i];
      assert forall j :: 0 <= j < |h| ==> h[j] != ',' && h[j] != '\n';
    }
  }

  /** Every line of the export of plain analyses has six fields and no newline. */
  lemma LinesShape(filtered: seq<AnalysisResult>, day: Timestamp -> string)
    requires forall i :: 0 <= i < |filtered| ==> CsvSafe(filtered[i], day)
    ensures forall i :: 0 <= i < |CsvLines(filtered, day)| ==>
              CountChar(CsvLines(filtered, day)[i], ',') == 5 && '\n' !in CsvLines(filtered, day)[i]
  {
    var lines := CsvLines(filtered, day);
    HeaderShape();
    forall i | 0 <= i < |lines|
      ensures CountChar(lines[i], ',') == 5 && '\n' !in lines[i]
    {
      if i > 0 {
        assert lines[i] == Join(CsvFields(filtered[i - 1], day), ",");
        CsvLineShape(filtered[i - 1], day);
      }
    }
  }

  /**
   * When no field holds a separator, the export has exactly one newline per
   * filtered analysis: the header line plus one line each.
   */
  lemma CsvNewlines(filtered: seq<AnalysisResult>, day: Timestamp -> string)
    requires forall i :: 0 <= i < |filtered| ==> CsvSafe(filtered[i], day)
    ensures CountChar(ExportCsv(filtered, day), '\n') == |filtered|
  {
    LinesShape(filtered, day);
    JoinSeparatorCount(CsvLines(filtered, day), '\n');
  }
}
