/** The pass after scoring in `analyze_extensions_directory` and
    `save_results_to_file`: every `.json` file of the directory is scored, the
    results are sorted by score (highest first, ties in the order the files were
    listed), the first `top_k` are kept, and each report gets positional ranks, a
    five-bucket distribution, the number of risky extensions and the highest score. */
module Ranking {
  import opened Wrappers
  import opened Seqs
  import opened Text
  import opened JsonValue
  import opened Permissions
  import opened Factors
  import opened Scorer

  /** One entry of `results`: `(extension_id, risk_score, breakdown)`. */
  datatype Result = Result(id: string, score: HalfPoints, breakdown: Option<Breakdown>)

  /** What every result of the scorer satisfies: a failure scores 0, otherwise the
      score is the breakdown's total and the breakdown is consistent. */
  predicate WellFormed(r: Result) {
    && (r.breakdown.None? ==> r.score == 0)
    && (r.breakdown.Some? ==> r.score == r.breakdown.value.totalRisk && Consistent(r.breakdown.value))
  }

  // ------------------------------------------------------------------ sort

  /** Highest score first. */
  predicate SortedDesc(s: seq<Result>) {
    forall i, j :: 0 <= i < j < |s| ==> s[i].score >= s[j].score
  }

  /** The results with score `v`, in order. */
  function WithScore(s: seq<Result>, v: HalfPoints): (r: seq<Result>)
    ensures |r| <= |s|
  {
    if |s| == 0 then []
    else if s[0].score == v then [s[0]] + WithScore(s[1..], v)
    else WithScore(s[1..], v)
  }

  /** Insert `x` into a list sorted highest first, in front of every result that
      does not outscore it: `x` comes from earlier in the input than all of `t`,
      so among equal scores it goes first. */
  function Insert(x: Result, t: seq<Result>): (r: seq<Result>)
    ensures |r| == |t| + 1
    ensures multiset(r) == multiset(t) + multiset{x}
    ensures SortedDesc(t) ==> SortedDesc(r)
  {
    if |t| == 0 || x.score >= t[0].score then [x] + t
    else
      var rest := Insert(x, t[1..]);
      assert t == [t[0]] + t[1..];
      InsertSortedStep(x, t, rest);
      [t[0]] + rest
  }

  lemma InsertSortedStep(x: Result, t: seq<Result>, rest: seq<Result>)
    requires |t| > 0 && x.score < t[0].score
    requires multiset(rest) == multiset(t[1..]) + multiset{x}
    requires SortedDesc(t) ==> SortedDesc(rest)
    ensures SortedDesc(t) ==> SortedDesc([t[0]] + rest)
  {
    if SortedDesc(t) {
      var r := [t[0]] + rest;
      forall j | 0 < j < |r|
        ensures r[0].score >= r[j].score
      {
        assert r[j] == rest[j - 1];
        assert r[j] in multiset(rest);
        if r[j] != x {
          assert r[j] in multiset(t[1..]);
          var k :| 0 <= k < |t[1..]| && t[1..][k] == r[j];
          assert t[k + 1] == r[j];
        }
      }
    }
  }

  /** `results.sort(key=score, reverse=True)`: a stable sort, highest score first. */
  function SortByScore(s: seq<Result>): (r: seq<Result>)
    ensures |r| == |s|
    ensures multiset(r) == multiset(s)
    ensures SortedDesc(r)
  {
    if |s| == 0 then []
    else
      assert s == [s[0]] + s[1..];
      Insert(s[0], SortByScore(s[1..]))
  }

  /** Inserting `x` keeps, for each score, the order of `[x] + t`. */
  lemma {:induction false} InsertWithScore(x: Result, t: seq<Result>, v: HalfPoints)
    ensures WithScore(Insert(x, t), v) == WithScore([x] + t, v)
  {
    if |t| > 0 && x.score < t[0].score {
      var t' := t[1..];
      InsertWithScore(x, t', v);
      assert ([t[0]] + Insert(x, t'))[1..] == Insert(x, t');
      assert ([x] + t)[1..] == t;
      assert ([x] + t')[1..] == t';
      if t[0].score == v {
        assert x.score != v;
      }
    }
  }

  /** Stability: for every score, the results with that score keep their input
      order. */
  lemma {:induction false} SortStable(s: seq<Result>, v: HalfPoints)
    ensures WithScore(SortByScore(s), v) == WithScore(s, v)
  {
    if |s| > 0 {
      SortStable(s[1..], v);
      InsertWithScore(s[0], SortByScore(s[1..]), v);
      assert ([s[0]] + SortByScore(s[1..]))[1..] == SortByScore(s[1..]);
    }
  }

  /** The ranking is determined by the two properties of a stable sort: any list
      sorted highest first that keeps, for every score, the input's order of the
      results with that score is the list `SortByScore` returns. */
  lemma StableSortIsUnique(s: seq<Result>, r: seq<Result>)
    requires SortedDesc(r)
    requires forall v :: WithScore(r, v) == WithScore(s, v)
    ensures r == SortByScore(s)
  {
    var t := SortByScore(s);
    forall v
      ensures WithScore(r, v) == WithScore(t, v)
    {
      SortStable(s, v);
    }
    SortedEqual(r, t);
  }

  /** Two lists sorted highest first with the same results per score are equal. */
  lemma {:induction false} SortedEqual(a: seq<Result>, b: seq<Result>)
    requires SortedDesc(a) && SortedDesc(b)
    requires forall v :: WithScore(a, v) == WithScore(b, v)
    ensures a == b
    decreases |a| + |b|
  {
    if |a| == 0 || |b| == 0 {
      if |b| > 0 {
        WithScoreHead(b);
        assert false;
      } else if |a| > 0 {
        WithScoreHead(a);
        assert false;
      }
    } else {
      WithScoreHead(a);
      WithScoreHead(b);
      WithScoreBounded(b, a[0].score);
      WithScoreBounded(a, b[0].score);
      var v0 := a[0].score;
      assert b[0].score == v0;
      var wa := WithScore(a[1..], v0);
      var wb := WithScore(b[1..], v0);
      assert ([a[0]] + wa)[0] == a[0] && ([b[0]] + wb)[0] == b[0];
      assert a[0] == b[0];
      forall v
        ensures WithScore(a[1..], v) == WithScore(b[1..], v)
      {
        assert WithScore(a, v) == WithScore(b, v);
        if v == v0 {
          assert ([a[0]] + wa)[1..] == wa && ([b[0]] + wb)[1..] == wb;
        }
      }
      assert SortedDesc(a[1..]) && SortedDesc(b[1..]);
      SortedEqual(a[1..], b[1..]);
      assert a == [a[0]] + a[1..] && b == [b[0]] + b[1..];
    }
  }

  /** The results with the first result's score start with that result. */
  lemma WithScoreHead(s: seq<Result>)
    requires |s| > 0
    ensures WithScore(s, s[0].score) == [s[0]] + WithScore(s[1..], s[0].score)
  {
  }

  /** In a sorted list, a score that occurs at all is at most the first score. */
  lemma {:induction false} WithScoreBounded(s: seq<Result>, v: HalfPoints)
    requires SortedDesc(s) && |s| > 0 && WithScore(s, v) != []
    ensures v <= s[0].score
  {
    if s[0].score != v {
      assert WithScore(s[1..], v) != [];
      assert SortedDesc(s[1..]);
      WithScoreBounded(s[1..], v);
    }
  }

  /** The first result after sorting has the highest score of all. */
  lemma SortedFirstIsHighest(s: seq<Result>)
    requires |s| > 0
    ensures forall r :: r in s ==> SortByScore(s)[0].score >= r.score
  {
    var t := SortByScore(s);
    forall r | r in s
      ensures t[0].score >= r.score
    {
      assert r in multiset(s);
      assert r in multiset(t);
      var k :| 0 <= k < |t| && t[k] == r;
    }
  }

  // ------------------------------------------------------------------ top-k

  /** `results[:k]` with Python's slice semantics, negative `k` included. */
  function TopK(results: seq<Result>, k: int): (r: seq<Result>)
    ensures k >= 0 ==> |r| == if k < |results| then k else |results|
    ensures k < 0 ==> |r| == if |results| + k > 0 then |results| + k else 0
    ensures r == results[..|r|]
  {
    if k >= 0 then results[..if k < |results| then k else |results|]
    else results[..if |results| + k > 0 then |results| + k else 0]
  }

  /** In a sorted list, every kept result scores at least as much as every dropped one. */
  lemma TopKOutscoresRest(results: seq<Result>, k: int)
    requires SortedDesc(results)
    ensures forall i, j :: 0 <= i < |TopK(results, k)| <= j < |results| ==>
              results[i].score >= results[j].score
  {
  }

  // ------------------------------------------------------------------- rows

  /** One entry of the `extensions` list of a report. A missing breakdown reads
      as level No Risk, zero parts, rating 0 and empty lists. */
  datatype Row = Row(
    rank: nat,
    id: string,
    score: HalfPoints,
    level: RiskLevel,
    permissionRisk: nat,
    hostRisk: nat,
    userFactor: HalfPoints,
    ratingFactor: HalfPoints,
    userCount: int,
    rating: real,
    reviewCount: int,
    hostPermissions: seq<Json>,
    riskyPermissions: seq<RiskyPermission>,
    flags: seq<Flag>)

  /** The most `risky_permissions` a row shows. */
  const RowRiskyLimit := 10

  /** The row of the result at 0-based position `i`. */
  function RowOf(i: nat, r: Result): (row: Row)
    ensures row.rank == i + 1 && row.id == r.id && row.score == r.score
    ensures r.breakdown.None? ==> row.level == NoRisk && row.rating == 0.0
                                   && row.permissionRisk == 0 && row.hostRisk == 0
                                   && row.userFactor == 0 && row.ratingFactor == 0
                                   && row.userCount == 0 && row.reviewCount == 0
                                   && row.hostPermissions == []
                                   && row.riskyPermissions == [] && row.flags == []
    ensures r.breakdown.Some? ==>
              var b := r.breakdown.value;
              && row.level == b.level && row.rating == b.rating
              && row.permissionRisk == b.permissionRisk && row.hostRisk == b.hostRisk
              && row.userFactor == b.userFactor && row.ratingFactor == b.ratingFactor
              && row.userCount == b.userCount && row.reviewCount == b.reviewCount
              && row.hostPermissions == b.hostPermissions && row.flags == b.flags
    ensures r.breakdown.Some? ==>
              && |row.riskyPermissions| <= RowRiskyLimit
              && |row.riskyPermissions| <= |r.breakdown.value.riskyPermissions|
              && row.riskyPermissions == r.breakdown.value.riskyPermissions[..|row.riskyPermissions|]
              && (|r.breakdown.value.riskyPermissions| <= RowRiskyLimit ==>
                    row.riskyPermissions == r.breakdown.value.riskyPermissions)
              && (|r.breakdown.value.riskyPermissions| >= RowRiskyLimit ==>
                    |row.riskyPermissions| == RowRiskyLimit)
  {
    match r.breakdown
    case None => Row(i + 1, r.id, r.score, NoRisk, 0, 0, 0, 0, 0, 0.0, 0, [], [], [])
    case Some(b) =>
      var risky := if |b.riskyPermissions| <= RowRiskyLimit then b.riskyPermissions
                   else b.riskyPermissions[..RowRiskyLimit];
      Row(i + 1, r.id, r.score, b.level, b.permissionRisk, b.hostRisk, b.userFactor,
          b.ratingFactor, b.userCount, b.rating, b.reviewCount, b.hostPermissions,
          risky, b.flags)
  }

  /** The `extensions` list of a report: one row per result, ranked by position. */
  function Rows(results: seq<Result>): (rows: seq<Row>)
    ensures |rows| == |results|
    ensures forall i :: 0 <= i < |rows| ==> rows[i] == RowOf(i, results[i])
  {
    seq(|results|, i requires 0 <= i < |results| => RowOf(i, results[i]))
  }

  /** The ranks are 1, 2, 3, ... and strictly increasing, so no two rows share a
      rank even when their scores tie. */
  lemma RanksArePositions(results: seq<Result>)
    ensures forall i, j :: 0 <= i < j < |Rows(results)| ==> Rows(results)[i].rank < Rows(results)[j].rank
    ensures forall i :: 0 <= i < |Rows(results)| ==> Rows(results)[i].rank == i + 1
  {
  }

  /** The top-k report's rows are the first rows of the full report, ranks included. */
  lemma TopKRowsArePrefix(results: seq<Result>, k: int)
    ensures Rows(TopK(results, k)) == Rows(results)[..|TopK(results, k)|]
  {
  }

  /** For a result of the scorer, the level a row shows is the level of its score. */
  lemma RowLevelMatchesScore(i: nat, r: Result)
    requires WellFormed(r)
    ensures RowOf(i, r).level == Level(r.score)
  {
  }

  // ---------------------------------------------------------- distribution

  /** The score bands of `risk_distribution` (scores in half-points). */
  predicate InBucket(score: HalfPoints, l: RiskLevel) {
    match l
    case Critical => score >= 36
    case High => 24 <= score < 36
    case Medium => 12 <= score < 24
    case Low => 2 <= score < 12
    case NoRisk => score < 2
  }

  /** The bands are those of `get_risk_level`: a score lies in exactly the band of
      its level. */
  lemma BucketIsLevel(score: HalfPoints, l: RiskLevel)
    ensures InBucket(score, l) <==> Level(score) == l
  {
  }

  /** The number of results in the band of level `l`. */
  function CountBucket(results: seq<Result>, l: RiskLevel): (n: nat)
    ensures n <= |results|
  {
    if |results| == 0 then 0
    else (if InBucket(results[0].score, l) then 1 else 0) + CountBucket(results[1..], l)
  }

  /** `risk_distribution`. */
  datatype Distribution = Distribution(critical: nat, high: nat, medium: nat, low: nat, noRisk: nat)

  function Distribute(results: seq<Result>): (d: Distribution)
    ensures d.critical == CountBucket(results, Critical) && d.high == CountBucket(results, High)
    ensures d.medium == CountBucket(results, Medium) && d.low == CountBucket(results, Low)
    ensures d.noRisk == CountBucket(results, NoRisk)
  {
    Distribution(
      CountBucket(results, Critical), CountBucket(results, High), CountBucket(results, Medium),
      CountBucket(results, Low), CountBucket(results, NoRisk))
  }

  /** The five bands partition the results: their counts add up to all of them. */
  lemma {:induction false} DistributionPartitions(results: seq<Result>)
    ensures var d := Distribute(results);
            d.critical + d.high + d.medium + d.low + d.noRisk == |results|
  {
    if |results| > 0 {
      DistributionPartitions(results[1..]);
      var s := results[0].score;
      assert InBucket(s, Level(s));
    }
  }

  /** `len([r for r in results if r[1] >= 1])`. */
  function CountRisky(results: seq<Result>): (n: nat)
    ensures n <= |results|
  {
    if |results| == 0 then 0
    else (if results[0].score >= 2 then 1 else 0) + CountRisky(results[1..])
  }

  /** The extensions with risk are exactly those outside the No Risk band. */
  lemma {:induction false} RiskyAreTheRest(results: seq<Result>)
    ensures CountRisky(results) + CountBucket(results, NoRisk) == |results|
  {
    if |results| > 0 {
      RiskyAreTheRest(results[1..]);
    }
  }

  /** The counting figures of `analysis_summary`. */
  datatype Summary = Summary(analyzed: nat, withRisk: nat, zeroRisk: nat, highest: HalfPoints)

  /** `analysis_summary` without the averages: the highest score is read off the
      first result, which is the highest once the results are sorted. */
  function Summarize(results: seq<Result>): (s: Summary)
    ensures s.analyzed == |results|
    ensures s.withRisk + s.zeroRisk == |results|
    ensures s.zeroRisk == Distribute(results).noRisk
    ensures SortedDesc(results) ==> forall r :: r in results ==> s.highest >= r.score
    ensures |results| == 0 ==> s.highest == 0
    ensures |results| > 0 ==> s.highest == results[0].score
  {
    RiskyAreTheRest(results);
    Summary(|results|, CountRisky(results), CountBucket(results, NoRisk),
            if |results| > 0 then results[0].score else 0)
  }

  // --------------------------------------------------------------- analyze

  /** A directory entry: its file name and its text, `None` when it cannot be read
      (a directory, undecodable bytes). */
  datatype Entry = Entry(name: string, content: Option<string>)

  predicate IsJsonFile(e: Entry) {
    EndsWith(e.name, ".json")
  }

  /** `filename[:-5]`: the file name without `.json`. */
  function ExtensionId(name: string): (id: string)
    requires EndsWith(name, ".json")
    ensures name == id + ".json"
  {
    name[..|name| - 5]
  }

  /** Score one file; a file that cannot be read scores like any other failure. */
  function ScoreEntry(e: Entry, decode: string -> Option<Json>, parseFloat: string -> Option<real>): (r: Result)
    requires IsJsonFile(e)
    ensures r.id + ".json" == e.name
    ensures WellFormed(r)
    ensures e.content.None? ==> r.score == 0 && r.breakdown.None?
    ensures e.content.Some? ==>
              var a := Score(e.content.value, decode, parseFloat);
              r.score == a.score && r.breakdown == a.breakdown
  {
    var a := match e.content
             case None => Failed
             case Some(text) => Score(text, decode, parseFloat);
    Result(ExtensionId(e.name), a.score, a.breakdown)
  }

  /** The results in listing order. */
  function ScoreAll(files: seq<Entry>, decode: string -> Option<Json>, parseFloat: string -> Option<real>): (rs: seq<Result>)
    requires forall k :: 0 <= k < |files| ==> IsJsonFile(files[k])
    ensures |rs| == |files|
    ensures forall k :: 0 <= k < |rs| ==> rs[k] == ScoreEntry(files[k], decode, parseFloat)
  {
    seq(|files|, k requires 0 <= k < |files| => ScoreEntry(files[k], decode, parseFloat))
  }

  /** The scored `.json` entries, in listing order. */
  function JsonResults(entries: seq<Entry>, decode: string -> Option<Json>,
                       parseFloat: string -> Option<real>): (rs: seq<Result>)
    ensures |rs| == |Filter(IsJsonFile, entries)|
    ensures forall k :: 0 <= k < |rs| ==> WellFormed(rs[k])
    ensures forall k :: 0 <= k < |rs| ==> rs[k].id + ".json" == Filter(IsJsonFile, entries)[k].name
    ensures forall k :: 0 <= k < |rs| ==> rs[k] == ScoreEntry(Filter(IsJsonFile, entries)[k], decode, parseFloat)
  {
    var files := Filter(IsJsonFile, entries);
    ScoreAllWellFormed(files, decode, parseFloat);
    ScoreAll(files, decode, parseFloat)
  }

  /** The two lists `analyze_extensions_directory` returns: all results ranked, and
      the top `top_k` of them. */
  datatype Analysis = Analysis(ranked: seq<Result>, top: seq<Result>)

  /** `analyze_extensions_directory`: every `.json` entry scored (none dropped, none
      added), sorted stably highest first, and the first `topK` of them. */
  function Analyze(entries: seq<Entry>, topK: int, decode: string -> Option<Json>,
                   parseFloat: string -> Option<real>): (r: Analysis)
    ensures multiset(r.ranked) == multiset(JsonResults(entries, decode, parseFloat))
    ensures SortedDesc(r.ranked)
    ensures forall v :: WithScore(r.ranked, v) == WithScore(JsonResults(entries, decode, parseFloat), v)
    ensures r.top == TopK(r.ranked, topK)
    ensures forall k :: 0 <= k < |r.ranked| ==> WellFormed(r.ranked[k])
  {
    var scored := JsonResults(entries, decode, parseFloat);
    SortedResultsFacts(scored);
    var sorted := SortByScore(scored);
    Analysis(sorted, TopK(sorted, topK))
  }

  lemma ScoreAllWellFormed(files: seq<Entry>, decode: string -> Option<Json>, parseFloat: string -> Option<real>)
    requires forall k :: 0 <= k < |files| ==> IsJsonFile(files[k])
    ensures forall k :: 0 <= k < |files| ==> WellFormed(ScoreAll(files, decode, parseFloat)[k])
  {
  }

  /** Sorting keeps each score's results in order and keeps every result well formed. */
  lemma SortedResultsFacts(scored: seq<Result>)
    ensures forall v :: WithScore(SortByScore(scored), v) == WithScore(scored, v)
    ensures (forall k :: 0 <= k < |scored| ==> WellFormed(scored[k])) ==>
              forall k :: 0 <= k < |SortByScore(scored)| ==> WellFormed(SortByScore(scored)[k])
  {
    var sorted := SortByScore(scored);
    forall v
      ensures WithScore(sorted, v) == WithScore(scored, v)
    {
      SortStable(scored, v);
    }
    if forall k :: 0 <= k < |scored| ==> WellFormed(scored[k]) {
      forall k | 0 <= k < |sorted|
        ensures WellFormed(sorted[k])
      {
        assert sorted[k] in multiset(scored);
      }
    }
  }
}
