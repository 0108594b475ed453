/**
 * Merging LCOV coverage reports: the record merge, the union of shard
 * reports, and the final merge with Vitest.
 */
module Lcov {
  import opened Strings
  import opened LcovHits

  type Report = map<string, Record>

  // ---------------------------------------------------------------- lines and branches

  function LineMark(row: Row): Mark<Line> {
    if row.Da? then Some((row.line, row.count)) else None
  }

  function HitsOf(rows: Record): Hits<Line> {
    Reading(rows, LineMark)
  }

  function Hit(rows: Record, line: Line): nat {
    Get(HitsOf(rows), line)
  }

  /** `line_hits` */
  method LineHits(rows: Record) returns (hits: Hits<Line>)
    ensures hits == HitsOf(rows)
  {
    hits := map[];
    var i := 0;
    while i < |rows|
      invariant 0 <= i <= |rows|
      invariant hits == HitsOf(rows[..i])
    {
      var row := rows[i];
      assert rows[..i + 1][..i] == rows[..i];
      if row.Da? {
        hits := hits[row.line := Max(Get(hits, row.line), row.count)];
      }
      i := i + 1;
    }
    assert rows[..i] == rows;
  }

  function TakenText(taken: Taken): string {
    match taken
    case Dash => "-"
    case Times(n) => Decimal(n)
  }

  function TakenCount(taken: Taken): nat {
    match taken
    case Dash => 0
    case Times(n) => n
  }

  /** All that follows `BRDA:` in a row, the count included. */
  function Whole(branch: string, taken: Taken): string {
    branch + "," + TakenText(taken)
  }

  /** The code's key for a branch row: the whole text of the row. */
  function WholeMark(row: Row): Mark<string> {
    if row.Brda? then Some((Whole(row.branch, row.taken), TakenCount(row.taken))) else None
  }

  function WholesOf(rows: Record): Hits<string> {
    Reading(rows, WholeMark)
  }

  /** `branch_hits` */
  method BranchHits(rows: Record) returns (hits: Hits<string>)
    ensures hits == WholesOf(rows)
  {
    hits := map[];
    var i := 0;
    while i < |rows|
      invariant 0 <= i <= |rows|
      invariant hits == WholesOf(rows[..i])
    {
      var row := rows[i];
      assert rows[..i + 1][..i] == rows[..i];
      if row.Brda? {
        var key := Whole(row.branch, row.taken);
        var count := match row.taken case Dash => 0 case Times(n) => n;
        hits := hits[key := Max(Get(hits, key), count)];
      }
      i := i + 1;
    }
    assert rows[..i] == rows;
  }

  /** `covered_line_count` */
  function CoveredCount(rows: Record): nat {
    |Positive(HitsOf(rows))|
  }

  /** `da_line_count` */
  function DaCount(rows: Record): nat {
    if rows == [] then 0 else DaCount(rows[..|rows| - 1]) + (if rows[|rows| - 1].Da? then 1 else 0)
  }

  lemma {:induction false} DaCountAppend(a: Record, b: Record)
    ensures DaCount(a + b) == DaCount(a) + DaCount(b)
  {
    if b == [] {
      assert a + b == a;
    } else {
      DaCountAppend(a, b[..|b| - 1]);
      assert (a + b)[..|a + b| - 1] == a + b[..|b| - 1];
    }
  }

  lemma {:induction false} DaCountAll(rows: Record, da: bool)
    requires forall i :: 0 <= i < |rows| ==> rows[i].Da? == da
    ensures DaCount(rows) == if da then |rows| else 0
  {
    if rows != [] {
      DaCountAll(rows[..|rows| - 1], da);
    }
  }

  // ---------------------------------------------------------------- the printed record

  /** The rows that `merge_sf_records` prints for the lines. */
  function LineRows(hits: Hits<Line>): Record {
    LineOrder();
    Printed(hits, LineBefore, (line: Line, n: nat) => Da(line, n))
  }

  /** The rows it prints for the branches: each key and, once more, its count. */
  function BranchRows(branches: Hits<string>): Record {
    if branches == map[] then []
    else
      TextOrder();
      Printed(branches, Less, (key: string, n: nat) => Brda(key, Times(n)))
      + [Brf(|branches.Keys|), Brh(|Positive(branches)|)]
  }

  function Rendered(sf: string, hits: Hits<Line>, branches: Hits<string>): Record {
    [Sf(sf)] + LineRows(hits) + ([Lf(|hits.Keys|), Lh(|Positive(hits)|)] + BranchRows(branches) + [End])
  }

  method Render(sf: string, hits: Hits<Line>, branches: Hits<string>) returns (body: Record)
    ensures body == Rendered(sf, hits, branches)
  {
    LineOrder();
    TextOrder();
    var lines := PrintHits(hits, LineBefore, (line: Line, n: nat) => Da(line, n));
    var more := [];
    if branches != map[] {
      var rows := PrintHits(branches, Less, (key: string, n: nat) => Brda(key, Times(n)));
      more := rows + [Brf(|branches.Keys|), Brh(|Positive(branches)|)];
    }
    body := [Sf(sf)] + lines + ([Lf(|hits.Keys|), Lh(|Positive(hits)|)] + more + [End]);
  }

  lemma LineRowsRead(hits: Hits<Line>)
    ensures HitsOf(LineRows(hits)) == hits && |LineRows(hits)| == |hits.Keys|
    ensures forall i :: 0 <= i < |LineRows(hits)| ==> LineRows(hits)[i].Da?
  {
    LineOrder();
    PrintedReads(hits, LineBefore, (line: Line, n: nat) => Da(line, n), LineMark);
    forall i | 0 <= i < |LineRows(hits)| ensures LineRows(hits)[i].Da? {
      var line := PrintedRows(hits, LineBefore, (line: Line, n: nat) => Da(line, n), i);
    }
  }

  lemma BranchRowsPlain(branches: Hits<string>, i: nat)
    requires i < |BranchRows(branches)|
    ensures BranchRows(branches)[i].Brda? || BranchRows(branches)[i].Brf? || BranchRows(branches)[i].Brh?
    ensures var row := BranchRows(branches)[i];
            row.Brda? ==> row.branch in branches && row.taken == Times(branches[row.branch])
  {
    TextOrder();
    if i < |BranchRows(branches)| - 2 {
      var key := PrintedRows(branches, Less, (key: string, n: nat) => Brda(key, Times(n)), i);
    }
  }

  /** The rows around the lines of a printed record. */
  lemma TailPlain(lf: nat, lh: nat, branches: Hits<string>)
    ensures forall row :: row in [Lf(lf), Lh(lh)] + BranchRows(branches) + [End] ==> !row.Da? && !row.Sf?
  {
    forall i | 0 <= i < |BranchRows(branches)| ensures !BranchRows(branches)[i].Da? && !BranchRows(branches)[i].Sf? {
      BranchRowsPlain(branches, i);
    }
  }

  /** Reading a printed record gives its line hits back, and its totals are what a reader would count in it. */
  lemma RenderedReads(sf: string, hits: Hits<Line>, branches: Hits<string>)
    ensures var rows := Rendered(sf, hits, branches);
            && HitsOf(rows) == hits && DaCount(rows) == |hits.Keys| && DaCount(rows) + 3 <= |rows|
            && rows[1 + DaCount(rows)..][..2] == [Lf(DaCount(rows)), Lh(CoveredCount(rows))]
  {
    var tail := [Lf(|hits.Keys|), Lh(|Positive(hits)|)] + BranchRows(branches) + [End];
    LineRowsRead(hits);
    TailPlain(|hits.Keys|, |Positive(hits)|, branches);
    FramedLines(sf, LineRows(hits), tail);
    assert Rendered(sf, hits, branches)[1 + |LineRows(hits)|..] == tail;
  }

  lemma FramedLines(sf: string, lines: Record, tail: Record)
    requires (forall i :: 0 <= i < |lines| ==> lines[i].Da?) && forall row :: row in tail ==> !row.Da?
    ensures HitsOf([Sf(sf)] + lines + tail) == HitsOf(lines)
    ensures DaCount([Sf(sf)] + lines + tail) == |lines|
  {
    Framed([Sf(sf)], lines, tail, LineMark);
    DaCountAll([Sf(sf)], false);
    DaCountAll(lines, true);
    DaCountAll(tail, false);
    DaCountAppend([Sf(sf)], lines);
    DaCountAppend([Sf(sf)] + lines, tail);
  }

  // ---------------------------------------------------------------- merge_sf_records

  const UNKNOWN: string := "unknown"

  /** The name on the first SF row. */
  function NameOf(rows: Record): string {
    if rows == [] then UNKNOWN else if rows[0].Sf? then rows[0].name else NameOf(rows[1..])
  }

  function Merge(primary: Record, secondary: Record): Record {
    Rendered(NameOf(primary), Smart(HitsOf(primary), HitsOf(secondary)), Smart(WholesOf(primary), WholesOf(secondary)))
  }

  /** `merge_sf_records` with a secondary. */
  method MergeSfRecords(primary: Record, secondary: Record) returns (body: Record)
    ensures body == Merge(primary, secondary)
  {
    var primaryHits := LineHits(primary);
    var primaryBranches := BranchHits(primary);
    var secondaryHits := LineHits(secondary);
    var secondaryBranches := BranchHits(secondary);
    var hits := SmartMergeHits(primaryHits, secondaryHits);
    var branches := SmartMergeHits(primaryBranches, secondaryBranches);
    body := Render(NameOf(primary), hits, branches);
  }

  lemma MergeReads(primary: Record, secondary: Record)
    ensures HitsOf(Merge(primary, secondary)) == Smart(HitsOf(primary), HitsOf(secondary))
  {
    RenderedReads(NameOf(primary), Smart(HitsOf(primary), HitsOf(secondary)),
                  Smart(WholesOf(primary), WholesOf(secondary)));
  }

  /** A merged record reads as the pointwise maximum, whichever side was primary. */
  lemma MergeHit(primary: Record, secondary: Record, line: Line)
    ensures Hit(Merge(primary, secondary), line) == Max(Hit(primary, line), Hit(secondary, line))
  {
    MergeReads(primary, secondary);
    SmartIsMax(HitsOf(primary), HitsOf(secondary), line);
  }

  /** The share of covered lines has not dropped: LH'/LF' >= LH/LF, multiplied out. */
  predicate KeepsRatio(before: Record, after: Record) {
    CoveredCount(after) * |HitsOf(before).Keys| >= CoveredCount(before) * |HitsOf(after).Keys|
  }

  /** A merged record covers what either side covers, and its coverage ratio is at least the primary's. */
  lemma MergeRatio(primary: Record, secondary: Record)
    ensures var merged := Merge(primary, secondary);
            && Positive(HitsOf(merged)) == Positive(HitsOf(primary)) + Positive(HitsOf(secondary))
            && KeepsRatio(primary, merged)
  {
    MergeReads(primary, secondary);
    SmartCovers(HitsOf(primary), HitsOf(secondary));
    RatioNeverDrops(HitsOf(primary), HitsOf(secondary));
  }

  // ---------------------------------------------------------------- union_deno_records

  /** Two records of one file: the one with more DA rows is primary, the newer only when strictly wider. */
  function WiderFirst(current: Record, lines: Record): Record {
    if DaCount(lines) > DaCount(current) then Merge(lines, current) else Merge(current, lines)
  }

  /** The one with more covered lines is primary, Vitest on a tie. */
  function CoveredFirst(vitest: Record, deno: Record): Record {
    if CoveredCount(deno) > CoveredCount(vitest) then Merge(deno, vitest) else Merge(vitest, deno)
  }

  /** The wider of two shard records keeps its whole line map. */
  lemma WiderLinesKept(current: Record, lines: Record)
    ensures var wider := if DaCount(lines) > DaCount(current) then lines else current;
            HitsOf(wider).Keys <= HitsOf(WiderFirst(current, lines)).Keys
  {
    MergeReads(lines, current);
    MergeReads(current, lines);
  }

  /** The final merge never dilutes the report with more covered lines, Vitest on a tie. */
  lemma BetterRatioKept(vitest: Record, deno: Record)
    ensures var better := if CoveredCount(deno) > CoveredCount(vitest) then deno else vitest;
            var merged := CoveredFirst(vitest, deno);
            && KeepsRatio(better, merged)
            && Positive(HitsOf(merged)) == Positive(HitsOf(vitest)) + Positive(HitsOf(deno))
  {
    if CoveredCount(deno) > CoveredCount(vitest) {
      MergeRatio(deno, vitest);
    } else {
      MergeRatio(vitest, deno);
    }
  }

  /** Two reports file by file: a file of one side keeps its record, a file of both is joined. */
  function Joined(join: (Record, Record) -> Record, a: Report, b: Report): Report {
    map sf | sf in a.Keys + b.Keys ::
      if sf !in a then b[sf] else if sf !in b then a[sf] else join(a[sf], b[sf])
  }

  /** One report folded into what was merged so far. */
  function AddReport(merged: Report, report: Report): Report {
    Joined(WiderFirst, merged, report)
  }

  function Folded(join: (Record, Record) -> Record, reports: seq<Report>): Report {
    if reports == [] then map[]
    else Joined(join, Folded(join, reports[..|reports| - 1]), reports[|reports| - 1])
  }

  function Union(reports: seq<Report>): Report {
    Folded(WiderFirst, reports)
  }

  function MergeMaps(vitest: Report, deno: Report): Report {
    Joined(CoveredFirst, vitest, deno)
  }

  /** One file of a report, as the inner loop handles it. */
  function AddFile(join: (Record, Record) -> Record, merged: Report, sf: string, lines: Record): Report {
    if sf !in merged then merged[sf := lines] else merged[sf := join(merged[sf], lines)]
  }

  lemma AddFileStep(join: (Record, Record) -> Record, merged: Report, done: Report, sf: string, lines: Record)
    requires sf !in done
    ensures Joined(join, merged, done[sf := lines]) == AddFile(join, Joined(join, merged, done), sf, lines)
  {
  }

  method AddFileTo(merged: Report, sf: string, lines: Record) returns (r: Report)
    ensures r == AddFile(WiderFirst, merged, sf, lines)
  {
    if sf !in merged {
      r := merged[sf := lines];
    } else if DaCount(lines) > DaCount(merged[sf]) {
      var body := MergeSfRecords(lines, merged[sf]);
      r := merged[sf := body];
    } else {
      var body := MergeSfRecords(merged[sf], lines);
      r := merged[sf := body];
    }
  }

  /** The files outside `todo` have been joined. */
  ghost predicate JoinedSoFar(join: (Record, Record) -> Record, merged: Report, report: Report, todo: set<string>,
                              r: Report) {
    todo <= report.Keys && r == Joined(join, merged, report - todo)
  }

  lemma JoinStart(join: (Record, Record) -> Record, merged: Report, report: Report)
    ensures JoinedSoFar(join, merged, report, report.Keys, merged)
  {
    assert report - report.Keys == map[];
  }

  lemma JoinNext(join: (Record, Record) -> Record, merged: Report, report: Report, todo: set<string>, r: Report,
                 sf: string)
    requires JoinedSoFar(join, merged, report, todo, r) && sf in todo
    ensures JoinedSoFar(join, merged, report, todo - {sf}, AddFile(join, r, sf, report[sf]))
  {
    AddFileStep(join, merged, report - todo, sf, report[sf]);
    assert report - (todo - {sf}) == (report - todo)[sf := report[sf]];
  }

  lemma JoinEnd(join: (Record, Record) -> Record, merged: Report, report: Report, todo: set<string>, r: Report)
    requires JoinedSoFar(join, merged, report, todo, r) && todo == {}
    ensures r == Joined(join, merged, report)
  {
    assert report - todo == report;
  }

  method AddReportTo(merged: Report, report: Report) returns (r: Report)
    ensures r == AddReport(merged, report)
  {
    r := merged;
    var todo := report.Keys;
    JoinStart(WiderFirst, merged, report);
    while |todo| > 0
      invariant JoinedSoFar(WiderFirst, merged, report, todo, r)
      decreases |todo|
    {
      var sf :| sf in todo;
      JoinNext(WiderFirst, merged, report, todo, r, sf);
      r := AddFileTo(r, sf, report[sf]);
      todo := todo - {sf};
    }
    JoinEnd(WiderFirst, merged, report, todo, r);
  }

  method UnionDenoRecords(reports: seq<Report>) returns (merged: Report)
    ensures merged == Union(reports)
  {
    merged := map[];
    var i := 0;
    while i < |reports|
      invariant 0 <= i <= |reports|
      invariant merged == Union(reports[..i])
    {
      assert reports[..i + 1][..i] == reports[..i];
      merged := AddReportTo(merged, reports[i]);
      i := i + 1;
    }
    assert reports[..i] == reports;
  }

  method MergeRecordMaps(vitest: Report, deno: Report) returns (merged: Report)
    ensures merged == MergeMaps(vitest, deno)
  {
    merged := map[];
    var todo := vitest.Keys + deno.Keys;
    while |todo| > 0
      invariant todo <= vitest.Keys + deno.Keys && CopiedExcept(MergeMaps(vitest, deno), todo, merged)
      decreases |todo|
    {
      var sf :| sf in todo;
      var body := MergeFile(vitest, deno, sf);
      CopyOne(MergeMaps(vitest, deno), todo, merged, sf);
      merged := merged[sf := body];
      todo := todo - {sf};
    }
    assert MergeMaps(vitest, deno) - todo == MergeMaps(vitest, deno);
  }

  ghost predicate CopiedExcept(whole: Report, todo: set<string>, part: Report) {
    part == whole - todo
  }

  lemma CopyOne(whole: Report, todo: set<string>, part: Report, sf: string)
    requires CopiedExcept(whole, todo, part) && sf in todo && sf in whole
    ensures CopiedExcept(whole, todo - {sf}, part[sf := whole[sf]])
  {
  }

  method MergeFile(vitest: Report, deno: Report, sf: string) returns (body: Record)
    requires sf in vitest || sf in deno
    ensures body == MergeMaps(vitest, deno)[sf]
  {
    if sf !in vitest {
      body := deno[sf];
    } else if sf !in deno {
      body := vitest[sf];
    } else if CoveredCount(deno[sf]) > CoveredCount(vitest[sf]) {
      body := MergeSfRecords(deno[sf], vitest[sf]);
    } else {
      body := MergeSfRecords(vitest[sf], deno[sf]);
    }
  }

  // ---------------------------------------------------------------- maxima over any number of reports

  /** What a reader takes from a record, for one file of a report; 0 when the report does not have the file. */
  function HitIn(hit: Record -> nat, report: Report, sf: string): nat {
    if sf in report then hit(report[sf]) else 0
  }

  /** `n` is the largest count any report gives the file; 0 when none does. */
  ghost predicate IsMaximum(hit: Record -> nat, reports: seq<Report>, sf: string, n: nat) {
    && (forall i :: 0 <= i < |reports| ==> HitIn(hit, reports[i], sf) <= n)
    && (n == 0 || exists i :: 0 <= i < |reports| && HitIn(hit, reports[i], sf) == n)
  }

  predicate AllIn(fine: Record -> bool, report: Report) {
    forall sf :: sf in report ==> fine(report[sf])
  }

  /** Joining two fine records gives a fine record in which the reader finds the larger count. */
  predicate TakesLarger(fine: Record -> bool, hit: Record -> nat, join: (Record, Record) -> Record, a: Record,
                        b: Record) {
    fine(a) && fine(b) ==> fine(join(a, b)) && hit(join(a, b)) == Max(hit(a), hit(b))
  }

  ghost predicate Maximizes(fine: Record -> bool, hit: Record -> nat, join: (Record, Record) -> Record) {
    forall a, b :: TakesLarger(fine, hit, join, a, b)
  }

  lemma JoinedHit(fine: Record -> bool, hit: Record -> nat, join: (Record, Record) -> Record, a: Report, b: Report,
                  sf: string)
    requires Maximizes(fine, hit, join) && AllIn(fine, a) && AllIn(fine, b)
    ensures HitIn(hit, Joined(join, a, b), sf) == Max(HitIn(hit, a, sf), HitIn(hit, b, sf))
    ensures AllIn(fine, Joined(join, a, b))
  {
    forall f | f in a && f in b ensures fine(join(a[f], b[f])) {
      assert TakesLarger(fine, hit, join, a[f], b[f]);
    }
    if sf in a && sf in b {
      assert TakesLarger(fine, hit, join, a[sf], b[sf]);
    }
  }

  lemma MaximumExtends(hit: Record -> nat, reports: seq<Report>, report: Report, sf: string, n: nat)
    requires IsMaximum(hit, reports, sf, n)
    ensures IsMaximum(hit, reports + [report], sf, Max(n, HitIn(hit, report, sf)))
  {
    var all := reports + [report];
    assert all[|reports|] == report;
    if n != 0 {
      var i :| 0 <= i < |reports| && HitIn(hit, reports[i], sf) == n;
      assert all[i] == reports[i];
    }
  }

  lemma {:induction false} FoldedIsMaximum(fine: Record -> bool, hit: Record -> nat, join: (Record, Record) -> Record,
                                           reports: seq<Report>, sf: string)
    requires Maximizes(fine, hit, join) && forall i :: 0 <= i < |reports| ==> AllIn(fine, reports[i])
    ensures IsMaximum(hit, reports, sf, HitIn(hit, Folded(join, reports), sf)) && AllIn(fine, Folded(join, reports))
    ensures sf in Folded(join, reports) <==> exists i :: 0 <= i < |reports| && sf in reports[i]
  {
    if reports != [] {
      var front, last := reports[..|reports| - 1], reports[|reports| - 1];
      FoldedIsMaximum(fine, hit, join, front, sf);
      JoinedHit(fine, hit, join, Folded(join, front), last, sf);
      assert reports == front + [last];
      MaximumExtends(hit, front, last, sf, HitIn(hit, Folded(join, front), sf));
    }
  }

  /** Shards first, then Vitest: what both joins maximise, the whole merge does. */
  lemma TwoJoinsMaximum(fine: Record -> bool, hit: Record -> nat, first: (Record, Record) -> Record,
                        second: (Record, Record) -> Record, vitest: Report, shards: seq<Report>, sf: string)
    requires Maximizes(fine, hit, first) && Maximizes(fine, hit, second)
    requires AllIn(fine, vitest) && forall i :: 0 <= i < |shards| ==> AllIn(fine, shards[i])
    ensures IsMaximum(hit, shards + [vitest], sf, HitIn(hit, Joined(second, vitest, Folded(first, shards)), sf))
  {
    FoldedIsMaximum(fine, hit, first, shards, sf);
    JoinedHit(fine, hit, second, vitest, Folded(first, shards), sf);
    MaximumExtends(hit, shards, vitest, sf, HitIn(hit, Folded(first, shards), sf));
  }

  function LineHit(line: Line): Record -> nat {
    (rows: Record) => Hit(rows, line)
  }

  function AnyRecord(): Record -> bool {
    (rows: Record) => true
  }

  lemma LinesMaximized(line: Line)
    ensures Maximizes(AnyRecord(), LineHit(line), WiderFirst) && Maximizes(AnyRecord(), LineHit(line), CoveredFirst)
  {
    forall a, b ensures TakesLarger(AnyRecord(), LineHit(line), WiderFirst, a, b)
                     && TakesLarger(AnyRecord(), LineHit(line), CoveredFirst, a, b)
    {
      MergeHit(a, b, line);
      MergeHit(b, a, line);
    }
  }

  /** The whole merge: every line of every file has the largest count over all shards and Vitest. */
  lemma MergeIsMaximum(vitest: Report, shards: seq<Report>, sf: string, line: Line)
    ensures IsMaximum(LineHit(line), shards + [vitest], sf, HitIn(LineHit(line), MergeMaps(vitest, Union(shards)), sf))
  {
    LinesMaximized(line);
    TwoJoinsMaximum(AnyRecord(), LineHit(line), WiderFirst, CoveredFirst, vitest, shards, sf);
  }

  lemma MaximumUnique(hit: Record -> nat, a: seq<Report>, b: seq<Report>, sf: string, m: nat, n: nat)
    requires forall i :: 0 <= i < |a| ==> a[i] in b
    requires IsMaximum(hit, a, sf, m) && IsMaximum(hit, b, sf, n)
    ensures m <= n
  {
    if m != 0 {
      var i :| 0 <= i < |a| && HitIn(hit, a[i], sf) == m;
      assert a[i] in b;
    }
  }

  /** Shard order and repetition do not matter to any hit count. */
  lemma OrderIrrelevant(a: seq<Report>, b: seq<Report>, sf: string, line: Line)
    requires forall r :: r in a <==> r in b
    ensures HitIn(LineHit(line), Union(a), sf) == HitIn(LineHit(line), Union(b), sf)
  {
    var hit := LineHit(line);
    LinesMaximized(line);
    FoldedIsMaximum(AnyRecord(), hit, WiderFirst, a, sf);
    FoldedIsMaximum(AnyRecord(), hit, WiderFirst, b, sf);
    MaximumUnique(hit, a, b, sf, HitIn(hit, Union(a), sf), HitIn(hit, Union(b), sf));
    MaximumUnique(hit, b, a, sf, HitIn(hit, Union(b), sf), HitIn(hit, Union(a), sf));
  }
}
