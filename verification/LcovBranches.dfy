/**
 * What the LCOV merge does to branch counts. `union_deno_records` promises the
 * largest branch count over all shards. The merge's key for a branch row is the
 * whole row with its count, and the printed row carries a second count, so the
 * promise depends on the reader. One that takes the last field for the count,
 * as the script itself does, no longer finds the branch in a merged record. One
 * that takes the fourth field, and ignores what follows, finds the maximum, but
 * the totals count one branch once for each of its counts.
 */
module LcovBranches {
  import opened Strings
  import opened LcovHits
  import opened Lcov

  /** A reader that takes the last field for the count and all before it for the branch. */
  function BranchMark(row: Row): Mark<string> {
    if row.Brda? then Some((row.branch, TakenCount(row.taken))) else None
  }

  function BranchesOf(rows: Record): Hits<string> {
    Reading(rows, BranchMark)
  }

  /** How often a reader of the record takes the branch to have been taken. */
  function BranchHit(rows: Record, branch: string): nat {
    Get(BranchesOf(rows), branch)
  }

  // ---------------------------------------------------------------- reading a merged record

  lemma BranchRowsRead(branches: Hits<string>)
    ensures BranchesOf(BranchRows(branches)) == branches
  {
    if branches != map[] {
      TextOrder();
      var rows := Printed(branches, Less, (key: string, n: nat) => Brda(key, Times(n)));
      PrintedReads(branches, Less, (key: string, n: nat) => Brda(key, Times(n)), BranchMark);
      ReadingAppend(rows, [Brf(|branches.Keys|), Brh(|Positive(branches)|)], BranchMark);
    }
  }

  lemma RenderedBranches(sf: string, hits: Hits<Line>, branches: Hits<string>)
    ensures BranchesOf(Rendered(sf, hits, branches)) == branches
  {
    LineRowsRead(hits);
    BranchRowsRead(branches);
    FramedBranches(sf, LineRows(hits), |hits.Keys|, |Positive(hits)|, BranchRows(branches));
  }

  lemma FramedBranches(sf: string, lines: Record, lf: nat, lh: nat, rows: Record)
    requires forall i :: 0 <= i < |lines| ==> lines[i].Da?
    ensures BranchesOf([Sf(sf)] + lines + ([Lf(lf), Lh(lh)] + rows + [End])) == BranchesOf(rows)
  {
    var front := [Sf(sf)] + lines + [Lf(lf), Lh(lh)];
    Framed(front, rows, [End], BranchMark);
    assert [Sf(sf)] + lines + ([Lf(lf), Lh(lh)] + rows + [End]) == front + rows + [End];
  }

  /** A reader of a merged record finds the code's own keys in the place of branches. */
  lemma MergedBranches(primary: Record, secondary: Record)
    ensures BranchesOf(Merge(primary, secondary)) == Smart(WholesOf(primary), WholesOf(secondary))
  {
    RenderedBranches(NameOf(primary), Smart(HitsOf(primary), HitsOf(secondary)),
                     Smart(WholesOf(primary), WholesOf(secondary)));
  }

  /** The totals of a merged record, if it has branches, are those of the counts printed in it. */
  lemma MergedTotals(primary: Record, secondary: Record, branches: Hits<string>)
    requires branches == Smart(WholesOf(primary), WholesOf(secondary)) && branches != map[]
    ensures var rows := Merge(primary, secondary);
            |rows| >= 3 && rows[|rows| - 3..] == [Brf(|branches.Keys|), Brh(|Positive(branches)|), End]
  {
    RenderedTotals(NameOf(primary), Smart(HitsOf(primary), HitsOf(secondary)), branches);
  }

  lemma RenderedTotals(sf: string, hits: Hits<Line>, branches: Hits<string>)
    requires branches != map[]
    ensures var rows := Rendered(sf, hits, branches);
            |rows| >= 3 && rows[|rows| - 3..] == [Brf(|branches.Keys|), Brh(|Positive(branches)|), End]
  {
  }

  // ---------------------------------------------------------------- commas

  /** How many fields come after the first. */
  function Commas(s: string): nat {
    if s == "" then 0 else (if s[0] == ',' then 1 else 0) + Commas(s[1..])
  }

  lemma {:induction false} CommasAppend(a: string, b: string)
    ensures Commas(a + b) == Commas(a) + Commas(b)
  {
    if a == "" {
      assert a + b == b;
    } else {
      CommasAppend(a[1..], b);
      assert (a + b)[1..] == a[1..] + b;
    }
  }

  lemma {:induction false} DigitsNoComma(s: string)
    requires AllDigits(s)
    ensures Commas(s) == 0
  {
    if s != "" {
      DigitsNoComma(s[1..]);
    }
  }

  /** The whole text of a row has one field more than the branch. */
  lemma WholeCommas(branch: string, taken: Taken)
    ensures Commas(Whole(branch, taken)) == Commas(branch) + 1
  {
    CommasAppend(branch + ",", TakenText(taken));
    CommasAppend(branch, ",");
    assert Commas(",") == 1;
    match taken
    case Dash => assert Commas("-") == 0;
    case Times(n) => DigitsNoComma(Decimal(n));
  }

  /** Every branch in the record has more than `n` commas. */
  predicate Beyond(rows: Record, n: int) {
    forall i :: 0 <= i < |rows| && rows[i].Brda? ==> Commas(rows[i].branch) > n
  }

  /** The branch rows are LCOV's own: line, block and branch, then the count. */
  predicate FourFields(rows: Record) {
    forall i :: 0 <= i < |rows| && rows[i].Brda? ==> Commas(rows[i].branch) == 2
  }

  lemma BeyondBranches(rows: Record, n: nat, branch: string)
    requires Beyond(rows, n) && Commas(branch) <= n
    ensures branch !in BranchesOf(rows)
  {
    HitIsLargest(rows, BranchMark, branch);
  }

  lemma BeyondWholes(rows: Record, n: int, whole: string)
    requires Beyond(rows, n) && whole in WholesOf(rows)
    ensures Commas(whole) > n + 1
  {
    HitIsLargest(rows, WholeMark, whole);
    var i :| 0 <= i < |rows| && WholeMark(rows[i]).Some? && WholeMark(rows[i]).value.0 == whole;
    WholeCommas(rows[i].branch, rows[i].taken);
  }

  /** A branch row of a merged record has a whole row of one of the sides for its branch. */
  lemma MergedRow(primary: Record, secondary: Record, row: Row)
    requires row in Merge(primary, secondary) && row.Brda?
    ensures row.branch in WholesOf(primary) || row.branch in WholesOf(secondary)
  {
    MergedBranches(primary, secondary);
    var rows := Merge(primary, secondary);
    var i :| 0 <= i < |rows| && rows[i] == row;
    HitIsLargest(rows, BranchMark, row.branch);
    assert BranchMark(rows[i]).Some? && BranchMark(rows[i]).value.0 == row.branch;
    SmartKeys(WholesOf(primary), WholesOf(secondary), row.branch);
  }

  /** Each merge adds a field to every branch row. */
  lemma MergeGoesBeyond(primary: Record, secondary: Record, n: int)
    requires Beyond(primary, n) && Beyond(secondary, n)
    ensures Beyond(Merge(primary, secondary), n + 1)
  {
    var rows := Merge(primary, secondary);
    forall i | 0 <= i < |rows| && rows[i].Brda? ensures Commas(rows[i].branch) > n + 1 {
      MergedRow(primary, secondary, rows[i]);
      if rows[i].branch in WholesOf(primary) {
        BeyondWholes(primary, n, rows[i].branch);
      } else {
        BeyondWholes(secondary, n, rows[i].branch);
      }
    }
  }

  /**
   * One branch, never taken in one shard and taken in the other: the merged
   * record lists two branches, neither of them the one there was.
   */
  lemma SplitBranch(sf: string, branch: string, n: nat)
    requires n > 0
    ensures var rows := Merge([Sf(sf), Brda(branch, Times(0)), End], [Sf(sf), Brda(branch, Times(n)), End]);
            && BranchesOf(rows) == map[Whole(branch, Times(0)) := 0, Whole(branch, Times(n)) := n]
            && |rows| >= 3 && rows[|rows| - 3..] == [Brf(2), Brh(1), End]
            && branch !in BranchesOf(rows)
  {
    var never, taken := [Sf(sf), Brda(branch, Times(0)), End], [Sf(sf), Brda(branch, Times(n)), End];
    var zero, some := Whole(branch, Times(0)), Whole(branch, Times(n));
    OneBranch(sf, branch, 0);
    OneBranch(sf, branch, n);
    WholesDiffer(branch, 0, n);
    TwoKeys(zero, some, n);
    MergedBranches(never, taken);
    MergedTotals(never, taken, map[zero := 0, some := n]);
    WholeCommas(branch, Times(0));
    WholeCommas(branch, Times(n));
  }

  lemma TwoKeys(zero: string, some: string, n: nat)
    requires zero != some && n > 0
    ensures Smart(map[zero := 0], map[some := n]) == map[zero := 0, some := n]
    ensures |map[zero := 0, some := n].Keys| == 2 && |Positive(map[zero := 0, some := n])| == 1
  {
    var both := map[zero := 0, some := n];
    assert both.Keys == {zero, some} && Positive(both) == {some};
    assert Positive(map[some := n]) == {some};
  }

  lemma OneBranch(sf: string, branch: string, n: nat)
    ensures WholesOf([Sf(sf), Brda(branch, Times(n)), End]) == map[Whole(branch, Times(n)) := n]
  {
    var row := Brda(branch, Times(n));
    Framed([Sf(sf)], [row], [End], WholeMark);
    assert [Sf(sf)] + [row] + [End] == [Sf(sf), row, End];
    assert Reading([row][..0], WholeMark) == map[];
  }

  lemma WholesDiffer(branch: string, m: nat, n: nat)
    requires m != n
    ensures Whole(branch, Times(m)) != Whole(branch, Times(n))
  {
    ParseDecimalOf(m);
    ParseDecimalOf(n);
    assert Whole(branch, Times(m))[|branch| + 1..] == Decimal(m);
    assert Whole(branch, Times(n))[|branch| + 1..] == Decimal(n);
  }

  // ---------------------------------------------------------------- whole merges

  /** How often a branch was taken, to a reader that takes the last field for the count. */
  function LastFieldHit(branch: string): Record -> nat {
    (rows: Record) => BranchHit(rows, branch)
  }

  predicate AllFourFields(report: Report) {
    forall sf :: sf in report ==> FourFields(report[sf])
  }

  /** How many of the reports have the file. */
  function Holders(reports: seq<Report>, sf: string): nat {
    if reports == [] then 0
    else Holders(reports[..|reports| - 1], sf) + (if sf in reports[|reports| - 1] then 1 else 0)
  }

  ghost predicate NeverTaken(reports: seq<Report>, sf: string, branch: string) {
    forall i :: 0 <= i < |reports| ==> HitIn(LastFieldHit(branch), reports[i], sf) == 0
  }

  /** What merging `reports` has made of a file: nothing, the one record there was, or a record with longer branches. */
  ghost predicate MadeOf(reports: seq<Report>, merged: Report, sf: string) {
    && (sf in merged <==> Holders(reports, sf) > 0)
    && (sf in merged ==> Beyond(merged[sf], 1))
    && (Holders(reports, sf) == 1 ==>
          exists i :: 0 <= i < |reports| && sf in reports[i] && reports[i][sf] == merged[sf])
    && (Holders(reports, sf) > 1 ==> Beyond(merged[sf], 2))
  }

  /** Joining two records leaves only branches of more fields. */
  ghost predicate Deepens(join: (Record, Record) -> Record) {
    forall a, b :: Beyond(a, 1) && Beyond(b, 1) ==> Beyond(join(a, b), 2)
  }

  lemma WiderDeepens()
    ensures Deepens(WiderFirst)
  {
    forall a, b | Beyond(a, 1) && Beyond(b, 1) ensures Beyond(WiderFirst(a, b), 2) {
      MergeGoesBeyond(a, b, 1);
      MergeGoesBeyond(b, a, 1);
    }
  }

  /** Joining one more report, by whichever rule decides the primary. */
  lemma JoinMakes(join: (Record, Record) -> Record, reports: seq<Report>, merged: Report, report: Report, sf: string)
    requires MadeOf(reports, merged, sf) && AllFourFields(report) && Deepens(join)
    ensures MadeOf(reports + [report], Joined(join, merged, report), sf)
  {
    var all := reports + [report];
    assert all[..|all| - 1] == reports && all[|reports|] == report;
    assert Holders(all, sf) == Holders(reports, sf) + (if sf in report then 1 else 0);
    if sf !in report && Holders(reports, sf) == 1 {
      var i :| 0 <= i < |reports| && sf in reports[i] && reports[i][sf] == merged[sf];
      assert all[i] == reports[i];
    }
  }

  lemma {:induction false} UnionMakes(reports: seq<Report>, sf: string)
    requires forall i :: 0 <= i < |reports| ==> AllFourFields(reports[i])
    ensures MadeOf(reports, Union(reports), sf)
  {
    if reports != [] {
      var front := reports[..|reports| - 1];
      UnionMakes(front, sf);
      WiderDeepens();
      JoinMakes(WiderFirst, front, Union(front), reports[|reports| - 1], sf);
      assert reports == front + [reports[|reports| - 1]];
    }
  }

  /** The final merge, with Vitest as the report that comes last. */
  function VitestLast(deno: Record, vitest: Record): Record {
    CoveredFirst(vitest, deno)
  }

  lemma VitestDeepens()
    ensures Deepens(VitestLast)
  {
    forall a, b | Beyond(a, 1) && Beyond(b, 1) ensures Beyond(VitestLast(a, b), 2) {
      MergeGoesBeyond(a, b, 1);
      MergeGoesBeyond(b, a, 1);
    }
  }

  lemma VitestJoins(vitest: Report, deno: Report)
    ensures Joined(VitestLast, deno, vitest) == MergeMaps(vitest, deno)
  {
  }

  lemma MergeMapsMakes(vitest: Report, shards: seq<Report>, sf: string)
    requires AllFourFields(vitest) && forall i :: 0 <= i < |shards| ==> AllFourFields(shards[i])
    ensures MadeOf(shards + [vitest], MergeMaps(vitest, Union(shards)), sf)
  {
    UnionMakes(shards, sf);
    VitestJoins(vitest, Union(shards));
    VitestDeepens();
    JoinMakes(VitestLast, shards, Union(shards), vitest, sf);
  }

  lemma {:induction false} OneHolder(reports: seq<Report>, sf: string, i: nat, j: nat)
    requires i < j < |reports| && sf in reports[i] && sf in reports[j]
    ensures Holders(reports, sf) > 1
  {
    var front := reports[..|reports| - 1];
    if j < |front| {
      OneHolder(front, sf, i, j);
    } else {
      SomeHolder(front, sf, i);
    }
  }

  lemma {:induction false} SomeHolder(reports: seq<Report>, sf: string, i: nat)
    requires i < |reports| && sf in reports[i]
    ensures Holders(reports, sf) > 0
  {
    if i < |reports| - 1 {
      SomeHolder(reports[..|reports| - 1], sf, i);
    }
  }

  /** What a merge of this kind says of a branch: the only report's count, and nothing when there are several. */
  lemma MadeOfHit(reports: seq<Report>, merged: Report, sf: string, branch: string)
    requires MadeOf(reports, merged, sf) && Commas(branch) == 2
    ensures IsMaximum(LastFieldHit(branch), reports, sf, HitIn(LastFieldHit(branch), merged, sf))
            <==> Holders(reports, sf) <= 1 || NeverTaken(reports, sf, branch)
  {
    var hit := HitIn(LastFieldHit(branch), merged, sf);
    if Holders(reports, sf) == 0 {
      forall i | 0 <= i < |reports| ensures sf !in reports[i] {
        if sf in reports[i] {
          SomeHolder(reports, sf, i);
        }
      }
    } else if Holders(reports, sf) == 1 {
      var k :| 0 <= k < |reports| && sf in reports[k] && reports[k][sf] == merged[sf];
      forall i | 0 <= i < |reports| && i != k ensures sf !in reports[i] {
        if sf in reports[i] {
          OneHolder(reports, sf, if i < k then i else k, if i < k then k else i);
        }
      }
      assert HitIn(LastFieldHit(branch), reports[k], sf) == hit;
    } else {
      BeyondBranches(merged[sf], 2, branch);
      assert hit == 0;
    }
  }

  /**
   * The promise of `union_deno_records`, and of the whole merge: the merged
   * report gives a branch the largest count of any report exactly when at most
   * one report has the file, or no report took the branch.
   */
  lemma BranchMaximumExactly(vitest: Report, shards: seq<Report>, sf: string, branch: string)
    requires AllFourFields(vitest) && (forall i :: 0 <= i < |shards| ==> AllFourFields(shards[i]))
    requires Commas(branch) == 2
    ensures var all := shards + [vitest];
            IsMaximum(LastFieldHit(branch), all, sf, HitIn(LastFieldHit(branch), MergeMaps(vitest, Union(shards)), sf))
            <==> Holders(all, sf) <= 1 || NeverTaken(all, sf, branch)
    ensures IsMaximum(LastFieldHit(branch), shards, sf, HitIn(LastFieldHit(branch), Union(shards), sf))
            <==> Holders(shards, sf) <= 1 || NeverTaken(shards, sf, branch)
  {
    MergeMapsMakes(vitest, shards, sf);
    MadeOfHit(shards + [vitest], MergeMaps(vitest, Union(shards)), sf, branch);
    UnionMakes(shards, sf);
    MadeOfHit(shards, Union(shards), sf, branch);
  }

  // ---------------------------------------------------------------- a reader by position

  function CountText(text: string): nat {
    if text != "" && AllDigits(text) then ParseDecimal(text) else 0
  }

  /** Line, block and branch are the first three fields and the count is the fourth, whatever follows. */
  function Positional(whole: string): Mark<string> {
    var fields := Split(whole, ',');
    if |fields| < 4 then None else Some((Join(fields[..3], ','), CountText(fields[3])))
  }

  function PositionMark(row: Row): Mark<string> {
    if row.Brda? then Positional(Whole(row.branch, row.taken)) else None
  }

  function PositionHit(branch: string): Record -> nat {
    (rows: Record) => Get(Reading(rows, PositionMark), branch)
  }

  lemma {:induction false} SplitAppend(a: string, b: string, sep: char)
    ensures Split(a + [sep] + b, sep) == Split(a, sep) + Split(b, sep)
  {
    var s := a + [sep] + b;
    if a == "" {
      assert s[1..] == b;
    } else {
      assert s[1..] == a[1..] + [sep] + b;
      SplitAppend(a[1..], b, sep);
    }
  }

  lemma {:induction false} CommasOfSplit(s: string)
    ensures |Split(s, ',')| == Commas(s) + 1
  {
    if s != "" {
      CommasOfSplit(s[1..]);
    }
  }

  /** One more field at the end changes nothing for this reader. */
  lemma PositionalAppend(whole: string, field: string)
    requires Positional(whole).Some?
    ensures Positional(whole + "," + field) == Positional(whole)
  {
    SplitAppend(whole, field, ',');
    assert (Split(whole, ',') + Split(field, ','))[..3] == Split(whole, ',')[..3];
  }

  /** For this reader the row's count is the one in its last field as well. */
  predicate Regular(row: Row) {
    row.Brda? ==> PositionMark(row).Some? && PositionMark(row).value.1 == TakenCount(row.taken)
  }

  predicate RegularRows(rows: Record) {
    forall i :: 0 <= i < |rows| ==> Regular(rows[i])
  }

  lemma TakenField(taken: Taken)
    ensures Split(TakenText(taken), ',') == [TakenText(taken)] && CountText(TakenText(taken)) == TakenCount(taken)
  {
    SplitPiece(TakenText(taken), ',');
    match taken
    case Dash =>
      assert !IsDigit("-"[0]);
    case Times(n) =>
      ParseDecimalOf(n);
  }

  /** On LCOV's own rows both readers find the same. */
  lemma FourFieldsRow(row: Row)
    requires row.Brda? && Commas(row.branch) == 2
    ensures PositionMark(row) == BranchMark(row) && Regular(row)
  {
    var fields := Split(row.branch, ',');
    CommasOfSplit(row.branch);
    TakenField(row.taken);
    SplitAppend(row.branch, TakenText(row.taken), ',');
    assert (fields + [TakenText(row.taken)])[..3] == fields;
    JoinSplit(row.branch, ',');
  }

  lemma {:induction false} ReadersAgree(rows: Record)
    requires FourFields(rows)
    ensures Reading(rows, PositionMark) == BranchesOf(rows) && RegularRows(rows)
  {
    if rows != [] {
      ReadersAgree(rows[..|rows| - 1]);
      if rows[|rows| - 1].Brda? {
        FourFieldsRow(rows[|rows| - 1]);
      }
    }
  }

  /** In regular rows the count of a whole row is the one in its fourth field. */
  lemma RegularWhole(rows: Record, whole: string) returns (i: nat)
    requires RegularRows(rows) && whole in WholesOf(rows)
    ensures i < |rows| && rows[i].Brda? && Whole(rows[i].branch, rows[i].taken) == whole
    ensures Positional(whole).Some? && WholesOf(rows)[whole] == Positional(whole).value.1
  {
    HitIsLargest(rows, WholeMark, whole);
    i :| 0 <= i < |rows| && WholeMark(rows[i]).Some? && WholeMark(rows[i]).value.0 == whole;
    assert Regular(rows[i]);
    if WholesOf(rows)[whole] != 0 {
      var j :| 0 <= j < |rows| && WholeMark(rows[j]) == Some((whole, WholesOf(rows)[whole]));
      assert Regular(rows[j]);
    }
  }

  /** Every merged count is the fourth field of its key. */
  lemma RegularMerge(primary: Record, secondary: Record, whole: string)
    requires RegularRows(primary) && RegularRows(secondary)
    requires whole in Smart(WholesOf(primary), WholesOf(secondary))
    ensures Positional(whole).Some? && Smart(WholesOf(primary), WholesOf(secondary))[whole] == Positional(whole).value.1
  {
    SmartIsMax(WholesOf(primary), WholesOf(secondary), whole);
    if whole in WholesOf(primary) {
      var i := RegularWhole(primary, whole);
    }
    if whole in WholesOf(secondary) {
      var i := RegularWhole(secondary, whole);
    }
  }

  /** A branch row of a merged record is printed from a key and its count. */
  lemma MergedRowPrinted(sf: string, hits: Hits<Line>, branches: Hits<string>, row: Row)
    requires row in Rendered(sf, hits, branches) && row.Brda?
    ensures row.branch in branches && row.taken == Times(branches[row.branch])
  {
    LineRowsRead(hits);
    assert row in BranchRows(branches);
    var i :| 0 <= i < |BranchRows(branches)| && BranchRows(branches)[i] == row;
    BranchRowsPlain(branches, i);
  }

  lemma MergedRowRegular(primary: Record, secondary: Record, row: Row)
    requires RegularRows(primary) && RegularRows(secondary) && row in Merge(primary, secondary) && row.Brda?
    ensures Regular(row) && PositionMark(row) == Positional(row.branch)
  {
    var branches := Smart(WholesOf(primary), WholesOf(secondary));
    MergedRowPrinted(NameOf(primary), Smart(HitsOf(primary), HitsOf(secondary)), branches, row);
    RegularMerge(primary, secondary, row.branch);
    PositionalAppend(row.branch, TakenText(row.taken));
  }

  lemma MergeRegular(primary: Record, secondary: Record)
    requires RegularRows(primary) && RegularRows(secondary)
    ensures RegularRows(Merge(primary, secondary))
  {
    var rows := Merge(primary, secondary);
    forall i | 0 <= i < |rows| ensures Regular(rows[i]) {
      if rows[i].Brda? {
        MergedRowRegular(primary, secondary, rows[i]);
      }
    }
  }

  lemma RowSaidBy(primary: Record, secondary: Record, row: Row, branch: string, n: nat)
    requires RegularRows(primary) && RegularRows(secondary) && row in Merge(primary, secondary)
    requires PositionMark(row) == Some((branch, n))
    ensures n <= PositionHit(branch)(primary) || n <= PositionHit(branch)(secondary)
  {
    MergedRowRegular(primary, secondary, row);
    MergedRow(primary, secondary, row);
    if row.branch in WholesOf(primary) {
      SaidBy(primary, row.branch, branch, n);
    } else {
      SaidBy(secondary, row.branch, branch, n);
    }
  }

  /** What a merged record says was said by one of its sides. */
  lemma MergedAtMost(primary: Record, secondary: Record, rows: Record, branch: string)
    requires RegularRows(primary) && RegularRows(secondary) && rows == Merge(primary, secondary)
    ensures PositionHit(branch)(rows) <= Max(PositionHit(branch)(primary), PositionHit(branch)(secondary))
  {
    var n := PositionHit(branch)(rows);
    HitIsLargest(rows, PositionMark, branch);
    if n != 0 {
      var i :| 0 <= i < |rows| && PositionMark(rows[i]) == Some((branch, n));
      RowSaidBy(primary, secondary, rows[i], branch, n);
    }
  }

  lemma SaidBy(rows: Record, whole: string, branch: string, n: nat)
    requires RegularRows(rows) && whole in WholesOf(rows) && Positional(whole) == Some((branch, n))
    ensures n <= PositionHit(branch)(rows)
  {
    var i := RegularWhole(rows, whole);
    HitIsLargest(rows, PositionMark, branch);
    assert PositionMark(rows[i]) == Some((branch, n));
  }

  /** What a side says, the merged record says. */
  lemma MergedAtLeast(primary: Record, secondary: Record, side: Record, branch: string)
    requires RegularRows(primary) && RegularRows(secondary) && (side == primary || side == secondary)
    ensures PositionHit(branch)(side) <= PositionHit(branch)(Merge(primary, secondary))
  {
    var n := PositionHit(branch)(side);
    HitIsLargest(side, PositionMark, branch);
    if n != 0 {
      var i :| 0 <= i < |side| && PositionMark(side[i]) == Some((branch, n));
      var whole := Whole(side[i].branch, side[i].taken);
      assert Regular(side[i]) && WholeMark(side[i]) == Some((whole, n));
      HitIsLargest(side, WholeMark, whole);
      SmartKeys(WholesOf(primary), WholesOf(secondary), whole);
      KeyIsSaid(primary, secondary, whole, branch, n);
    }
  }

  lemma KeyIsSaid(primary: Record, secondary: Record, whole: string, branch: string, n: nat)
    requires RegularRows(primary) && RegularRows(secondary) && Positional(whole) == Some((branch, n))
    requires whole in Smart(WholesOf(primary), WholesOf(secondary))
    ensures n <= PositionHit(branch)(Merge(primary, secondary))
  {
    var rows := Merge(primary, secondary);
    MergedBranches(primary, secondary);
    HitIsLargest(rows, BranchMark, whole);
    var i :| 0 <= i < |rows| && BranchMark(rows[i]).Some? && BranchMark(rows[i]).value.0 == whole;
    MergedRowRegular(primary, secondary, rows[i]);
    HitIsLargest(rows, PositionMark, branch);
    assert PositionMark(rows[i]) == Some((branch, n));
  }

  function RegularRecords(): Record -> bool {
    (rows: Record) => RegularRows(rows)
  }

  lemma MergePosition(a: Record, b: Record, branch: string)
    requires RegularRows(a) && RegularRows(b)
    ensures RegularRows(Merge(a, b))
    ensures PositionHit(branch)(Merge(a, b)) == Max(PositionHit(branch)(a), PositionHit(branch)(b))
  {
    MergeRegular(a, b);
    MergedAtMost(a, b, Merge(a, b), branch);
    MergedAtLeast(a, b, a, branch);
    MergedAtLeast(a, b, b, branch);
  }

  lemma PositionsMaximized(branch: string)
    ensures Maximizes(RegularRecords(), PositionHit(branch), WiderFirst)
    ensures Maximizes(RegularRecords(), PositionHit(branch), CoveredFirst)
  {
    forall a, b ensures TakesLarger(RegularRecords(), PositionHit(branch), WiderFirst, a, b)
                     && TakesLarger(RegularRecords(), PositionHit(branch), CoveredFirst, a, b)
    {
      if RegularRows(a) && RegularRows(b) {
        MergePosition(a, b, branch);
        MergePosition(b, a, branch);
      }
    }
  }

  lemma FourFieldsRegular(report: Report)
    requires AllFourFields(report)
    ensures AllIn(RegularRecords(), report)
  {
    forall sf | sf in report ensures RegularRows(report[sf]) {
      ReadersAgree(report[sf]);
    }
  }

  /**
   * The reader by position always finds the largest count of any report, in the
   * union of shards and in the whole merge.
   */
  lemma PositionMaximum(vitest: Report, shards: seq<Report>, sf: string, branch: string)
    requires AllFourFields(vitest) && forall i :: 0 <= i < |shards| ==> AllFourFields(shards[i])
    ensures IsMaximum(PositionHit(branch), shards, sf, HitIn(PositionHit(branch), Union(shards), sf))
    ensures IsMaximum(PositionHit(branch), shards + [vitest], sf,
                      HitIn(PositionHit(branch), MergeMaps(vitest, Union(shards)), sf))
  {
    var fine, hit := RegularRecords(), PositionHit(branch);
    PositionsMaximized(branch);
    FourFieldsRegular(vitest);
    forall i | 0 <= i < |shards| ensures AllIn(fine, shards[i]) {
      FourFieldsRegular(shards[i]);
    }
    FoldedIsMaximum(fine, hit, WiderFirst, shards, sf);
    TwoJoinsMaximum(fine, hit, WiderFirst, CoveredFirst, vitest, shards, sf);
  }
}
