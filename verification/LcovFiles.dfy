/**
 * Reading and writing whole LCOV files: what `parse_records` makes of a file,
 * and that the written merge reads back as the merge.
 */
module LcovFiles {
  import opened Strings
  import opened LcovHits
  import opened Lcov

  /** The reader's variables: finished records, the file being read, its rows so far. */
  datatype Reader = Reader(records: Report, current: Option<string>, rows: Record)

  function Flush(r: Reader): Reader {
    if r.current.None? then r else Reader(r.records[r.current.value := r.rows], None, [])
  }

  function ReadRow(r: Reader, row: Row): Reader {
    if row.Sf? then Reader(Flush(r).records, Some(row.name), [row])
    else if r.current.None? then r
    else
      var more := r.(rows := r.rows + [row]);
      if row.End? then Flush(more) else more
  }

  function ReadRows(r: Reader, rows: Record): Reader {
    if rows == [] then r else ReadRow(ReadRows(r, rows[..|rows| - 1]), rows[|rows| - 1])
  }

  const START: Reader := Reader(map[], None, [])

  function Parse(rows: Record): Report {
    Flush(ReadRows(START, rows)).records
  }

  /** `parse_records` on the rows of a file. */
  method ParseRecords(rows: Record) returns (records: Report)
    ensures records == Parse(rows)
  {
    records := map[];
    var current: Option<string> := None;
    var lines: Record := [];
    var i := 0;
    while i < |rows|
      invariant 0 <= i <= |rows|
      invariant Reader(records, current, lines) == ReadRows(START, rows[..i])
    {
      var row := rows[i];
      assert rows[..i + 1][..i] == rows[..i];
      if row.Sf? {
        if current.Some? {
          records := records[current.value := lines];
        }
        current, lines := Some(row.name), [row];
      } else if current.Some? {
        lines := lines + [row];
        if row.End? {
          records := records[current.value := lines];
          current, lines := None, [];
        }
      }
      i := i + 1;
    }
    assert rows[..i] == rows;
    if current.Some? {
      records := records[current.value := lines];
    }
  }

  // ---------------------------------------------------------------- well-formed records

  /** Rows that may follow the SF row: no other SF row, and nothing after the end row. */
  predicate Body(rows: Record) {
    forall i :: 0 <= i < |rows| ==> !rows[i].Sf? && (rows[i].End? ==> i == |rows| - 1)
  }

  predicate WellFormed(sf: string, rows: Record) {
    |rows| >= 1 && rows[0] == Sf(sf) && Body(rows[1..])
  }

  predicate AllWellFormed(report: Report) {
    forall sf :: sf in report ==> WellFormed(sf, report[sf])
  }

  /** A record still open: no end row yet. */
  predicate Open(r: Reader) {
    r.current.Some? ==> WellFormed(r.current.value, r.rows) && forall i :: 0 <= i < |r.rows| ==> !r.rows[i].End?
  }

  lemma ReadRowWellFormed(r: Reader, row: Row)
    requires AllWellFormed(r.records) && Open(r)
    ensures AllWellFormed(ReadRow(r, row).records) && Open(ReadRow(r, row))
  {
    if !row.Sf? && r.current.Some? {
      var rows := r.rows + [row];
      assert rows[1..] == r.rows[1..] + [row];
      assert forall i :: 0 <= i < |r.rows| - 1 ==> r.rows[1..][i] == r.rows[i + 1];
      assert WellFormed(r.current.value, rows);
    } else if row.Sf? {
      assert [row][1..] == [];
    }
  }

  lemma {:induction false} ReadRowsWellFormed(rows: Record)
    ensures AllWellFormed(ReadRows(START, rows).records) && Open(ReadRows(START, rows))
  {
    if rows != [] {
      ReadRowsWellFormed(rows[..|rows| - 1]);
      ReadRowWellFormed(ReadRows(START, rows[..|rows| - 1]), rows[|rows| - 1]);
    }
  }

  /** Every record read from any file starts with its own SF row and ends at its end row. */
  lemma ParseWellFormed(rows: Record)
    ensures AllWellFormed(Parse(rows))
  {
    ReadRowsWellFormed(rows);
  }

  lemma FramedWellFormed(sf: string, lines: Record, tail: Record)
    requires forall i :: 0 <= i < |lines| ==> lines[i].Da?
    requires forall i :: 0 <= i < |tail| ==> !tail[i].Sf? && !tail[i].End?
    ensures WellFormed(sf, [Sf(sf)] + lines + (tail + [End]))
  {
    var all := [Sf(sf)] + lines + (tail + [End]);
    assert all[1..] == lines + tail + [End];
  }

  lemma RenderedWellFormed(sf: string, hits: Hits<Line>, branches: Hits<string>)
    ensures WellFormed(sf, Rendered(sf, hits, branches))
  {
    var rows := BranchRows(branches);
    LineRowsRead(hits);
    forall i | 0 <= i < |rows| ensures !rows[i].Sf? && !rows[i].End? {
      BranchRowsPlain(branches, i);
    }
    FramedWellFormed(sf, LineRows(hits), [Lf(|hits.Keys|), Lh(|Positive(hits)|)] + rows);
  }

  lemma MergeWellFormed(sf: string, primary: Record, secondary: Record)
    requires WellFormed(sf, primary)
    ensures WellFormed(sf, Merge(primary, secondary))
  {
    RenderedWellFormed(sf, Smart(HitsOf(primary), HitsOf(secondary)), Smart(WholesOf(primary), WholesOf(secondary)));
  }

  lemma AddReportWellFormed(merged: Report, report: Report)
    requires AllWellFormed(merged) && AllWellFormed(report)
    ensures AllWellFormed(AddReport(merged, report))
  {
    forall sf | sf in merged && sf in report ensures WellFormed(sf, WiderFirst(merged[sf], report[sf])) {
      MergeWellFormed(sf, merged[sf], report[sf]);
      MergeWellFormed(sf, report[sf], merged[sf]);
    }
  }

  lemma MergeMapsWellFormed(vitest: Report, deno: Report)
    requires AllWellFormed(vitest) && AllWellFormed(deno)
    ensures AllWellFormed(MergeMaps(vitest, deno))
  {
    forall sf | sf in vitest && sf in deno ensures WellFormed(sf, CoveredFirst(vitest[sf], deno[sf])) {
      MergeWellFormed(sf, vitest[sf], deno[sf]);
      MergeWellFormed(sf, deno[sf], vitest[sf]);
    }
  }

  function ParseAll(files: seq<Record>): (reports: seq<Report>)
    ensures |reports| == |files|
  {
    seq(|files|, i requires 0 <= i < |files| => Parse(files[i]))
  }

  lemma {:induction false} UnionWellFormed(files: seq<Record>)
    ensures AllWellFormed(Union(ParseAll(files)))
  {
    if files != [] {
      var front := files[..|files| - 1];
      UnionWellFormed(front);
      ParseWellFormed(files[|files| - 1]);
      assert ParseAll(files)[..|files| - 1] == ParseAll(front);
      AddReportWellFormed(Union(ParseAll(front)), Parse(files[|files| - 1]));
    }
  }

  // ---------------------------------------------------------------- writing, and reading back

  /** `write_records` in the order of `keys`. */
  function Write(records: Report, keys: seq<string>): Record
    requires forall i :: 0 <= i < |keys| ==> keys[i] in records
  {
    if keys == [] then [] else Write(records, keys[..|keys| - 1]) + records[keys[|keys| - 1]]
  }

  lemma {:induction false} ReadAppend(r: Reader, a: Record, b: Record)
    ensures ReadRows(r, a + b) == ReadRows(ReadRows(r, a), b)
  {
    if b == [] {
      assert a + b == a;
    } else {
      ReadAppend(r, a, b[..|b| - 1]);
      assert (a + b)[..|a + b| - 1] == a + b[..|b| - 1];
    }
  }

  /** A body with no end row only collects rows. */
  lemma {:induction false} ReadBody(r: Reader, body: Record)
    requires r.current.Some? && forall i :: 0 <= i < |body| ==> !body[i].Sf? && !body[i].End?
    ensures ReadRows(r, body) == r.(rows := r.rows + body)
  {
    if body == [] {
      assert r.rows + body == r.rows;
    } else {
      ReadBody(r, body[..|body| - 1]);
      assert r.rows + body == r.rows + body[..|body| - 1] + [body[|body| - 1]];
    }
  }

  /** After a well-formed record, and a flush, that record is stored under its name. */
  lemma ReadRecord(r: Reader, sf: string, rows: Record)
    requires WellFormed(sf, rows)
    ensures Flush(ReadRows(r, rows)) == Reader(Flush(r).records[sf := rows], None, [])
  {
    var body := rows[1..];
    assert rows == [Sf(sf)] + body;
    ReadAppend(r, [Sf(sf)], body);
    assert [Sf(sf)][..0] == [];
    var begun := Reader(Flush(r).records, Some(sf), [Sf(sf)]);
    assert ReadRows(r, [Sf(sf)]) == ReadRow(ReadRows(r, []), Sf(sf)) == begun;
    if |body| > 0 && body[|body| - 1].End? {
      ReadBody(begun, body[..|body| - 1]);
      assert [Sf(sf)] + body[..|body| - 1] + [body[|body| - 1]] == rows;
    } else {
      ReadBody(begun, body);
    }
  }

  lemma {:induction false} ReadWritten(records: Report, keys: seq<string>)
    requires AllWellFormed(records) && forall i :: 0 <= i < |keys| ==> keys[i] in records
    ensures Flush(ReadRows(START, Write(records, keys))) == Reader(map sf | sf in keys :: records[sf], None, [])
  {
    if keys != [] {
      var front, last := keys[..|keys| - 1], keys[|keys| - 1];
      ReadWritten(records, front);
      ReadAppend(START, Write(records, front), records[last]);
      ReadRecord(ReadRows(START, Write(records, front)), last, records[last]);
      OneMoreRecord(records, keys, front, last);
    }
  }

  lemma OneMoreRecord(records: Report, keys: seq<string>, front: seq<string>, last: string)
    requires keys == front + [last] && last in records && forall sf :: sf in front ==> sf in records
    ensures forall sf :: sf in keys ==> sf in records
    ensures (map sf | sf in keys :: records[sf]) == (map sf | sf in front :: records[sf])[last := records[last]]
  {
  }

  /** Writing well-formed records in any order of their names and reading the file gives them back. */
  lemma ParseWritten(records: Report, keys: seq<string>)
    requires AllWellFormed(records) && (forall i :: 0 <= i < |keys| ==> keys[i] in records)
    requires forall sf :: sf in records ==> sf in keys
    ensures Parse(Write(records, keys)) == records
  {
    ReadWritten(records, keys);
    assert records == map sf | sf in keys :: records[sf];
  }

  /** The merge of whole files. */
  function MergedFiles(vitest: Record, shards: seq<Record>): Report {
    MergeMaps(Parse(vitest), Union(ParseAll(shards)))
  }

  lemma MergedFilesWellFormed(vitest: Record, shards: seq<Record>)
    ensures AllWellFormed(MergedFiles(vitest, shards))
  {
    ParseWellFormed(vitest);
    UnionWellFormed(shards);
    MergeMapsWellFormed(Parse(vitest), Union(ParseAll(shards)));
  }

  /** `merge_lcov`: a reader of the written file sees, for each file and line, the largest count of any input file. */
  lemma WrittenMergeIsMaximum(vitest: Record, shards: seq<Record>, keys: seq<string>, sf: string, line: Line)
    requires forall f :: f in keys <==> f in MergedFiles(vitest, shards)
    ensures var read := Parse(Write(MergedFiles(vitest, shards), keys));
            && IsMaximum(LineHit(line), ParseAll(shards) + [Parse(vitest)], sf, HitIn(LineHit(line), read, sf))
            && (sf in read <==> sf in Parse(vitest) || exists i :: 0 <= i < |shards| && sf in Parse(shards[i]))
  {
    MergedFilesWellFormed(vitest, shards);
    ParseWritten(MergedFiles(vitest, shards), keys);
    MergeIsMaximum(Parse(vitest), ParseAll(shards), sf, line);
    LinesMaximized(line);
    FoldedIsMaximum(AnyRecord(), LineHit(line), WiderFirst, ParseAll(shards), sf);
    assert forall i :: 0 <= i < |shards| ==> ParseAll(shards)[i] == Parse(shards[i]);
  }

  // ---------------------------------------------------------------- the rows of the inputs

  /** Row `i` stands in a section of the file that begins at row `j`. */
  predicate InSectionFrom(rows: Record, sf: string, j: nat, i: nat) {
    j < i < |rows| && rows[j] == Sf(sf) && forall k :: j < k < i ==> !rows[k].Sf? && !rows[k].End?
  }

  predicate LastNamed(rows: Record, sf: string, j: nat) {
    forall k :: j < k < |rows| ==> rows[k] != Sf(sf)
  }

  /** Row `i` stands in the last section that the file has in this input. */
  ghost predicate InLastSection(rows: Record, sf: string, i: nat) {
    exists j: nat :: InSectionFrom(rows, sf, j, i) && LastNamed(rows, sf, j)
  }

  /** Row `i` stands in some section of the file. */
  ghost predicate InSection(rows: Record, sf: string, i: nat) {
    exists j: nat :: InSectionFrom(rows, sf, j, i)
  }

  /** A whole section: from its SF row to its end row, to the next SF row, or to the end of the input. */
  predicate Section(rows: Record, sf: string, j: nat, e: nat) {
    && j < e <= |rows| && rows[j] == Sf(sf)
    && (forall k :: j < k < e ==> !rows[k].Sf? && (rows[k].End? ==> k == e - 1))
    && (e == |rows| || rows[e - 1].End? || rows[e].Sf?)
  }

  /** What the reader holds for a file after some rows: its last section, open or stored. */
  ghost predicate Holds(rows: Record, sf: string, r: Reader, j: nat, e: nat) {
    && Section(rows, sf, j, e) && LastNamed(rows, sf, j)
    && (if r.current == Some(sf) then e == |rows| && r.rows == rows[j..] && !rows[|rows| - 1].End?
        else sf in r.records && r.records[sf] == rows[j..e] && (rows[e - 1].End? || e < |rows|))
  }

  lemma HoldsOn(front: Record, row: Row, sf: string, r: Reader, j: nat, e: nat) returns (e2: nat)
    requires Holds(front, sf, r, j, e) && row != Sf(sf)
    ensures Holds(front + [row], sf, ReadRow(r, row), j, e2)
  {
    var rows := front + [row];
    assert forall k :: 0 <= k < |front| ==> rows[k] == front[k];
    if r.current == Some(sf) {
      e2 := if row.Sf? then e else |rows|;
      assert rows[j..|front|] == front[j..];
      assert rows[j..] == front[j..] + [row];
    } else {
      e2 := e;
      assert rows[j..e] == front[j..e];
    }
  }

  /** Reading any rows: a file named among them is held as its last section, no other file is. */
  lemma {:induction false} ReadSections(rows: Record, sf: string) returns (j: nat, e: nat)
    ensures Sf(sf) in rows ==> Holds(rows, sf, ReadRows(START, rows), j, e)
    ensures Sf(sf) !in rows ==> ReadRows(START, rows).current != Some(sf) && sf !in ReadRows(START, rows).records
  {
    if rows == [] {
      j, e := 0, 0;
    } else {
      var front, row := rows[..|rows| - 1], rows[|rows| - 1];
      assert rows == front + [row];
      j, e := ReadSections(front, sf);
      if row == Sf(sf) {
        j, e := |front|, |rows|;
        assert rows[j..] == [row];
      } else if Sf(sf) in front {
        e := HoldsOn(front, row, sf, ReadRows(START, front), j, e);
      }
    }
  }

  /** Exactly the named files are read, each as its last section. */
  lemma ParseSections(rows: Record, sf: string) returns (j: nat, e: nat)
    ensures sf in Parse(rows) <==> Sf(sf) in rows
    ensures sf in Parse(rows) ==>
              Section(rows, sf, j, e) && LastNamed(rows, sf, j) && Parse(rows)[sf] == rows[j..e]
  {
    j, e := ReadSections(rows, sf);
    if Sf(sf) in rows && ReadRows(START, rows).current == Some(sf) {
      assert rows[j..] == rows[j..e];
    }
  }

  lemma SectionRows(rows: Record, sf: string, j: nat, e: nat, i: nat)
    requires Section(rows, sf, j, e) && LastNamed(rows, sf, j) && i < |rows| && !rows[i].Sf?
    ensures InLastSection(rows, sf, i) <==> j <= i < e
  {
    if j <= i < e {
      assert InSectionFrom(rows, sf, j, i);
    }
    if InLastSection(rows, sf, i) {
      var m: nat :| InSectionFrom(rows, sf, m, i) && LastNamed(rows, sf, m);
      assert m == j;
    }
  }

  /** Row `i` counts the line, in the file's last section. */
  ghost predicate Counts(rows: Record, sf: string, line: Line, i: int) {
    0 <= i < |rows| && rows[i].Da? && rows[i].line == line && InLastSection(rows, sf, i)
  }

  /** The largest count that the rows of the file's last section give the line. */
  ghost predicate IsRowLargest(rows: Record, sf: string, line: Line, hit: nat) {
    && (forall i :: Counts(rows, sf, line, i) ==> rows[i].count <= hit)
    && (hit == 0 || exists i :: Counts(rows, sf, line, i) && rows[i].count == hit)
  }

  lemma ParsedIsRowLargest(rows: Record, sf: string, line: Line)
    ensures IsRowLargest(rows, sf, line, HitIn(LineHit(line), Parse(rows), sf))
  {
    var j, e := ParseSections(rows, sf);
    var hit := HitIn(LineHit(line), Parse(rows), sf);
    if sf in Parse(rows) {
      var part := rows[j..e];
      HitIsLargest(part, LineMark, line);
      forall i | Counts(rows, sf, line, i) ensures rows[i].count <= hit {
        SectionRows(rows, sf, j, e, i);
        assert part[i - j] == rows[i];
      }
      if hit != 0 {
        var k :| 0 <= k < |part| && LineMark(part[k]) == Some((line, hit));
        assert rows[j + k] == part[k];
        SectionRows(rows, sf, j, e, j + k);
      }
    } else {
      assert forall i: nat :: !InLastSection(rows, sf, i);
    }
  }

  /** No file has two sections in the input. */
  predicate NamedOnce(rows: Record) {
    forall i, j :: 0 <= i < j < |rows| && rows[i].Sf? ==> rows[i] != rows[j]
  }

  lemma OnlySection(rows: Record, sf: string, i: nat)
    requires NamedOnce(rows)
    ensures InSection(rows, sf, i) <==> InLastSection(rows, sf, i)
  {
    if InSection(rows, sf, i) {
      var j: nat :| InSectionFrom(rows, sf, j, i);
      assert LastNamed(rows, sf, j);
    }
  }

  /** The largest count that any row of any input gives the line of the file. */
  ghost predicate IsLargestRow(inputs: seq<Record>, sf: string, line: Line, hit: nat) {
    && (forall f, i :: 0 <= f < |inputs| && Counts(inputs[f], sf, line, i) ==> inputs[f][i].count <= hit)
    && (hit == 0 || exists f, i :: 0 <= f < |inputs| && Counts(inputs[f], sf, line, i) && inputs[f][i].count == hit)
  }

  lemma LargestRow(inputs: seq<Record>, sf: string, line: Line, hit: nat)
    requires IsMaximum(LineHit(line), ParseAll(inputs), sf, hit)
    ensures IsLargestRow(inputs, sf, line, hit)
  {
    forall f | 0 <= f < |inputs| ensures IsRowLargest(inputs[f], sf, line, HitIn(LineHit(line), Parse(inputs[f]), sf)) {
      ParsedIsRowLargest(inputs[f], sf, line);
    }
    assert forall f :: 0 <= f < |inputs| ==> ParseAll(inputs)[f] == Parse(inputs[f]);
    if hit != 0 {
      var f :| 0 <= f < |inputs| && HitIn(LineHit(line), ParseAll(inputs)[f], sf) == hit;
      assert IsRowLargest(inputs[f], sf, line, hit);
    }
  }

  /**
   * The same in terms of the rows of the input files: the written merge gives
   * each line of each file the largest count on any row of the file's last
   * section in any input. An input that names no file twice has no other
   * sections (`OnlySection`).
   */
  lemma WrittenMergeIsLargestRow(vitest: Record, shards: seq<Record>, keys: seq<string>, sf: string, line: Line)
    requires forall f :: f in keys <==> f in MergedFiles(vitest, shards)
    ensures var read := Parse(Write(MergedFiles(vitest, shards), keys));
            && IsLargestRow(shards + [vitest], sf, line, HitIn(LineHit(line), read, sf))
            && (sf in read <==> exists f :: 0 <= f <= |shards| && Sf(sf) in (shards + [vitest])[f])
  {
    WrittenMergeIsMaximum(vitest, shards, keys, sf, line);
    assert ParseAll(shards + [vitest]) == ParseAll(shards) + [Parse(vitest)];
    LargestRow(shards + [vitest], sf, line, HitIn(LineHit(line), Parse(Write(MergedFiles(vitest, shards), keys)), sf));
    NamedFiles(vitest, shards, sf);
  }

  lemma NamedFiles(vitest: Record, shards: seq<Record>, sf: string)
    ensures (sf in Parse(vitest) || exists i :: 0 <= i < |shards| && sf in Parse(shards[i]))
            <==> exists f :: 0 <= f <= |shards| && Sf(sf) in (shards + [vitest])[f]
  {
    var all := shards + [vitest];
    forall f | 0 <= f < |all| ensures sf in Parse(all[f]) <==> Sf(sf) in all[f] {
      var j, e := ParseSections(all[f], sf);
    }
    assert all[|shards|] == vitest;
    assert forall i :: 0 <= i < |shards| ==> all[i] == shards[i];
  }

  /** A file named twice in one input keeps only its last section: whatever the first one counted is lost. */
  lemma RepeatForgets(sf: string, line: Line, n: nat)
    requires n > 0
    ensures var rows := [Sf(sf), Da(line, n), End, Sf(sf), Da(line, 0), End];
            && InSection(rows, sf, 1) && rows[1] == Da(line, n)
            && HitIn(LineHit(line), Parse(rows), sf) == 0
  {
    var rows := [Sf(sf), Da(line, n), End, Sf(sf), Da(line, 0), End];
    assert InSectionFrom(rows, sf, 0, 1);
    ParsedIsRowLargest(rows, sf, line);
    forall i | 0 <= i < |rows| && InLastSection(rows, sf, i) ensures rows[i] != Da(line, n) {
      var j: nat :| InSectionFrom(rows, sf, j, i) && LastNamed(rows, sf, j);
      assert rows[3] == Sf(sf);
    }
  }
}
