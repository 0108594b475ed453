/**
 * Key retirement while writers and other sweeps are at work: conditions on
 * what they write under which a completed session leaves no old key.
 */
module SweepOverlap {
  import opened Strings
  import opened Envelopes
  import opened SweepModel
  import opened SweepInduction
  import opened SweepSafety
  import opened SweepRetirement
  import opened SweepCoverage

  // ---------------------------------------------------------------- rows along a log

  function RowsFrom(base: Rows, log: seq<Entry>): Rows {
    if log == [] then base else Apply(RowsFrom(base, log[..|log| - 1]), log[|log| - 1].op)
  }

  /** The rows after a log that goes on from a world's. */
  function BookOf(w: World): seq<Entry> -> Rows {
    (log: seq<Entry>) => if |log| >= |w.log| then RowsFrom(w.rows, log[|w.log|..]) else w.rows
  }

  lemma BookPosts(w: World, log: seq<Entry>, e: Entry)
    requires |log| >= |w.log|
    ensures BookOf(w)(log + [e]) == Apply(BookOf(w)(log), e.op)
  {
    var tail := (log + [e])[|w.log|..];
    assert tail == log[|w.log|..] + [e];
    assert tail[..|tail| - 1] == log[|w.log|..];
  }

  lemma BookStarts(w: World)
    ensures BookOf(w)(w.log) == w.rows
  {
    assert w.log[|w.log|..] == [];
  }

  /** The book's law along the prefixes of one log. */
  ghost predicate Books(book: seq<Entry> -> Rows, start: nat) {
    forall log: seq<Entry>, e: Entry :: |log| >= start ==> book(log + [e]) == Apply(book(log), e.op)
  }

  lemma BookOfBooks(w: World)
    ensures Books(BookOf(w), |w.log|)
  {
    forall log: seq<Entry>, e: Entry | |log| >= |w.log| ensures BookOf(w)(log + [e]) == Apply(BookOf(w)(log), e.op) {
      BookPosts(w, log, e);
    }
  }

  lemma BookStep(book: seq<Entry> -> Rows, start: nat, log: seq<Entry>, i: nat)
    requires Books(book, start) && start <= i < |log|
    ensures book(log[..i + 1]) == Apply(book(log[..i]), log[i].op)
  {
    assert log[..i + 1] == log[..i] + [log[i]];
  }

  // ---------------------------------------------------------------- operations at a place

  /** The place looks the same, present or absent. */
  predicate SameCell(p: Place, a: Rows, b: Rows) {
    && (p.key in a <==> p.key in b)
    && (p.key in a ==> a[p.key].marked == b[p.key].marked && a[p.key].Cell(p.column) == b[p.key].Cell(p.column))
  }

  predicate AimsAt(p: Place, op: Op) {
    op.key == p.key && (op.Assign? || op.Swap? ==> op.column == p.column)
  }

  /** The operation takes effect at the place. */
  predicate Strikes(p: Place, rows: Rows, op: Op) {
    AimsAt(p, op) && Hits(rows, op)
  }

  lemma MissKeeps(p: Place, rows: Rows, op: Op)
    requires !Strikes(p, rows, op)
    ensures SameCell(p, rows, Apply(rows, op))
  {
  }

  lemma SameCellClean(s: Keyring, strict: bool, p: Place, a: Rows, b: Rows)
    requires SameCell(p, a, b)
    ensures CleanAt(s, strict, a, p) <==> CleanAt(s, strict, b, p)
  {
  }

  lemma GentleStrikeCleans(s: Keyring, strict: bool, p: Place, rows: Rows, op: Op)
    requires Gentle(s, strict, p, op) && Strikes(p, rows, op)
    ensures CleanAt(s, strict, Apply(rows, op), p)
  {
  }

  // ---------------------------------------------------------------- gentle company

  function Always(met: seq<Entry> -> bool): nat -> seq<Entry> -> bool {
    (k: nat) => met
  }

  function CleanMet(s: Keyring, strict: bool, p: Place, book: seq<Entry> -> Rows): seq<Entry> -> bool {
    (log: seq<Entry>) => CleanAt(s, strict, book(log), p)
  }

  function Cells(p: Place): (Rows, Rows) -> bool {
    (a: Rows, b: Rows) => SameCell(p, a, b)
  }

  function GentleOps(s: Keyring, strict: bool, p: Place): Op -> bool {
    (op: Op) => Gentle(s, strict, p, op)
  }

  function GentleAim(s: Keyring, strict: bool, p: Place, w: World): Aim {
    Aim(p, strict, |w.log|, |w.log|, GentleOps(s, strict, p), BookOf(w), CleanMet(s, strict, p, BookOf(w)), Cells(p))
  }

  lemma GentleKeeps(s: Keyring, strict: bool, p: Place, book: seq<Entry> -> Rows, start: nat, log: seq<Entry>, e: Entry)
    requires Books(book, start) && |log| >= start && Gentle(s, strict, p, e.op)
    ensures CleanAt(s, strict, book(log), p) ==> CleanAt(s, strict, book(log + [e]), p)
    ensures CleanAt(s, strict, book(log + [e]), p) || SameCell(p, book(log), book(log + [e]))
  {
    var rows := book(log);
    if Strikes(p, rows, e.op) {
      GentleStrikeCleans(s, strict, p, rows, e.op);
    } else {
      MissKeeps(p, rows, e.op);
      SameCellClean(s, strict, p, rows, book(log + [e]));
    }
  }

  lemma GentleAimSound(s: Keyring, strict: bool, p: Place, w: World, k: nat)
    requires k >= |w.log|
    ensures Sound(s, At(GentleAim(s, strict, p, w), Always(CleanMet(s, strict, p, BookOf(w))), k))
  {
    BookOfBooks(w);
    var a := At(GentleAim(s, strict, p, w), Always(CleanMet(s, strict, p, BookOf(w))), k);
    forall log: seq<Entry>, e: Entry | |log| >= k && Gentle(s, strict, p, e.op) ensures Keeps(a, log, e) {
      GentleKeeps(s, strict, p, BookOf(w), |w.log|, log, e);
    }
    forall seen: Rows, log: seq<Entry>, e: Entry | |log| >= k && Attempts(s, a, seen, log, e) ensures a.met(log + [e]) {
      GentleStrikeCleans(s, strict, p, BookOf(w)(log), e.op);
    }
  }

  /** Other sessions only ever store values at rest at the place; unless `strict`, no swap of the sweep goes wrong. */
  ghost predicate GentleTurns(s: Keyring, strict: bool, p: Place, turns: seq<Turn>) {
    && (forall i, j :: 0 <= i < |turns| && 0 <= j < |turns[i].ops| ==> Gentle(s, strict, p, turns[i].ops[j]))
    && (forall i :: 0 <= i < |turns| ==> strict || turns[i].fault == NoFault)
  }

  /** In gentle company a completed session leaves the place at rest; a strict one must also count no failure. */
  lemma GentleSession(s: Keyring, strict: bool, p: Place, w: World, limits: seq<nat>, x: (World, Result))
    requires Lawful(s) && GentleTurns(s, strict, p, w.pending)
    requires forall i :: 0 <= i < |limits| ==> limits[i] > 0
    requires x == Session(s, w, START, limits, EMPTY_SUMMARY)
    ensures x.1.completed && (strict ==> x.1.sum.failed == 0) ==> CleanAt(s, strict, x.0.rows, p)
  {
    if KindOf(p) != Nothing {
      var a, mets := GentleAim(s, strict, p, w), Always(CleanMet(s, strict, p, BookOf(w)));
      forall k: nat | k >= a.start ensures Sound(s, At(a, mets, k)) {
        GentleAimSound(s, strict, p, w, k);
      }
      BookStarts(w);
      SessionFollows(s, a, mets, w, limits, x, SessionReads(s, w, START, limits));
    }
  }

  /**
   * Key retirement at one place: if every other session only ever stores
   * values at rest there, a session that completes with no failure leaves no
   * older-version envelope there. What happens at other places is irrelevant.
   */
  lemma PlaceRetires(s: Keyring, p: Place, w: World, limits: seq<nat>)
    requires Lawful(s) && GentleTurns(s, true, p, w.pending)
    requires forall i :: 0 <= i < |limits| ==> limits[i] > 0
    ensures var x := Session(s, w, START, limits, EMPTY_SUMMARY);
            x.1.completed && x.1.sum.failed == 0 ==> CleanAt(s, true, x.0.rows, p)
  {
    GentleSession(s, true, p, w, limits, Session(s, w, START, limits, EMPTY_SUMMARY));
  }

  /** On a quiet database a completed session without failures retires every older key version. */
  lemma QuietSweepRetires(s: Keyring, w: World, limits: seq<nat>)
    requires Lawful(s) && w.pending == []
    requires forall i :: 0 <= i < |limits| ==> limits[i] > 0
    ensures var x := Session(s, w, START, limits, EMPTY_SUMMARY);
            x.1.completed && x.1.sum.failed == 0 ==> Retired(s, x.0.rows)
  {
    var x := Session(s, w, START, limits, EMPTY_SUMMARY);
    forall p ensures x.1.completed && x.1.sum.failed == 0 ==> CleanAt(s, true, x.0.rows, p) {
      GentleSession(s, true, p, w, limits, x);
    }
  }

  // ---------------------------------------------------------------- other sweeps

  /** Another sweep's writes leave single-envelope columns at rest. */
  lemma OtherSweepsAreGentle(s: Keyring, p: Place, op: Op)
    requires IsReseal(s, op) && KindOf(p) == WholeText
    ensures Gentle(s, true, p, op)
  {
    if op.next.Text? {
      assert s.version(op.next.text) == Some(s.current);
    }
  }

  /** The named member of the JSON row at the place is this text. */
  predicate Has(rows: Rows, p: Place, name: Name, text: string) {
    && p.key in rows && rows[p.key].Cell(p.column).Object?
    && name in rows[p.key].Cell(p.column).members && rows[p.key].Cell(p.column).members[name] == Str(text)
  }

  lemma CleanHasNoOld(s: Keyring, p: Place, rows: Rows, name: Name, text: string)
    requires KindOf(p).Members? && name in KindOf(p).keys && Old(s, text) && CleanAt(s, true, rows, p)
    ensures !Has(rows, p, name, text)
  {
    var i :| 0 <= i < |KindOf(p).keys| && KindOf(p).keys[i] == name;
  }

  lemma OldMember(s: Keyring, p: Place, rows: Rows) returns (name: Name, text: string)
    requires KindOf(p).Members? && !CleanAt(s, true, rows, p)
    ensures name in KindOf(p).keys && Old(s, text) && Has(rows, p, name, text)
  {
    var members, keys := rows[p.key].Cell(p.column).members, KindOf(p).keys;
    var i :| 0 <= i < |keys| && keys[i] in members && members[keys[i]].Str? && !Rests(s, true, members[keys[i]].text);
    name, text := keys[i], members[keys[i]].text;
  }

  /** An update that some sweep with this keyring makes of a JSON row, with failures or without. */
  ghost predicate SweepUpdate(s: Keyring, p: Place, op: Op) {
    && KindOf(p).Members? && op.Swap? && op.expected.Object?
    && exists draw: nat, sum: Summary ::
         op.next == Object(ResealKeys(s, Progress(op.expected.members, 0, draw, sum), KindOf(p).keys).members)
  }

  /** Such an update leaves nothing old that the keyring can open, keeps what it cannot, and brings no old text in. */
  lemma SweepUpdateFacts(s: Keyring, p: Place, op: Op)
    requires Lawful(s) && SweepUpdate(s, p, op)
    ensures Gentle(s, false, p, op) && SwapsReseals(s, op)
  {
    var draw: nat, sum: Summary :|
      op.next == Object(ResealKeys(s, Progress(op.expected.members, 0, draw, sum), KindOf(p).keys).members);
    ResealKeysRest(s, false, Progress(op.expected.members, 0, draw, sum), KindOf(p).keys);
    ResealKeysOnly(s, Progress(op.expected.members, 0, draw, sum), KindOf(p).keys);
  }

  /** The operation re-seals as a sweep does, or stores only values at rest at the place. */
  ghost predicate PeacefulOp(s: Keyring, p: Place, op: Op) {
    (KindOf(p) == WholeText && IsReseal(s, op)) || SweepUpdate(s, p, op) || Gentle(s, true, p, op)
  }

  ghost predicate Peaceful(s: Keyring, p: Place, turns: seq<Turn>) {
    forall i, j :: 0 <= i < |turns| && 0 <= j < |turns[i].ops| ==> PeacefulOp(s, p, turns[i].ops[j])
  }

  ghost function PeacefulOps(s: Keyring, p: Place): Op -> bool {
    (op: Op) => PeacefulOp(s, p, op)
  }

  lemma GentlerStill(s: Keyring, p: Place, op: Op)
    requires Gentle(s, true, p, op)
    ensures Gentle(s, false, p, op)
  {
  }

  lemma PeacefulIsGentle(s: Keyring, p: Place, op: Op)
    requires Lawful(s) && KindOf(p).Members? && PeacefulOp(s, p, op)
    ensures Gentle(s, false, p, op)
  {
    if SweepUpdate(s, p, op) {
      SweepUpdateFacts(s, p, op);
    } else {
      GentlerStill(s, p, op);
    }
  }

  /** First aim at a JSON row: nothing old that the keyring can open is left. */
  ghost function OpenedAim(s: Keyring, p: Place, w: World): Aim {
    Aim(p, true, |w.log|, |w.log|, PeacefulOps(s, p), BookOf(w), CleanMet(s, false, p, BookOf(w)), Cells(p))
  }

  lemma CleanerStill(s: Keyring, p: Place, rows: Rows)
    requires CleanAt(s, true, rows, p)
    ensures CleanAt(s, false, rows, p)
  {
  }

  lemma OpenedAimSound(s: Keyring, p: Place, w: World, k: nat)
    requires Lawful(s) && KindOf(p).Members? && k >= |w.log|
    ensures Sound(s, At(OpenedAim(s, p, w), Always(CleanMet(s, false, p, BookOf(w))), k))
  {
    BookOfBooks(w);
    var a := At(OpenedAim(s, p, w), Always(CleanMet(s, false, p, BookOf(w))), k);
    forall log: seq<Entry> | |log| >= k && CleanAt(s, true, a.rowsAt(log), p) ensures a.met(log) {
      CleanerStill(s, p, BookOf(w)(log));
    }
    forall log: seq<Entry>, e: Entry | |log| >= k && (if e.own then Gentle(s, true, p, e.op) else a.may(e.op))
      ensures Keeps(a, log, e)
    {
      PeacefulIsGentle(s, p, e.op);
      GentleKeeps(s, false, p, BookOf(w), |w.log|, log, e);
    }
    forall seen: Rows, log: seq<Entry>, e: Entry | |log| >= k && Attempts(s, a, seen, log, e) ensures a.met(log + [e]) {
      GentlerStill(s, p, e.op);
      GentleStrikeCleans(s, false, p, BookOf(w)(log), e.op);
    }
  }

  /** Second aim at a JSON row: an old text that the keyring cannot open is not there. */
  function GoneMet(p: Place, book: seq<Entry> -> Rows, name: Name, text: string): seq<Entry> -> bool {
    (log: seq<Entry>) => !Has(book(log), p, name, text)
  }

  function SameHas(p: Place, name: Name, text: string): (Rows, Rows) -> bool {
    (a: Rows, b: Rows) => Has(a, p, name, text) == Has(b, p, name, text)
  }

  ghost function GoneAim(s: Keyring, p: Place, w: World, name: Name, text: string): Aim {
    Aim(p, true, |w.log|, |w.log|, PeacefulOps(s, p), BookOf(w), GoneMet(p, BookOf(w), name, text),
        SameHas(p, name, text))
  }

  /** A named member whose old text the keyring cannot open. */
  predicate Shut(s: Keyring, p: Place, name: Name, text: string) {
    KindOf(p).Members? && name in KindOf(p).keys && Old(s, text) && s.decrypt(text).None?
  }

  /** No peaceful operation brings an old text in. */
  lemma PeacefulBringsNoOld(s: Keyring, p: Place, rows: Rows, op: Op, name: Name, text: string)
    requires Lawful(s) && Shut(s, p, name, text) && PeacefulOp(s, p, op)
    ensures Has(Apply(rows, op), p, name, text) ==> Has(rows, p, name, text)
  {
    if !Strikes(p, rows, op) {
      MissKeeps(p, rows, op);
    } else if SweepUpdate(s, p, op) {
      SweepUpdateFacts(s, p, op);
    } else {
      GentleStrikeCleans(s, true, p, rows, op);
      CleanHasNoOld(s, p, Apply(rows, op), name, text);
    }
  }

  /** The sweep's own update, when it counts no failure, is of a row without such a text. */
  lemma UpdateSawNone(s: Keyring, p: Place, seen: Rows, op: Op, name: Name, text: string)
    requires Shut(s, p, name, text) && Gentle(s, true, p, op) && SwapsReseals(s, op)
    requires op.Swap? && op.key == p.key && op.column == p.column
    requires p.key in seen && seen[p.key].Cell(p.column) == op.expected
    ensures !Has(seen, p, name, text)
  {
    var i :| 0 <= i < |KindOf(p).keys| && KindOf(p).keys[i] == name;
  }

  lemma GoneAimSound(s: Keyring, p: Place, w: World, name: Name, text: string, k: nat)
    requires Lawful(s) && Shut(s, p, name, text) && k >= |w.log|
    ensures Sound(s, At(GoneAim(s, p, w, name, text), Always(GoneMet(p, BookOf(w), name, text)), k))
  {
    BookOfBooks(w);
    var a := At(GoneAim(s, p, w, name, text), Always(GoneMet(p, BookOf(w), name, text)), k);
    forall log: seq<Entry> | |log| >= k && CleanAt(s, true, a.rowsAt(log), p) ensures a.met(log) {
      CleanHasNoOld(s, p, BookOf(w)(log), name, text);
    }
    forall log: seq<Entry>, e: Entry | |log| >= k && (if e.own then Gentle(s, true, p, e.op) else a.may(e.op))
      ensures Keeps(a, log, e)
    {
      PeacefulBringsNoOld(s, p, BookOf(w)(log), e.op, name, text);
    }
    forall seen: Rows, log: seq<Entry>, e: Entry | |log| >= k && Attempts(s, a, seen, log, e) ensures a.met(log + [e]) {
      UpdateSawNone(s, p, seen, e.op, name, text);
      PeacefulBringsNoOld(s, p, BookOf(w)(log), e.op, name, text);
    }
  }

  lemma NothingOpenLeft(s: Keyring, p: Place, w: World, limits: seq<nat>, x: (World, Result))
    requires Lawful(s) && KindOf(p).Members? && Peaceful(s, p, w.pending)
    requires forall i :: 0 <= i < |limits| ==> limits[i] > 0
    requires x == Session(s, w, START, limits, EMPTY_SUMMARY) && x.1.completed && x.1.sum.failed == 0
    ensures CleanAt(s, false, x.0.rows, p)
  {
    var a, mets := OpenedAim(s, p, w), Always(CleanMet(s, false, p, BookOf(w)));
    forall k: nat | k >= a.start ensures Sound(s, At(a, mets, k)) {
      OpenedAimSound(s, p, w, k);
    }
    BookStarts(w);
    SessionFollows(s, a, mets, w, limits, x, SessionReads(s, w, START, limits));
  }

  lemma NothingShutLeft(s: Keyring, p: Place, w: World, limits: seq<nat>, x: (World, Result), name: Name, text: string)
    requires Lawful(s) && Shut(s, p, name, text) && Peaceful(s, p, w.pending)
    requires forall i :: 0 <= i < |limits| ==> limits[i] > 0
    requires x == Session(s, w, START, limits, EMPTY_SUMMARY) && x.1.completed && x.1.sum.failed == 0
    ensures !Has(x.0.rows, p, name, text)
  {
    var a, mets := GoneAim(s, p, w, name, text), Always(GoneMet(p, BookOf(w), name, text));
    forall k: nat | k >= a.start ensures Sound(s, At(a, mets, k)) {
      GoneAimSound(s, p, w, name, text, k);
    }
    BookStarts(w);
    SessionFollows(s, a, mets, w, limits, x, SessionReads(s, w, START, limits));
  }

  lemma JsonRowRetires(s: Keyring, p: Place, w: World, limits: seq<nat>, x: (World, Result))
    requires Lawful(s) && KindOf(p).Members? && Peaceful(s, p, w.pending)
    requires forall i :: 0 <= i < |limits| ==> limits[i] > 0
    requires x == Session(s, w, START, limits, EMPTY_SUMMARY) && x.1.completed && x.1.sum.failed == 0
    ensures CleanAt(s, true, x.0.rows, p)
  {
    if !CleanAt(s, true, x.0.rows, p) {
      var name, text := OldMember(s, p, x.0.rows);
      NothingOpenLeft(s, p, w, limits, x);
      OldIsShut(s, p, x.0.rows, name, text);
      NothingShutLeft(s, p, w, limits, x, name, text);
    }
  }

  lemma OldIsShut(s: Keyring, p: Place, rows: Rows, name: Name, text: string)
    requires KindOf(p).Members? && name in KindOf(p).keys && Old(s, text) && Has(rows, p, name, text)
    requires CleanAt(s, false, rows, p)
    ensures Shut(s, p, name, text)
  {
    var i :| 0 <= i < |KindOf(p).keys| && KindOf(p).keys[i] == name;
  }

  /**
   * A completed sweep without failures leaves no older-version envelope at a
   * place, whatever other sweeps ran in between, with failures or without, and
   * whatever current-version envelopes writers stored: single-envelope columns
   * and JSON rows alike.
   */
  lemma RetiresAmongSweeps(s: Keyring, p: Place, w: World, limits: seq<nat>)
    requires Lawful(s) && Peaceful(s, p, w.pending)
    requires forall i :: 0 <= i < |limits| ==> limits[i] > 0
    ensures var x := Session(s, w, START, limits, EMPTY_SUMMARY);
            x.1.completed && x.1.sum.failed == 0 ==> CleanAt(s, true, x.0.rows, p)
  {
    var x := Session(s, w, START, limits, EMPTY_SUMMARY);
    if x.1.completed && x.1.sum.failed == 0 {
      if KindOf(p).Members? {
        JsonRowRetires(s, p, w, limits, x);
      } else {
        forall i, j | 0 <= i < |w.pending| && 0 <= j < |w.pending[i].ops|
          ensures Gentle(s, true, p, w.pending[i].ops[j])
        {
          assert PeacefulOp(s, p, w.pending[i].ops[j]);
          if KindOf(p) == WholeText && IsReseal(s, w.pending[i].ops[j]) {
            OtherSweepsAreGentle(s, p, w.pending[i].ops[j]);
          }
        }
        PlaceRetires(s, p, w, limits);
      }
    }
  }
}
