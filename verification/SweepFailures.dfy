/**
 * Exactly when a completed session without failures leaves an older-version
 * envelope at a place, over every schedule of other sessions.
 */
module SweepFailures {
  import opened Strings
  import opened Envelopes
  import opened SweepModel
  import opened SweepInduction
  import opened SweepRetirement
  import opened SweepCoverage
  import opened SweepOverlap

  // ---------------------------------------------------------------- the last operation that took effect

  /** Entry `i` took effect at the place. */
  predicate StrikesAt(p: Place, book: seq<Entry> -> Rows, log: seq<Entry>, i: nat) {
    i < |log| && Strikes(p, book(log[..i]), log[i].op)
  }

  /** Entry `i` left an older-version envelope at the place. */
  predicate LeavesOld(s: Keyring, p: Place, book: seq<Entry> -> Rows, log: seq<Entry>, i: nat) {
    i < |log| && !CleanAt(s, true, book(log[..i + 1]), p)
  }

  /** The last entry from `start` on that took effect at the place. */
  function LastStriker(p: Place, book: seq<Entry> -> Rows, start: nat, log: seq<Entry>): Option<nat> {
    if |log| <= start then None
    else
      var front := log[..|log| - 1];
      if Strikes(p, book(front), log[|log| - 1].op) then Some(|front|) else LastStriker(p, book, start, front)
  }

  lemma {:induction false} LastStrikerFacts(p: Place, book: seq<Entry> -> Rows, start: nat, log: seq<Entry>)
    ensures var i := LastStriker(p, book, start, log);
            && (i.Some? ==> start <= i.value < |log| && StrikesAt(p, book, log, i.value))
            && (forall j :: start <= j < |log| && (i.Some? ==> i.value < j) ==> !StrikesAt(p, book, log, j))
  {
    if |log| > start {
      var front := log[..|log| - 1];
      LastStrikerFacts(p, book, start, front);
      assert log[..|front|] == front;
      forall j | 0 <= j < |front| ensures StrikesAt(p, book, log, j) == StrikesAt(p, book, front, j) {
        assert log[j] == front[j] && log[..j] == front[..j];
      }
    }
  }

  /** Nothing that takes effect at the place leaves it as it was. */
  lemma {:induction false} Untouched(p: Place, book: seq<Entry> -> Rows, start: nat, log: seq<Entry>, i: nat)
    requires Books(book, start) && start <= i <= |log|
    requires forall j :: i <= j < |log| ==> !StrikesAt(p, book, log, j)
    ensures SameCell(p, book(log[..i]), book(log))
    decreases |log| - i
  {
    if i == |log| {
      assert log[..i] == log;
    } else {
      BookStep(book, start, log, i);
      assert !StrikesAt(p, book, log, i);
      MissKeeps(p, book(log[..i]), log[i].op);
      Untouched(p, book, start, log, i + 1);
    }
  }

  /** The place is at rest, or another session was the last to write there, after `k`. */
  function LastWordMet(s: Keyring, p: Place, w: World): nat -> seq<Entry> -> bool {
    (k: nat) => (log: seq<Entry>) =>
      || CleanAt(s, true, BookOf(w)(log), p)
      || (var i := LastStriker(p, BookOf(w), k, log); i.Some? && i.value < |log| && !log[i.value].own)
  }

  function AnyOp(): Op -> bool {
    (op: Op) => true
  }

  function LastWordAim(s: Keyring, p: Place, w: World): Aim {
    Aim(p, true, |w.log|, |w.log|, AnyOp(), BookOf(w), LastWordMet(s, p, w)(|w.log|), Cells(p))
  }

  lemma LastStrikerSnoc(p: Place, book: seq<Entry> -> Rows, start: nat, log: seq<Entry>, e: Entry)
    requires |log| >= start
    ensures LastStriker(p, book, start, log + [e]) ==
              if Strikes(p, book(log), e.op) then Some(|log|) else LastStriker(p, book, start, log)
  {
    assert (log + [e])[..|log|] == log;
  }

  lemma LastWordKeeps(s: Keyring, p: Place, w: World, k: nat, log: seq<Entry>, e: Entry)
    requires |log| >= k >= |w.log| && (e.own ==> Gentle(s, true, p, e.op))
    ensures LastWordMet(s, p, w)(k)(log) ==> LastWordMet(s, p, w)(k)(log + [e])
    ensures LastWordMet(s, p, w)(k)(log + [e]) || SameCell(p, BookOf(w)(log), BookOf(w)(log + [e]))
  {
    var book := BookOf(w);
    BookPosts(w, log, e);
    LastStrikerSnoc(p, book, k, log, e);
    LastStrikerFacts(p, book, k, log);
    if Strikes(p, book(log), e.op) {
      if e.own {
        GentleStrikeCleans(s, true, p, book(log), e.op);
      }
    } else {
      MissKeeps(p, book(log), e.op);
      SameCellClean(s, true, p, book(log), book(log + [e]));
    }
  }

  lemma LastWordSound(s: Keyring, p: Place, w: World, k: nat)
    requires k >= |w.log|
    ensures Sound(s, At(LastWordAim(s, p, w), LastWordMet(s, p, w), k))
  {
    BookOfBooks(w);
    var a := At(LastWordAim(s, p, w), LastWordMet(s, p, w), k);
    forall log: seq<Entry>, e: Entry | |log| >= k && (if e.own then Gentle(s, true, p, e.op) else a.may(e.op))
      ensures Keeps(a, log, e)
    {
      LastWordKeeps(s, p, w, k, log, e);
    }
    forall seen: Rows, log: seq<Entry>, e: Entry | |log| >= k && Attempts(s, a, seen, log, e) ensures a.met(log + [e]) {
      GentleStrikeCleans(s, true, p, BookOf(w)(log), e.op);
    }
  }

  /** Everything after entry `i` that took effect at the place left an older-version envelope there. */
  ghost predicate OldEversince(s: Keyring, p: Place, book: seq<Entry> -> Rows, log: seq<Entry>, i: nat) {
    forall j :: i < j < |log| && StrikesAt(p, book, log, j) ==> LeavesOld(s, p, book, log, j)
  }

  ghost predicate LeftOldBy(s: Keyring, p: Place, book: seq<Entry> -> Rows, log: seq<Entry>, i: nat) {
    i < |log| && !log[i].own && StrikesAt(p, book, log, i) && LeavesOld(s, p, book, log, i)
      && OldEversince(s, p, book, log, i)
  }

  /**
   * From `at` on, some other session's operation left an older-version
   * envelope at the place, and no later operation that took effect there left
   * the place at rest.
   */
  ghost predicate LeftOld(s: Keyring, p: Place, book: seq<Entry> -> Rows, at: nat, log: seq<Entry>) {
    exists i: nat :: i >= at && LeftOldBy(s, p, book, log, i)
  }

  lemma {:induction false} StaysOld(s: Keyring, p: Place, book: seq<Entry> -> Rows, start: nat, log: seq<Entry>, i: nat)
    requires Books(book, start) && start <= i <= |log| && !CleanAt(s, true, book(log[..i]), p)
    requires forall j :: i <= j < |log| && StrikesAt(p, book, log, j) ==> LeavesOld(s, p, book, log, j)
    ensures !CleanAt(s, true, book(log), p)
    decreases |log| - i
  {
    if i == |log| {
      assert log[..i] == log;
    } else {
      BookStep(book, start, log, i);
      if !StrikesAt(p, book, log, i) {
        MissKeeps(p, book(log[..i]), log[i].op);
        SameCellClean(s, true, p, book(log[..i]), book(log[..i + 1]));
      }
      StaysOld(s, p, book, start, log, i + 1);
    }
  }

  lemma LeftOldIsOld(s: Keyring, p: Place, book: seq<Entry> -> Rows, start: nat, at: nat, log: seq<Entry>)
    requires Books(book, start) && start <= at && LeftOld(s, p, book, at, log)
    ensures !CleanAt(s, true, book(log), p)
  {
    var i: nat :| i >= at && LeftOldBy(s, p, book, log, i);
    OldAfter(s, p, book, start, log, i);
  }

  lemma OldAfter(s: Keyring, p: Place, book: seq<Entry> -> Rows, start: nat, log: seq<Entry>, i: nat)
    requires Books(book, start) && start <= i < |log| && LeavesOld(s, p, book, log, i)
    requires OldEversince(s, p, book, log, i)
    ensures !CleanAt(s, true, book(log), p)
  {
    StaysOld(s, p, book, start, log, i + 1);
  }

  lemma LastWriterLeftOld(s: Keyring, p: Place, book: seq<Entry> -> Rows, start: nat, at: nat, log: seq<Entry>, i: nat)
    requires Books(book, start) && start <= at && LastStriker(p, book, at, log) == Some(i) && i < |log| && !log[i].own
    requires !CleanAt(s, true, book(log), p)
    ensures LeftOld(s, p, book, at, log)
  {
    LastStrikerFacts(p, book, at, log);
    Untouched(p, book, start, log, i + 1);
    SameCellClean(s, true, p, book(log[..i + 1]), book(log));
    assert LeftOldBy(s, p, book, log, i);
  }

  lemma LastWordMeans(s: Keyring, p: Place, w: World, at: nat, log: seq<Entry>)
    requires |w.log| <= at <= |log| && LastWordMet(s, p, w)(at)(log)
    ensures !CleanAt(s, true, BookOf(w)(log), p) <==> LeftOld(s, p, BookOf(w), at, log)
  {
    BookOfBooks(w);
    if !CleanAt(s, true, BookOf(w)(log), p) {
      LastWriterLeftOld(s, p, BookOf(w), |w.log|, at, log, LastStriker(p, BookOf(w), at, log).value);
    }
    if LeftOld(s, p, BookOf(w), at, log) {
      LeftOldIsOld(s, p, BookOf(w), |w.log|, at, log);
    }
  }

  /** One read of the session, and only one, covers the place and, from that read on, `LeftOld` decides. */
  ghost predicate DecidedAfterRead(s: Keyring, p: Place, w: World, end: World, looked: seq<Read>) {
    && CoversOnce(looked, p)
    && exists r :: 0 <= r < |looked| && ReadCovers(looked[r], p) && |w.log| <= looked[r].at <= |end.log|
                   && (!CleanAt(s, true, end.rows, p) <==> LeftOld(s, p, BookOf(w), looked[r].at, end.log))
  }

  /**
   * Over whole sessions and any schedule: a completed session without failures
   * leaves an older-version envelope at a place exactly when, after the
   * sweep's read of it, another session left one there and nothing that took
   * effect there later left the place at rest.
   */
  lemma PlaceFailsExactly(s: Keyring, p: Place, w: World, limits: seq<nat>, x: (World, Result))
    requires Lawful(s) && KindOf(p) != Nothing
    requires forall i :: 0 <= i < |limits| ==> limits[i] > 0
    requires x == Session(s, w, START, limits, EMPTY_SUMMARY) && x.1.completed && x.1.sum.failed == 0
    ensures DecidedAfterRead(s, p, w, x.0, SessionReads(s, w, START, limits))
  {
    var a, mets, looked := LastWordAim(s, p, w), LastWordMet(s, p, w), SessionReads(s, w, START, limits);
    forall k: nat | k >= a.start ensures Sound(s, At(a, mets, k)) {
      LastWordSound(s, p, w, k);
    }
    BookStarts(w);
    SessionFollows(s, a, mets, w, limits, x, looked);
    EachPlaceReadOnce(s, w, START, limits, p);
    FollowedDecides(s, p, w, x.0, looked);
  }

  lemma FollowedDecides(s: Keyring, p: Place, w: World, end: World, looked: seq<Read>)
    requires Followed(LastWordAim(s, p, w), LastWordMet(s, p, w), |w.log|, end.log, looked)
    requires BookOf(w)(end.log) == end.rows && CoversOnce(looked, p)
    ensures DecidedAfterRead(s, p, w, end, looked)
  {
    var r :| && 0 <= r < |looked| && ReadCovers(looked[r], p) && |w.log| <= looked[r].at <= |end.log|
             && LastWordMet(s, p, w)(looked[r].at)(end.log);
    LastWordMeans(s, p, w, looked[r].at, end.log);
  }

  // ---------------------------------------------------------------- writers that bring no old envelope in

  /** Each named member written is a current envelope, no envelope, or the text present at that moment. */
  ghost predicate BringsNoOld(s: Keyring, p: Place, rows: Rows, op: Op) {
    KindOf(p).Members? ==>
      forall name: Name, text: string ::
        name in KindOf(p).keys && Old(s, text) && Has(Apply(rows, op), p, name, text) ==> Has(rows, p, name, text)
  }

  ghost predicate NoneBringsOld(s: Keyring, p: Place, book: seq<Entry> -> Rows, start: nat, log: seq<Entry>) {
    forall i :: start <= i < |log| && !log[i].own ==> BringsNoOld(s, p, book(log[..i]), log[i].op)
  }

  /** Entry `i` is the sweep's own update of the place, and it came too late. */
  predicate LostAt(p: Place, book: seq<Entry> -> Rows, log: seq<Entry>, i: nat) {
    i < |log| && log[i].own && log[i].op.Swap? && AimsAt(p, log[i].op) && !Hits(book(log[..i]), log[i].op)
  }

  ghost predicate HasSince(p: Place, book: seq<Entry> -> Rows, name: Name, text: string, log: seq<Entry>, i: nat) {
    forall j :: i <= j <= |log| ==> Has(book(log[..j]), p, name, text)
  }

  /** The sweep's own update of the place came too late, and the member has kept its text from then on. */
  ghost predicate LostWith(p: Place, book: seq<Entry> -> Rows, name: Name, text: string, at: nat, log: seq<Entry>) {
    exists i: nat :: i >= at && LostAt(p, book, log, i) && HasSince(p, book, name, text, log, i)
  }

  ghost function LostMet(s: Keyring, p: Place, w: World, name: Name, text: string): nat -> seq<Entry> -> bool {
    (k: nat) => (log: seq<Entry>) =>
      || !NoneBringsOld(s, p, BookOf(w), |w.log|, log)
      || !Has(BookOf(w)(log), p, name, text)
      || LostWith(p, BookOf(w), name, text, k, log)
  }

  function Anything(): (Rows, Rows) -> bool {
    (a: Rows, b: Rows) => true
  }

  ghost function LostAim(s: Keyring, p: Place, w: World, name: Name, text: string): Aim {
    Aim(p, true, |w.log|, |w.log|, AnyOp(), BookOf(w), LostMet(s, p, w, name, text)(|w.log|), Anything())
  }

  lemma NoneBringsOldSnoc(s: Keyring, p: Place, book: seq<Entry> -> Rows, start: nat, log: seq<Entry>, e: Entry)
    requires start <= |log| && NoneBringsOld(s, p, book, start, log + [e])
    ensures NoneBringsOld(s, p, book, start, log) && (!e.own ==> BringsNoOld(s, p, book(log), e.op))
  {
    var all := log + [e];
    assert forall i :: 0 <= i < |log| ==> all[i] == log[i] && all[..i] == log[..i];
    assert all[..|log|] == log && all[|log|] == e;
  }

  lemma LostAtSnoc(p: Place, book: seq<Entry> -> Rows, name: Name, text: string, log: seq<Entry>, e: Entry, i: nat)
    requires i <= |log| && Has(book(log + [e]), p, name, text) && HasSince(p, book, name, text, log, i)
    ensures HasSince(p, book, name, text, log + [e], i)
    ensures i < |log| ==> LostAt(p, book, log + [e], i) == LostAt(p, book, log, i)
  {
    var all := log + [e];
    assert all[..|all|] == all;
    assert forall j :: 0 <= j <= |log| ==> all[..j] == log[..j];
  }

  lemma LostWithSnoc(p: Place, book: seq<Entry> -> Rows, name: Name, text: string, at: nat, log: seq<Entry>, e: Entry)
    requires Has(book(log + [e]), p, name, text)
    requires || LostWith(p, book, name, text, at, log)
             || (at <= |log| && e.own && e.op.Swap? && AimsAt(p, e.op) && !Hits(book(log), e.op)
               && Has(book(log), p, name, text))
    ensures LostWith(p, book, name, text, at, log + [e])
  {
    var all := log + [e];
    if LostWith(p, book, name, text, at, log) {
      var i: nat :| i >= at && LostAt(p, book, log, i) && HasSince(p, book, name, text, log, i);
      LostAtSnoc(p, book, name, text, log, e, i);
      assert LostAt(p, book, all, i);
    } else {
      assert log[..|log|] == log && all[..|log|] == log;
      assert HasSince(p, book, name, text, log, |log|);
      LostAtSnoc(p, book, name, text, log, e, |log|);
      assert LostAt(p, book, all, |log|);
    }
  }

  /** An own gentle operation brings no old text in either. */
  lemma GentleBringsNoOld(s: Keyring, p: Place, rows: Rows, op: Op, name: Name, text: string)
    requires KindOf(p).Members? && name in KindOf(p).keys && Old(s, text) && Gentle(s, true, p, op)
    ensures Has(Apply(rows, op), p, name, text) ==> Has(rows, p, name, text) && !Strikes(p, rows, op)
  {
    if Strikes(p, rows, op) {
      GentleStrikeCleans(s, true, p, rows, op);
      CleanHasNoOld(s, p, Apply(rows, op), name, text);
    } else {
      MissKeeps(p, rows, op);
    }
  }

  lemma LostKeeps(s: Keyring, p: Place, w: World, name: Name, text: string, k: nat, log: seq<Entry>, e: Entry)
    requires KindOf(p).Members? && name in KindOf(p).keys && Old(s, text)
    requires |log| >= k >= |w.log| && (e.own ==> Gentle(s, true, p, e.op))
    ensures LostMet(s, p, w, name, text)(k)(log) ==> LostMet(s, p, w, name, text)(k)(log + [e])
  {
    var book := BookOf(w);
    BookPosts(w, log, e);
    if LostMet(s, p, w, name, text)(k)(log) && NoneBringsOld(s, p, book, |w.log|, log + [e])
      && Has(book(log + [e]), p, name, text) {
      NoneBringsOldSnoc(s, p, book, |w.log|, log, e);
      if e.own {
        GentleBringsNoOld(s, p, book(log), e.op, name, text);
      }
      LostWithSnoc(p, book, name, text, k, log, e);
    }
  }

  lemma LostAttempt(s: Keyring, p: Place, w: World, name: Name, text: string, k: nat, log: seq<Entry>, e: Entry)
    requires KindOf(p).Members? && name in KindOf(p).keys && Old(s, text)
    requires |log| >= k >= |w.log| && e.own && e.op.Swap? && AimsAt(p, e.op) && Gentle(s, true, p, e.op)
    ensures LostMet(s, p, w, name, text)(k)(log + [e])
  {
    var book := BookOf(w);
    BookPosts(w, log, e);
    if Has(book(log + [e]), p, name, text) {
      GentleBringsNoOld(s, p, book(log), e.op, name, text);
      LostWithSnoc(p, book, name, text, k, log, e);
    }
  }

  lemma LostSound(s: Keyring, p: Place, w: World, name: Name, text: string, k: nat)
    requires KindOf(p).Members? && name in KindOf(p).keys && Old(s, text) && k >= |w.log|
    ensures Sound(s, At(LostAim(s, p, w, name, text), LostMet(s, p, w, name, text), k))
  {
    BookOfBooks(w);
    var a := At(LostAim(s, p, w, name, text), LostMet(s, p, w, name, text), k);
    forall log: seq<Entry> | |log| >= k && CleanAt(s, true, a.rowsAt(log), p) ensures a.met(log) {
      CleanHasNoOld(s, p, BookOf(w)(log), name, text);
    }
    forall log: seq<Entry>, e: Entry | |log| >= k && (if e.own then Gentle(s, true, p, e.op) else a.may(e.op))
      ensures Keeps(a, log, e)
    {
      LostKeeps(s, p, w, name, text, k, log, e);
    }
    forall seen: Rows, log: seq<Entry>, e: Entry | |log| >= k && Attempts(s, a, seen, log, e) ensures a.met(log + [e]) {
      LostAttempt(s, p, w, name, text, k, log, e);
    }
  }

  ghost predicate OldSince(s: Keyring, p: Place, book: seq<Entry> -> Rows, log: seq<Entry>, i: nat) {
    forall j :: i <= j <= |log| ==> !CleanAt(s, true, book(log[..j]), p)
  }

  /** The sweep's own update of the place came too late, and the place has not been at rest from then on. */
  ghost predicate LostForGood(s: Keyring, p: Place, book: seq<Entry> -> Rows, at: nat, log: seq<Entry>) {
    exists i: nat :: i >= at && LostAt(p, book, log, i) && OldSince(s, p, book, log, i)
  }

  ghost predicate LostAfterRead(s: Keyring, p: Place, w: World, end: World, looked: seq<Read>) {
    exists r :: 0 <= r < |looked| && ReadCovers(looked[r], p) && |w.log| <= looked[r].at <= |end.log|
                && LostForGood(s, p, BookOf(w), looked[r].at, end.log)
  }

  lemma LostWithIsForGood(s: Keyring, p: Place, w: World, end: World, looked: seq<Read>, name: Name, text: string)
    requires KindOf(p).Members? && name in KindOf(p).keys && Old(s, text)
    requires NoneBringsOld(s, p, BookOf(w), |w.log|, end.log) && Has(BookOf(w)(end.log), p, name, text)
    requires Followed(LostAim(s, p, w, name, text), LostMet(s, p, w, name, text), |w.log|, end.log, looked)
    ensures LostAfterRead(s, p, w, end, looked)
  {
    var book, log := BookOf(w), end.log;
    var r :| && 0 <= r < |looked| && ReadCovers(looked[r], p) && |w.log| <= looked[r].at <= |log|
             && LostMet(s, p, w, name, text)(looked[r].at)(log);
    var at := looked[r].at;
    assert LostWith(p, book, name, text, at, log);
    var i: nat :| i >= at && LostAt(p, book, log, i) && HasSince(p, book, name, text, log, i);
    HasIsOld(s, p, book, name, text, log, i);
    assert LostForGood(s, p, book, at, log);
  }

  lemma HasIsOld(s: Keyring, p: Place, book: seq<Entry> -> Rows, name: Name, text: string, log: seq<Entry>, i: nat)
    requires KindOf(p).Members? && name in KindOf(p).keys && Old(s, text) && HasSince(p, book, name, text, log, i)
    ensures OldSince(s, p, book, log, i)
  {
    forall j | i <= j <= |log| ensures !CleanAt(s, true, book(log[..j]), p) {
      if CleanAt(s, true, book(log[..j]), p) {
        CleanHasNoOld(s, p, book(log[..j]), name, text);
      }
    }
  }

  lemma LostForGoodIsOld(s: Keyring, p: Place, w: World, end: World, looked: seq<Read>)
    requires LostAfterRead(s, p, w, end, looked) && BookOf(w)(end.log) == end.rows
    ensures !CleanAt(s, true, end.rows, p)
  {
    assert end.log[..|end.log|] == end.log;
  }

  /**
   * When no other session brings an older-version envelope into a JSON row, a
   * completed session without failures leaves one there exactly when its own
   * update of the row, made after its read, lost to a writer while the row
   * held one, and nothing has cleaned the row since.
   */
  lemma JsonRowFailsExactly(s: Keyring, p: Place, w: World, limits: seq<nat>, x: (World, Result), looked: seq<Read>)
    requires Lawful(s) && KindOf(p).Members?
    requires forall i :: 0 <= i < |limits| ==> limits[i] > 0
    requires x == Session(s, w, START, limits, EMPTY_SUMMARY) && x.1.completed && x.1.sum.failed == 0
    requires looked == SessionReads(s, w, START, limits) && NoneBringsOld(s, p, BookOf(w), |w.log|, x.0.log)
    ensures !CleanAt(s, true, x.0.rows, p) <==> LostAfterRead(s, p, w, x.0, looked)
    ensures CoversOnce(looked, p)
  {
    BookStarts(w);
    EachPlaceReadOnce(s, w, START, limits, p);
    SessionOnBook(s, p, w, limits, x);
    if !CleanAt(s, true, x.0.rows, p) {
      var name, text := OldMember(s, p, x.0.rows);
      var a, mets := LostAim(s, p, w, name, text), LostMet(s, p, w, name, text);
      forall k: nat | k >= a.start ensures Sound(s, At(a, mets, k)) {
        LostSound(s, p, w, name, text, k);
      }
      SessionFollows(s, a, mets, w, limits, x, looked);
      LostWithIsForGood(s, p, w, x.0, looked, name, text);
    }
    if LostAfterRead(s, p, w, x.0, looked) {
      LostForGoodIsOld(s, p, w, x.0, looked);
    }
  }

  lemma SessionOnBook(s: Keyring, p: Place, w: World, limits: seq<nat>, x: (World, Result))
    requires Lawful(s) && KindOf(p) != Nothing && forall i :: 0 <= i < |limits| ==> limits[i] > 0
    requires x == Session(s, w, START, limits, EMPTY_SUMMARY)
    ensures BookOf(w)(x.0.log) == x.0.rows
  {
    var a, mets := LastWordAim(s, p, w), LastWordMet(s, p, w);
    forall k: nat | k >= a.start ensures Sound(s, At(a, mets, k)) {
      LastWordSound(s, p, w, k);
    }
    BookStarts(w);
    SessionFollows(s, a, mets, w, limits, x, SessionReads(s, w, START, limits));
  }
}
