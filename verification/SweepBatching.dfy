/**
 * On a quiet database the budget is invisible: however a sweep is cut into
 * calls, it visits the same rows in the same order and leaves the same data
 * and counts as one call over everything, in a predictable number of calls.
 */
module SweepBatching {
  import opened Strings
  import opened Envelopes
  import opened SweepModel
  import opened SweepInduction

  // ---------------------------------------------------------------- counts only ever add up

  /** Starting from counts `a` more, a step does the same and ends with `a` more. */
  predicate Shifts(a: Summary, x: (World, Summary), y: (World, Summary)) {
    y.0 == x.0 && y.1 == a.Plus(x.1)
  }

  lemma BlobShifts(s: Keyring, w: World, a: Summary, b: Summary, blob: string, t: Target, allowDaemon: bool)
    ensures Shifts(a, ProcessBlob(s, w, b, blob, t, allowDaemon), ProcessBlob(s, w, a.Plus(b), blob, t, allowDaemon))
  {
  }

  lemma {:induction false} KeysShift(s: Keyring, p: Progress, a: Summary, keys: seq<Name>)
    ensures var q := ResealKeys(s, p, keys);
            ResealKeys(s, p.(sum := a.Plus(p.sum)), keys) == q.(sum := a.Plus(q.sum))
    decreases |keys|
  {
    if keys != [] {
      var p1 := ResealKey(s, p, keys[0]);
      assert ResealKey(s, p.(sum := a.Plus(p.sum)), keys[0]) == p1.(sum := a.Plus(p1.sum));
      KeysShift(s, p1, a, keys[1..]);
    }
  }

  lemma KeyedShifts(s: Keyring, w: World, a: Summary, b: Summary, key: Key, v: Value, keys: seq<Name>)
    ensures Shifts(a, ProcessKeyed(s, w, b, key, v, keys), ProcessKeyed(s, w, a.Plus(b), key, v, keys))
  {
    if v.Object? {
      KeysShift(s, Progress(v.members, 0, w.drawn, b), a, keys);
    }
  }

  lemma CellShifts(s: Keyring, w: World, a: Summary, b: Summary, key: Key, column: Column, v: Value, allowDaemon: bool)
    ensures Shifts(a, ProcessCell(s, w, b, key, column, v, allowDaemon),
                   ProcessCell(s, w, a.Plus(b), key, column, v, allowDaemon))
  {
    if v.Text? {
      BlobShifts(s, w, a, b, v.text, Target.Cell(key, column), allowDaemon);
    }
  }

  lemma RowShifts(s: Keyring, w: World, a: Summary, b: Summary, stage: TableStage, id: Id, row: Row)
    ensures Shifts(a, ProcessRow(s, w, b, stage, id, row), ProcessRow(s, w, a.Plus(b), stage, id, row))
  {
    var key := Key(stage, id);
    var w1 := w.(visits := w.visits + [key]);
    match ShapeOf(stage)
    case Single(allowDaemon) => CellShifts(s, w1, a, b, key, Main, row.main, allowDaemon);
    case Keyed(keys) => KeyedShifts(s, w1, a, b, key, row.main, keys);
    case Channel =>
      CellShifts(s, w1, a, b, key, Main, row.main, false);
      var x := if row.marked then ProcessCell(s, w1, b, key, Main, row.main, false) else (w1, b);
      CellShifts(s, x.0, a, x.1, key, Side, row.side, false);
  }

  lemma {:induction false} RowsShift(s: Keyring, w: World, a: Summary, b: Summary, stage: TableStage, page: seq<Listed>)
    ensures Shifts(a, ProcessRows(s, w, b, stage, page), ProcessRows(s, w, a.Plus(b), stage, page))
    decreases |page|
  {
    if page != [] {
      RowShifts(s, w, a, b, stage, page[0].id, page[0].row);
      var x := ProcessRow(s, w, b, stage, page[0].id, page[0].row);
      RowsShift(s, x.0, a, x.1, stage, page[1..]);
    }
  }

  lemma SealedShifts(s: Keyring, w: World, a: Summary, b: Summary, key: Key)
    ensures Shifts(a, SweepSealedSetting(s, w, b, key), SweepSealedSetting(s, w, a.Plus(b), key))
  {
    var w1 := Interfere(w);
    var v := SettingValue(w1.rows, key);
    if HasSealed(v) {
      BlobShifts(s, w1, a, b, v.members[SealedMember].text, Sealed(key, v.members), false);
    }
  }

  lemma SettingsShift(s: Keyring, w: World, a: Summary, b: Summary, stage: Stage)
    requires stage >= TABLE_STAGES
    ensures Shifts(a, SweepSettings(s, w, b, stage), SweepSettings(s, w, a.Plus(b), stage))
  {
    var w1 := Interfere(w);
    if stage == 15 {
      KeyedShifts(s, w1, a, b, AuthProviders, SettingValue(w1.rows, AuthProviders), AUTH_PROVIDER_KEYS);
    } else if stage == 16 {
      KeyedShifts(s, w1, a, b, Email, SettingValue(w1.rows, Email), EMAIL_KEYS);
    } else if stage == 17 {
      CellShifts(s, w1, a, b, AlertWebhook, Main, SettingValue(w1.rows, AlertWebhook), false);
    } else {
      SealedShifts(s, w, a, b, PanelIdentity);
      var x := SweepSealedSetting(s, w, b, PanelIdentity);
      SealedShifts(s, x.0, a, x.1, AcmeAccount);
    }
  }

  // ---------------------------------------------------------------- what a quiet step may touch

  predicate SameShape(a: Row, b: Row) {
    a.marked == b.marked && (a.main == Null <==> b.main == Null)
  }

  predicate SameShapes(a: Rows, b: Rows) {
    a.Keys == b.Keys && forall k :: k in a ==> SameShape(a[k], b[k])
  }

  /** Quiet before and after, and at most the row at `key` was rewritten. */
  predicate Local(w: World, w2: World, key: Key) {
    && w2.pending == []
    && SameShapes(w.rows, w2.rows)
    && (forall k :: k in w.rows && k != key ==> w2.rows[k] == w.rows[k])
  }

  lemma BlobLocal(s: Keyring, w: World, sum: Summary, blob: string, t: Target, allowDaemon: bool)
    requires w.pending == []
    ensures Local(w, ProcessBlob(s, w, sum, blob, t, allowDaemon).0, t.key)
    ensures ProcessBlob(s, w, sum, blob, t, allowDaemon).0.visits == w.visits
  {
  }

  lemma KeyedLocal(s: Keyring, w: World, sum: Summary, key: Key, v: Value, keys: seq<Name>)
    requires w.pending == []
    ensures Local(w, ProcessKeyed(s, w, sum, key, v, keys).0, key)
    ensures ProcessKeyed(s, w, sum, key, v, keys).0.visits == w.visits
  {
  }

  lemma CellLocal(s: Keyring, w: World, sum: Summary, key: Key, column: Column, v: Value, allowDaemon: bool)
    requires w.pending == []
    ensures Local(w, ProcessCell(s, w, sum, key, column, v, allowDaemon).0, key)
    ensures ProcessCell(s, w, sum, key, column, v, allowDaemon).0.visits == w.visits
  {
    if v.Text? {
      BlobLocal(s, w, sum, v.text, Target.Cell(key, column), allowDaemon);
    }
  }

  lemma RowLocal(s: Keyring, w: World, sum: Summary, stage: TableStage, id: Id, row: Row)
    requires w.pending == []
    ensures Local(w, ProcessRow(s, w, sum, stage, id, row).0, Key(stage, id))
    ensures ProcessRow(s, w, sum, stage, id, row).0.visits == w.visits + [Key(stage, id)]
  {
    var key := Key(stage, id);
    var w1 := w.(visits := w.visits + [key]);
    match ShapeOf(stage)
    case Single(allowDaemon) => CellLocal(s, w1, sum, key, Main, row.main, allowDaemon);
    case Keyed(keys) => KeyedLocal(s, w1, sum, key, row.main, keys);
    case Channel =>
      CellLocal(s, w1, sum, key, Main, row.main, false);
      var x := if row.marked then ProcessCell(s, w1, sum, key, Main, row.main, false) else (w1, sum);
      CellLocal(s, x.0, x.1, key, Side, row.side, false);
  }

  function KeysOf(stage: TableStage, ids: seq<Id>): seq<Key> {
    seq(|ids|, i requires 0 <= i < |ids| => Key(stage, ids[i]))
  }

  function IdsOf(page: seq<Listed>): seq<Id> {
    seq(|page|, i requires 0 <= i < |page| => page[i].id)
  }

  lemma {:induction false} RowsLocal(s: Keyring, w: World, sum: Summary, stage: TableStage, page: seq<Listed>)
    requires w.pending == []
    ensures var w2 := ProcessRows(s, w, sum, stage, page).0;
            && w2.pending == [] && SameShapes(w.rows, w2.rows)
            && (forall k :: k in w.rows && k !in KeysOf(stage, IdsOf(page)) ==> w2.rows[k] == w.rows[k])
            && w2.visits == w.visits + KeysOf(stage, IdsOf(page))
    decreases |page|
  {
    if page != [] {
      RowLocal(s, w, sum, stage, page[0].id, page[0].row);
      var x := ProcessRow(s, w, sum, stage, page[0].id, page[0].row);
      RowsLocal(s, x.0, x.1, stage, page[1..]);
      assert KeysOf(stage, IdsOf(page)) == [Key(stage, page[0].id)] + KeysOf(stage, IdsOf(page[1..]));
    }
  }

  lemma SealedLocal(s: Keyring, w: World, sum: Summary, key: Key)
    requires w.pending == []
    ensures Local(w, SweepSealedSetting(s, w, sum, key).0, key)
    ensures SweepSealedSetting(s, w, sum, key).0.visits == w.visits
  {
    var v := SettingValue(w.rows, key);
    if HasSealed(v) {
      BlobLocal(s, w, sum, v.members[SealedMember].text, Sealed(key, v.members), false);
    }
  }

  lemma SettingsLocal(s: Keyring, w: World, sum: Summary, stage: Stage)
    requires w.pending == [] && stage >= TABLE_STAGES
    ensures var w2 := SweepSettings(s, w, sum, stage).0;
            w2.pending == [] && SameShapes(w.rows, w2.rows) && w2.visits == w.visits
  {
    if stage == 15 {
      KeyedLocal(s, w, sum, AuthProviders, SettingValue(w.rows, AuthProviders), AUTH_PROVIDER_KEYS);
    } else if stage == 16 {
      KeyedLocal(s, w, sum, Email, SettingValue(w.rows, Email), EMAIL_KEYS);
    } else if stage == 17 {
      CellLocal(s, w, sum, AlertWebhook, Main, SettingValue(w.rows, AlertWebhook), false);
    } else {
      SealedLocal(s, w, sum, PanelIdentity);
      var x := SweepSealedSetting(s, w, sum, PanelIdentity);
      SealedLocal(s, x.0, x.1, AcmeAccount);
    }
  }

  // ---------------------------------------------------------------- pages of one listing

  predicate Sorted(ids: seq<Id>) {
    forall i, j :: 0 <= i < j < |ids| ==> Less(ids[i], ids[j])
  }

  function SetOf(ids: seq<Id>): set<Id> {
    set i | 0 <= i < |ids| :: ids[i]
  }

  /** A sorted list is the ascending order of its elements. */
  lemma {:induction false} SortedIsAscending(ids: seq<Id>)
    requires Sorted(ids)
    ensures Ascending(SetOf(ids)) == ids
  {
    if ids != [] {
      var all := SetOf(ids);
      assert ids[0] in all;
      forall x | x in all ensures x == ids[0] || Less(ids[0], x) { }
      LeastUnique(all, ids[0], Least(all));
      forall x | x in SetOf(ids[1..]) ensures x in all - {ids[0]} {
        var i :| 0 <= i < |ids[1..]| && ids[1..][i] == x;
        assert x == ids[i + 1];
        LessIrreflexive(ids[0]);
      }
      forall x | x in all - {ids[0]} ensures x in SetOf(ids[1..]) {
        var i :| 0 <= i < |ids| && ids[i] == x;
        assert x == ids[1..][i - 1];
      }
      assert SetOf(ids[1..]) == all - {ids[0]};
      SortedIsAscending(ids[1..]);
    }
  }

  /** The ids a stage still has to visit. */
  function Pending(rows: Rows, stage: TableStage, after: Option<string>): seq<Id> {
    Ascending(Candidates(rows, stage, after))
  }

  lemma PendingFacts(rows: Rows, stage: TableStage, after: Option<string>)
    ensures var ids := Pending(rows, stage, after);
            && Sorted(ids)
            && (forall x: Id :: x in ids <==> x in Candidates(rows, stage, after))
            && (forall i :: 0 <= i < |ids| ==> Key(stage, ids[i]) in rows)
  {
    AscendingHas(Candidates(rows, stage, after));
    AscendingSorted(Candidates(rows, stage, after));
    var ids := Pending(rows, stage, after);
    forall i | 0 <= i < |ids| ensures Key(stage, ids[i]) in rows {
      assert ids[i] in Candidates(rows, stage, after);
    }
  }

  lemma PendingSameShapes(a: Rows, b: Rows, stage: TableStage, after: Option<string>)
    requires SameShapes(a, b)
    ensures Pending(a, stage, after) == Pending(b, stage, after)
  {
    assert Candidates(a, stage, after) == Candidates(b, stage, after);
  }

  /** Resuming after the n-th id leaves exactly the ids after it. */
  lemma PendingResumes(rows: Rows, stage: TableStage, after: Option<string>, n: nat)
    requires 0 < n <= |Pending(rows, stage, after)|
    ensures var ids := Pending(rows, stage, after);
            Pending(rows, stage, Some(ids[n - 1])) == ids[n..]
  {
    var ids := Pending(rows, stage, after);
    PendingFacts(rows, stage, after);
    var last: string := ids[n - 1];
    var c := Candidates(rows, stage, Some(last));
    forall x: Id | x in c ensures x in SetOf(ids[n..]) {
      if after.Some? {
        assert ids[n - 1] in Candidates(rows, stage, after);
        LessTransitive(after.value, last, x);
      }
      assert x in ids;
      var i :| 0 <= i < |ids| && ids[i] == x;
      if i < n - 1 {
        LessAsymmetric(ids[i], last);
      } else if i == n - 1 {
        LessIrreflexive(last);
      }
      assert x == ids[n..][i - n];
    }
    forall x: Id | x in SetOf(ids[n..]) ensures x in c {
      var i :| 0 <= i < |ids[n..]| && ids[n..][i] == x;
      assert x == ids[n + i];
      assert x in Candidates(rows, stage, after);
    }
    assert c == SetOf(ids[n..]);
    assert Sorted(ids[n..]);
    SortedIsAscending(ids[n..]);
  }

  /** All rows a stage still has to visit, as read now. */
  function Listing(rows: Rows, stage: TableStage, after: Option<string>): seq<Listed> {
    PendingFacts(rows, stage, after);
    List(rows, stage, Pending(rows, stage, after))
  }

  lemma PageIsPrefix(rows: Rows, stage: TableStage, after: Option<string>, limit: nat)
    ensures Page(rows, stage, after, limit) == Take(Listing(rows, stage, after), limit)
  {
  }

  lemma ListingIds(rows: Rows, stage: TableStage, after: Option<string>)
    ensures IdsOf(Listing(rows, stage, after)) == Pending(rows, stage, after)
  {
  }

  /** After the first n rows have been processed, the listing from there on is the rest of the old one. */
  lemma ListingResumes(rows: Rows, rows2: Rows, stage: TableStage, after: Option<string>, n: nat)
    requires 0 < n <= |Listing(rows, stage, after)| && SameShapes(rows, rows2)
    requires forall k :: k in rows && k !in KeysOf(stage, IdsOf(Listing(rows, stage, after)[..n])) ==>
               rows2[k] == rows[k]
    ensures var all := Listing(rows, stage, after);
            Listing(rows2, stage, Some(all[n - 1].id)) == all[n..]
  {
    var all := Listing(rows, stage, after);
    var ids := Pending(rows, stage, after);
    PendingFacts(rows, stage, after);
    PendingResumes(rows, stage, after, n);
    PendingSameShapes(rows, rows2, stage, Some(all[n - 1].id));
    forall i | n <= i < |ids| ensures rows2[Key(stage, ids[i])] == rows[Key(stage, ids[i])] {
      var front := KeysOf(stage, IdsOf(all[..n]));
      forall j | 0 <= j < |front| ensures front[j] != Key(stage, ids[i]) {
        assert Less(ids[j], ids[i]);
        LessIrreflexive(ids[i]);
      }
    }
  }

  lemma {:induction false} ProcessAppended(s: Keyring, w: World, sum: Summary, stage: TableStage, a: seq<Listed>,
                                           b: seq<Listed>)
    ensures var x := ProcessRows(s, w, sum, stage, a);
            ProcessRows(s, w, sum, stage, a + b) == ProcessRows(s, x.0, x.1, stage, b)
    decreases |a|
  {
    if a == [] {
      assert a + b == b;
    } else {
      var x := ProcessRow(s, w, sum, stage, a[0].id, a[0].row);
      ProcessAppended(s, x.0, x.1, stage, a[1..], b);
      assert (a + b)[1..] == a[1..] + b;
    }
  }

  // ---------------------------------------------------------------- everything from a cursor on

  /** The table rows still to visit, in order. */
  function Route(rows: Rows, cursor: Cursor): seq<Key>
    decreases STAGE_COUNT - cursor.stage
  {
    if cursor.stage >= TABLE_STAGES then []
    else KeysOf(cursor.stage, Pending(rows, cursor.stage, cursor.afterId)) + Route(rows, Cursor(cursor.stage + 1, None))
  }

  /** The sweep without a budget: each stage in one page. */
  function Tail(s: Keyring, w: World, cursor: Cursor, sum: Summary): (World, Summary)
    decreases STAGE_COUNT - cursor.stage
  {
    var x := StageWork(s, w, cursor, sum);
    if cursor.stage == STAGE_COUNT - 1 then x else Tail(s, x.0, Cursor(cursor.stage + 1, None), x.1)
  }

  /** The rest of one stage, without a budget. */
  function StageWork(s: Keyring, w: World, cursor: Cursor, sum: Summary): (World, Summary) {
    if cursor.stage >= TABLE_STAGES then SweepSettings(s, w, sum, cursor.stage)
    else ProcessRows(s, w, sum, cursor.stage, Listing(w.rows, cursor.stage, cursor.afterId))
  }

  lemma RouteStep(rows: Rows, cursor: Cursor, ids: seq<Id>, rest: seq<Key>)
    requires cursor.stage < TABLE_STAGES && ids == Pending(rows, cursor.stage, cursor.afterId)
    requires rest == Route(rows, Cursor(cursor.stage + 1, None))
    ensures Route(rows, cursor) == KeysOf(cursor.stage, ids) + rest
  {
  }

  lemma {:induction false} RouteSameShapes(a: Rows, b: Rows, cursor: Cursor)
    requires SameShapes(a, b)
    ensures Route(a, cursor) == Route(b, cursor)
    decreases STAGE_COUNT - cursor.stage
  {
    if cursor.stage < TABLE_STAGES {
      var ids, rest := Pending(a, cursor.stage, cursor.afterId), Route(a, Cursor(cursor.stage + 1, None));
      PendingSameShapes(a, b, cursor.stage, cursor.afterId);
      RouteSameShapes(a, b, Cursor(cursor.stage + 1, None));
      RouteStep(a, cursor, ids, rest);
      RouteStep(b, cursor, ids, rest);
    }
  }

  lemma WorkShifts(s: Keyring, w: World, cursor: Cursor, a: Summary, b: Summary)
    ensures Shifts(a, StageWork(s, w, cursor, b), StageWork(s, w, cursor, a.Plus(b)))
  {
    if cursor.stage >= TABLE_STAGES {
      SettingsShift(s, w, a, b, cursor.stage);
    } else {
      RowsShift(s, w, a, b, cursor.stage, Listing(w.rows, cursor.stage, cursor.afterId));
    }
  }

  lemma TailStep(s: Keyring, w: World, cursor: Cursor, sum: Summary, x: (World, Summary))
    requires x == StageWork(s, w, cursor, sum)
    ensures Tail(s, w, cursor, sum) == if cursor.stage == STAGE_COUNT - 1 then x
      else Tail(s, x.0, Cursor(cursor.stage + 1, None), x.1)
  {
  }

  lemma {:induction false} TailShifts(s: Keyring, w: World, cursor: Cursor, a: Summary, b: Summary)
    ensures Shifts(a, Tail(s, w, cursor, b), Tail(s, w, cursor, a.Plus(b)))
    decreases STAGE_COUNT - cursor.stage
  {
    var x, y := StageWork(s, w, cursor, b), StageWork(s, w, cursor, a.Plus(b));
    WorkShifts(s, w, cursor, a, b);
    TailStep(s, w, cursor, b, x);
    TailStep(s, w, cursor, a.Plus(b), y);
    if cursor.stage != STAGE_COUNT - 1 {
      TailShifts(s, x.0, Cursor(cursor.stage + 1, None), a, x.1);
    }
  }

  /** The rows ahead of a cursor, and what the sweep without a budget does from there, as values. */
  datatype Track = Track(route: (Rows, Cursor) -> seq<Key>, tail: (World, Cursor, Summary) -> (World, Summary))

  function TrackOf(s: Keyring): Track {
    Track((rows: Rows, c: Cursor) => Route(rows, c), (w: World, c: Cursor, sum: Summary) => Tail(s, w, c, sum))
  }

  /**
   * From `(w, cursor, sum)` to `(w2, next, sum2)` the sweep covered the first
   * `n` rows of its route, and what is left to do is what was left to do.
   */
  ghost predicate Covers(t: Track, w: World, cursor: Cursor, sum: Summary, n: nat, w2: World, next: Cursor,
                         sum2: Summary) {
    && w2.pending == []
    && n <= |t.route(w.rows, cursor)|
    && w2.visits == w.visits + t.route(w.rows, cursor)[..n]
    && t.route(w2.rows, next) == t.route(w.rows, cursor)[n..]
    && t.tail(w2, next, sum2) == t.tail(w, cursor, sum)
  }

  /** Two stretches of a route, one after the other. */
  lemma Stretches(route: seq<Key>, n: nat, m: nat, v0: seq<Key>, v1: seq<Key>, v2: seq<Key>)
    requires n + m <= |route| && v1 == v0 + route[..n] && v2 == v1 + route[n..][..m]
    ensures v2 == v0 + route[..n + m] && route[n..][m..] == route[n + m..]
  {
    assert route[..n] + route[n..][..m] == route[..n + m];
  }

  lemma CoversTransitive(t: Track, w: World, cursor: Cursor, sum: Summary, n: nat, w1: World, mid: Cursor,
                         sum1: Summary,
                         m: nat, w2: World, next: Cursor, sum2: Summary)
    requires Covers(t, w, cursor, sum, n, w1, mid, sum1) && Covers(t, w1, mid, sum1, m, w2, next, sum2)
    ensures Covers(t, w, cursor, sum, n + m, w2, next, sum2)
  {
    Stretches(t.route(w.rows, cursor), n, m, w.visits, w1.visits, w2.visits);
  }

  /** A short page: the whole stage is covered. */
  lemma ShortPageCovers(s: Keyring, w: World, cursor: Cursor, sum: Summary)
    requires w.pending == [] && cursor.stage < TABLE_STAGES
    ensures var page := Listing(w.rows, cursor.stage, cursor.afterId);
            var x := ProcessRows(s, w, sum, cursor.stage, page);
            Covers(TrackOf(s), w, cursor, sum, |page|, x.0, Cursor(cursor.stage + 1, None), x.1)
  {
    var page := Listing(w.rows, cursor.stage, cursor.afterId);
    var x := ProcessRows(s, w, sum, cursor.stage, page);
    RowsLocal(s, w, sum, cursor.stage, page);
    ListingIds(w.rows, cursor.stage, cursor.afterId);
    RouteSameShapes(w.rows, x.0.rows, Cursor(cursor.stage + 1, None));
    var keys := KeysOf(cursor.stage, IdsOf(page));
    assert Route(w.rows, cursor)[..|page|] == keys;
    assert Route(w.rows, cursor)[|page|..] == Route(w.rows, Cursor(cursor.stage + 1, None));
  }

  /** A full page: its rows are covered and the cursor moves to the last of them. */
  lemma FullPageCovers(s: Keyring, w: World, cursor: Cursor, sum: Summary, n: nat, all: seq<Listed>,
                       x: (World, Summary), next: Cursor)
    requires w.pending == [] && cursor.stage < TABLE_STAGES && all == Listing(w.rows, cursor.stage, cursor.afterId)
    requires 0 < n <= |all|
    requires x == ProcessRows(s, w, sum, cursor.stage, all[..n]) && next == Cursor(cursor.stage, Some(all[n - 1].id))
    ensures Covers(TrackOf(s), w, cursor, sum, n, x.0, next, x.1)
  {
    RowsLocal(s, w, sum, cursor.stage, all[..n]);
    FullPageRest(s, w, cursor, sum, n, all, x, next);
    FullPageVisits(w.rows, x.0.rows, cursor, n, all, next);
    CoversOf(s, w, cursor, sum, n, x, next, KeysOf(cursor.stage, IdsOf(all[..n])));
  }

  lemma CoversOf(s: Keyring, w: World, cursor: Cursor, sum: Summary, n: nat, x: (World, Summary), next: Cursor,
                 keys: seq<Key>)
    requires x.0.pending == [] && x.0.visits == w.visits + keys && Tail(s, x.0, next, x.1) == Tail(s, w, cursor, sum)
    requires n <= |Route(w.rows, cursor)| && Route(w.rows, cursor)[..n] == keys
    requires Route(x.0.rows, next) == Route(w.rows, cursor)[n..]
    ensures Covers(TrackOf(s), w, cursor, sum, n, x.0, next, x.1)
  {
  }

  lemma FullPageRest(s: Keyring, w: World, cursor: Cursor, sum: Summary, n: nat, all: seq<Listed>, x: (World, Summary),
                     next: Cursor)
    requires w.pending == [] && cursor.stage < TABLE_STAGES && all == Listing(w.rows, cursor.stage, cursor.afterId)
    requires 0 < n <= |all|
    requires x == ProcessRows(s, w, sum, cursor.stage, all[..n]) && next == Cursor(cursor.stage, Some(all[n - 1].id))
    requires SameShapes(w.rows, x.0.rows)
    requires forall k :: k in w.rows && k !in KeysOf(cursor.stage, IdsOf(all[..n])) ==> x.0.rows[k] == w.rows[k]
    ensures Tail(s, x.0, next, x.1) == Tail(s, w, cursor, sum)
  {
    ListingResumes(w.rows, x.0.rows, cursor.stage, cursor.afterId, n);
    ProcessAppended(s, w, sum, cursor.stage, all[..n], all[n..]);
    assert all[..n] + all[n..] == all;
    FullPageTail(s, w, cursor, sum, x, next, all[n..]);
  }

  lemma FullPageVisits(rows: Rows, rows2: Rows, cursor: Cursor, n: nat, all: seq<Listed>, next: Cursor)
    requires cursor.stage < TABLE_STAGES && SameShapes(rows, rows2)
    requires all == Listing(rows, cursor.stage, cursor.afterId) && 0 < n <= |all|
    requires next == Cursor(cursor.stage, Some(all[n - 1].id))
    ensures n <= |Route(rows, cursor)| && Route(rows, cursor)[..n] == KeysOf(cursor.stage, IdsOf(all[..n]))
    ensures Route(rows2, next) == Route(rows, cursor)[n..]
  {
    ListingIds(rows, cursor.stage, cursor.afterId);
    FullPageRoute(rows, rows2, cursor, n, IdsOf(all));
    assert IdsOf(all[..n]) == IdsOf(all)[..n];
    assert KeysOf(cursor.stage, IdsOf(all)[..n]) == KeysOf(cursor.stage, IdsOf(all))[..n];
  }

  /** What is left to do after a part of a stage is the rest of the stage and what follows. */
  lemma FullPageTail(s: Keyring, w: World, cursor: Cursor, sum: Summary, x: (World, Summary), next: Cursor,
                     rest: seq<Listed>)
    requires cursor.stage < TABLE_STAGES && next.stage == cursor.stage
    requires Listing(x.0.rows, next.stage, next.afterId) == rest
    requires ProcessRows(s, x.0, x.1, cursor.stage, rest)
                == ProcessRows(s, w, sum, cursor.stage, Listing(w.rows, cursor.stage, cursor.afterId))
    ensures Tail(s, x.0, next, x.1) == Tail(s, w, cursor, sum)
  {
  }

  lemma FullPageRoute(rows: Rows, rows2: Rows, cursor: Cursor, n: nat, ids: seq<Id>)
    requires cursor.stage < TABLE_STAGES && SameShapes(rows, rows2)
    requires ids == Pending(rows, cursor.stage, cursor.afterId) && 0 < n <= |ids|
    ensures n <= |Route(rows, cursor)|
    ensures Route(rows, cursor)[..n] == KeysOf(cursor.stage, ids)[..n]
    ensures Route(rows2, Cursor(cursor.stage, Some(ids[n - 1]))) == Route(rows, cursor)[n..]
  {
    var rest := Route(rows, Cursor(cursor.stage + 1, None));
    RouteSameShapes(rows, rows2, Cursor(cursor.stage + 1, None));
    RouteStep(rows, cursor, ids, rest);
    PendingAfterPage(rows, rows2, cursor.stage, cursor.afterId, n, ids);
    RouteStep(rows2, Cursor(cursor.stage, Some(ids[n - 1])), ids[n..], rest);
    CutRoute(cursor.stage, ids, rest, n, Route(rows, cursor), Route(rows2, Cursor(cursor.stage, Some(ids[n - 1]))));
  }

  lemma PendingAfterPage(rows: Rows, rows2: Rows, stage: TableStage, after: Option<string>, n: nat, ids: seq<Id>)
    requires SameShapes(rows, rows2) && ids == Pending(rows, stage, after) && 0 < n <= |ids|
    ensures Pending(rows2, stage, Some(ids[n - 1])) == ids[n..]
  {
    PendingResumes(rows, stage, after, n);
    PendingSameShapes(rows, rows2, stage, Some(ids[n - 1]));
  }

  lemma CutRoute(stage: TableStage, ids: seq<Id>, rest: seq<Key>, n: nat, route: seq<Key>, route2: seq<Key>)
    requires n <= |ids| && route == KeysOf(stage, ids) + rest && route2 == KeysOf(stage, ids[n..]) + rest
    ensures n <= |route| && route[..n] == KeysOf(stage, ids)[..n] && route2 == route[n..]
  {
  }

  // ---------------------------------------------------------------- calls

  /** Where an outcome leaves the sweep, if anywhere. */
  function Position(outcome: BatchOutcome): Option<Cursor> {
    match outcome
    case Continue(next, _) => Some(next)
    case Done(r) => r.cursor
  }

  /** A stage left the sweep at a position, having covered the rows examined, or brought it to its end. */
  ghost predicate Leaves(t: Track, w: World, cursor: Cursor, remaining: nat, sum: Summary,
                         b: (World, nat, BatchOutcome)) {
    && (Position(b.2).Some? ==> Covers(t, w, cursor, sum, b.1, b.0, Position(b.2).value, SumOf(b.2)))
    && (Position(b.2).None? ==> t.route(w.rows, cursor) == [] && Completes(t, w, cursor, sum, b.0, SumOf(b.2))
                                && b.2.Done? && b.2.result.completed)
    && (b.2.Done? && Position(b.2).Some? ==> b.1 == remaining && !b.2.result.completed)
  }

  /** From `(w, cursor, sum)` the sweep ran to its end, at `(w2, sum2)`. */
  ghost predicate Completes(t: Track, w: World, cursor: Cursor, sum: Summary, w2: World, sum2: Summary) {
    && w2.pending == []
    && t.tail(w, cursor, sum) == (w2, sum2)
    && w2.visits == w.visits + t.route(w.rows, cursor)
  }

  lemma StageCovers(s: Keyring, w: World, cursor: Cursor, remaining: nat, sum: Summary)
    requires w.pending == [] && remaining > 0
    ensures Leaves(TrackOf(s), w, cursor, remaining, sum, RunStage(s, w, cursor, remaining, sum))
  {
    if cursor.stage >= TABLE_STAGES {
      SettingsStageCovers(s, w, cursor, remaining, sum, SweepSettings(s, w, sum, cursor.stage));
    } else {
      var page := Page(w.rows, cursor.stage, cursor.afterId, remaining);
      TableStageCovers(s, w, cursor, remaining, sum, page, ProcessRows(s, w, sum, cursor.stage, page));
    }
  }

  lemma SettingsTail(s: Keyring, w: World, cursor: Cursor, sum: Summary, x: (World, Summary))
    requires cursor.stage >= TABLE_STAGES && x == SweepSettings(s, w, sum, cursor.stage)
    ensures TrackOf(s).route(w.rows, cursor) == []
    ensures cursor.stage == STAGE_COUNT - 1 ==> TrackOf(s).tail(w, cursor, sum) == x
    ensures cursor.stage < STAGE_COUNT - 1 ==>
              && TrackOf(s).tail(w, cursor, sum) == TrackOf(s).tail(x.0, Cursor(cursor.stage + 1, None), x.1)
              && TrackOf(s).route(x.0.rows, Cursor(cursor.stage + 1, None)) == []
  {
    TailStep(s, w, cursor, sum, x);
  }

  lemma SettingsStageCovers(s: Keyring, w: World, cursor: Cursor, remaining: nat, sum: Summary, x: (World, Summary))
    requires w.pending == [] && remaining > 0 && cursor.stage >= TABLE_STAGES
    requires x == SweepSettings(s, w, sum, cursor.stage)
    ensures Leaves(TrackOf(s), w, cursor, remaining, sum, RunStage(s, w, cursor, remaining, sum))
  {
    SettingsLocal(s, w, sum, cursor.stage);
    SettingsTail(s, w, cursor, sum, x);
    SettingsLeave(TrackOf(s), w, cursor, remaining, sum, x);
  }

  lemma SettingsLeave(t: Track, w: World, cursor: Cursor, remaining: nat, sum: Summary, x: (World, Summary))
    requires cursor.stage >= TABLE_STAGES && x.0.pending == [] && x.0.visits == w.visits
    requires t.route(w.rows, cursor) == []
    requires cursor.stage == STAGE_COUNT - 1 ==> t.tail(w, cursor, sum) == x
    requires cursor.stage < STAGE_COUNT - 1 ==>
               && t.tail(w, cursor, sum) == t.tail(x.0, Cursor(cursor.stage + 1, None), x.1)
               && t.route(x.0.rows, Cursor(cursor.stage + 1, None)) == []
    ensures var outcome := if cursor.stage == STAGE_COUNT - 1 then Done(Result(x.1, true, None))
                           else Continue(Cursor(cursor.stage + 1, None), x.1);
            Leaves(t, w, cursor, remaining, sum, (x.0, 0, outcome))
  {
    assert w.visits + [] == w.visits;
  }

  lemma TableStageCovers(s: Keyring, w: World, cursor: Cursor, remaining: nat, sum: Summary, page: seq<Listed>,
                         x: (World, Summary))
    requires w.pending == [] && remaining > 0 && cursor.stage < TABLE_STAGES
    requires page == Page(w.rows, cursor.stage, cursor.afterId, remaining)
    requires x == ProcessRows(s, w, sum, cursor.stage, page)
    ensures Leaves(TrackOf(s), w, cursor, remaining, sum, RunStage(s, w, cursor, remaining, sum))
  {
    PageIsPrefix(w.rows, cursor.stage, cursor.afterId, remaining);
    var all := Listing(w.rows, cursor.stage, cursor.afterId);
    if |all| < remaining {
      ShortPageCovers(s, w, cursor, sum);
    } else {
      FullPageCovers(s, w, cursor, sum, remaining, all, x, Cursor(cursor.stage, Some(all[remaining - 1].id)));
    }
    BatchLeaves(TrackOf(s), w, cursor, remaining, sum, page, x);
  }

  lemma BatchLeaves(t: Track, w: World, cursor: Cursor, remaining: nat, sum: Summary, page: seq<Listed>,
                    x: (World, Summary))
    requires cursor.stage < TABLE_STAGES && |page| <= remaining && remaining > 0
    requires |page| < remaining ==> Covers(t, w, cursor, sum, |page|, x.0, Cursor(cursor.stage + 1, None), x.1)
    requires |page| == remaining ==>
               Covers(t, w, cursor, sum, |page|, x.0, Cursor(cursor.stage, Some(page[|page| - 1].id)), x.1)
    ensures Leaves(t, w, cursor, remaining, sum,
                   (x.0, |page|, ResolveBatch(x.1, cursor, |page|, LastId(page), remaining)))
  {
  }

  lemma CoversThenCompletes(t: Track, w: World, cursor: Cursor, sum: Summary, n: nat, w1: World, mid: Cursor,
                            sum1: Summary,
                            w2: World, sum2: Summary)
    requires Covers(t, w, cursor, sum, n, w1, mid, sum1) && Completes(t, w1, mid, sum1, w2, sum2)
    ensures Completes(t, w, cursor, sum, w2, sum2)
  {
    var route := t.route(w.rows, cursor);
    assert route[n..][..|route| - n] == route[n..] && route[..|route|] == route;
    Stretches(route, n, |route| - n, w.visits, w1.visits, w2.visits);
  }

  /**
   * A budget of `remaining` rows led from `(w, cursor, sum)` to `x`: to the end
   * exactly when fewer rows than that were left, else over exactly that many.
   */
  ghost predicate Spends(t: Track, w: World, cursor: Cursor, remaining: nat, sum: Summary, x: (World, Result)) {
    && (x.1.completed <==> |t.route(w.rows, cursor)| < remaining)
    && (x.1.completed <==> x.1.cursor.None?)
    && (x.1.completed ==> Completes(t, w, cursor, sum, x.0, x.1.sum))
    && (!x.1.completed ==> Covers(t, w, cursor, sum, remaining, x.0, x.1.cursor.value, x.1.sum))
  }

  lemma SpendsMore(t: Track, w: World, cursor: Cursor, remaining: nat, sum: Summary, n: nat, w1: World, mid: Cursor,
                   sum1: Summary,
                   x: (World, Result))
    requires n < remaining && Covers(t, w, cursor, sum, n, w1, mid, sum1)
    requires Spends(t, w1, mid, remaining - n, sum1, x)
    ensures Spends(t, w, cursor, remaining, sum, x)
  {
    if x.1.completed {
      CoversThenCompletes(t, w, cursor, sum, n, w1, mid, sum1, x.0, x.1.sum);
    } else {
      CoversTransitive(t, w, cursor, sum, n, w1, mid, sum1, remaining - n, x.0, x.1.cursor.value, x.1.sum);
    }
  }

  ghost function QuietSpends(t: Track): Claim {
    (w: World, c: Cursor, n: nat, sum: Summary, x: (World, Result), looked: seq<Read>) =>
      w.pending == [] ==> Spends(t, w, c, n, sum, x)
  }

  lemma SpendsPasses(t: Track, w: World, c: Cursor, n: nat, sum: Summary, b: (World, nat, BatchOutcome),
                     looked: seq<Read>)
    requires n > 0 && MovesAt(c, n, b) && (w.pending == [] ==> Leaves(t, w, c, n, sum, b))
    ensures Passes(QuietSpends(t), w, c, n, sum, b, looked)
  {
    var p := QuietSpends(t);
    if w.pending == [] && b.2.Continue? {
      forall x: (World, Result), more: seq<Read> | p(b.0, b.2.cursor, n - b.1, b.2.sum, x, more)
        ensures p(w, c, n, sum, x, looked + more)
      {
        SpendsMore(t, w, c, n, sum, b.1, b.0, b.2.cursor, b.2.sum, x);
      }
    }
  }

  /** Every call on a quiet database spends its budget to the row. */
  lemma AdvanceSpends(s: Keyring, w: World, cursor: Cursor, remaining: nat, sum: Summary)
    requires w.pending == [] && remaining > 0
    ensures Spends(TrackOf(s), w, cursor, remaining, sum, Advance(s, w, cursor, remaining, sum))
  {
    var t := TrackOf(s);
    forall w: World, c: Cursor, n: nat, sum: Summary | n > 0
      ensures Passes(QuietSpends(t), w, c, n, sum, RunStage(s, w, c, n, sum), StageReads(s, w, c, n, sum))
    {
      if w.pending == [] {
        StageCovers(s, w, c, n, sum);
      }
      SpendsPasses(t, w, c, n, sum, RunStage(s, w, c, n, sum), StageReads(s, w, c, n, sum));
    }
    AdvanceInduction(s, QuietSpends(t), w, cursor, remaining, sum);
  }

  function Total(limits: seq<nat>): nat {
    if limits == [] then 0 else limits[0] + Total(limits[1..])
  }

  /** A session ended as it should, given the route before it and what the sweep without a budget gives. */
  ghost predicate Finishes(x: (World, Result), visits: seq<Key>, route: seq<Key>, end: (World, Summary), sum: Summary,
                           budget: nat) {
    && (x.1.completed <==> |route| < budget)
    && (x.1.completed ==>
      x.0 == end.0 && x.1.sum == sum.Plus(end.1) && x.0.visits == visits + route && x.0.pending == [])
  }

  lemma FinishesAfter(x: (World, Result), visits: seq<Key>, visits1: seq<Key>, route: seq<Key>, n: nat,
                      end: (World, Summary), rest: (World, Summary), sum: Summary, part: Summary, budget: nat)
    requires n <= |route| && visits1 == visits + route[..n] && Shifts(part, rest, end)
    requires Finishes(x, visits1, route[n..], rest, sum.Plus(part), budget)
    ensures Finishes(x, visits, route, end, sum, n + budget)
  {
    PlusAssociative(sum, part, rest.1);
    assert visits + route[..n] + route[n..] == visits + route;
  }

  /** The sweep without a budget counts from whatever it is given. */
  ghost predicate Shifting(t: Track) {
    forall w: World, c: Cursor, a: Summary, b: Summary :: Shifts(a, t.tail(w, c, b), t.tail(w, c, a.Plus(b)))
  }

  ghost predicate FinishesFrom(t: Track, w: World, c: Cursor, limits: seq<nat>, sum: Summary, x: (World, Result)) {
    w.pending == [] ==> Finishes(x, w.visits, t.route(w.rows, c), t.tail(w, c, EMPTY_SUMMARY), sum, Total(limits))
  }

  ghost function QuietFinishes(t: Track): SessionClaim {
    (w: World, c: Cursor, limits: seq<nat>, sum: Summary, x: (World, Result), looked: seq<Read>) =>
      FinishesFrom(t, w, c, limits, sum, x)
  }

  lemma FinishesCarries(t: Track, w: World, c: Cursor, limits: seq<nat>, sum: Summary, x: (World, Result),
                        looked: seq<Read>)
    requires limits != [] && Shifting(t) && (w.pending == [] ==> Spends(t, w, c, limits[0], EMPTY_SUMMARY, x))
    ensures Carries(QuietFinishes(t), w, c, limits, sum, x, looked)
  {
    var p := QuietFinishes(t);
    if w.pending == [] && x.1.cursor.Some? {
      var next, part := x.1.cursor.value, x.1.sum;
      assert Shifts(part, t.tail(x.0, next, EMPTY_SUMMARY), t.tail(x.0, next, part.Plus(EMPTY_SUMMARY)));
      PlusEmpty(part);
      forall y: (World, Result), more: seq<Read> | p(x.0, next, limits[1..], sum.Plus(part), y, more)
        ensures p(w, c, limits, sum, y, looked + more)
      {
        FinishesAfter(y, w.visits, x.0.visits, t.route(w.rows, c), limits[0], t.tail(w, c, EMPTY_SUMMARY),
                      t.tail(x.0, next, EMPTY_SUMMARY), sum, part, Total(limits[1..]));
      }
    }
  }

  lemma EmptyFinishes(t: Track, w: World, c: Cursor, sum: Summary)
    ensures QuietFinishes(t)(w, c, [], sum, (w, Result(sum, false, Some(c))), [])
  {
  }

  lemma TrackShifts(s: Keyring)
    ensures Shifting(TrackOf(s))
  {
    forall w: World, c: Cursor, a: Summary, b: Summary
      ensures Shifts(a, TrackOf(s).tail(w, c, b), TrackOf(s).tail(w, c, a.Plus(b)))
    {
      TailShifts(s, w, c, a, b);
    }
  }

  lemma SessionSpends(s: Keyring, w: World, c: Cursor, limits: seq<nat>, sum: Summary, x: (World, Result),
                      looked: seq<Read>)
    requires limits != [] && limits[0] > 0 && Shifting(TrackOf(s)) && x == Advance(s, w, c, limits[0], EMPTY_SUMMARY)
    ensures Carries(QuietFinishes(TrackOf(s)), w, c, limits, sum, x, looked)
  {
    if w.pending == [] {
      AdvanceSpends(s, w, c, limits[0], EMPTY_SUMMARY);
    }
    FinishesCarries(TrackOf(s), w, c, limits, sum, x, looked);
  }

  /**
   * Batching is invisible: a session completes exactly when its limits add up
   * to more than the rows there are, and then its data, its row visits and its
   * summed counts are those of the sweep without a budget.
   */
  lemma SessionCovers(s: Keyring, w: World, cursor: Cursor, limits: seq<nat>, sum: Summary)
    requires w.pending == [] && forall i :: 0 <= i < |limits| ==> limits[i] > 0
    ensures Finishes(Session(s, w, cursor, limits, sum), w.visits, Route(w.rows, cursor),
                     Tail(s, w, cursor, EMPTY_SUMMARY), sum, Total(limits))
  {
    var t, p := TrackOf(s), QuietFinishes(TrackOf(s));
    TrackShifts(s);
    forall w: World, c: Cursor, sum: Summary ensures p(w, c, [], sum, (w, Result(sum, false, Some(c))), []) {
      EmptyFinishes(t, w, c, sum);
    }
    forall w: World, c: Cursor, ls: seq<nat>, sum: Summary | ls != [] && ls[0] > 0
      ensures Carries(p, w, c, ls, sum, Advance(s, w, c, ls[0], EMPTY_SUMMARY),
                      CallReads(s, w, c, ls[0], EMPTY_SUMMARY))
    {
      SessionSpends(s, w, c, ls, sum, Advance(s, w, c, ls[0], EMPTY_SUMMARY), CallReads(s, w, c, ls[0], EMPTY_SUMMARY));
    }
    SessionInduction(s, p, w, cursor, limits, sum);
  }

  lemma PlusEmpty(a: Summary)
    ensures a.Plus(EMPTY_SUMMARY) == a
  {
  }

  lemma PlusAssociative(a: Summary, b: Summary, c: Summary)
    ensures a.Plus(b).Plus(c) == a.Plus(b.Plus(c))
  {
  }

  /** A completed session and one call with a large enough limit are the same sweep. */
  lemma SessionIsOneCall(s: Keyring, w: World, cursor: Cursor, limits: seq<nat>, limit: nat)
    requires w.pending == [] && forall i :: 0 <= i < |limits| ==> limits[i] > 0
    requires |Route(w.rows, cursor)| < Total(limits) && |Route(w.rows, cursor)| < limit
    ensures var x := Session(s, w, cursor, limits, EMPTY_SUMMARY);
            var y := Advance(s, w, cursor, limit, EMPTY_SUMMARY);
            x.0 == y.0 && x.1.sum == y.1.sum && x.1.completed && y.1.completed
  {
    SessionCovers(s, w, cursor, limits, EMPTY_SUMMARY);
    AdvanceSpends(s, w, cursor, limit, EMPTY_SUMMARY);
    EmptyPlus(Tail(s, w, cursor, EMPTY_SUMMARY).1);
  }

  lemma EmptyPlus(a: Summary)
    ensures EMPTY_SUMMARY.Plus(a) == a
  {
  }

  // ---------------------------------------------------------------- the route, and how many calls it takes

  predicate Unvisited(rows: Rows, cursor: Cursor, k: Key) {
    k in rows && k.Key? && Matches(k.table, rows[k]) &&
    (k.table > cursor.stage || (k.table == cursor.stage && (cursor.afterId.None? || Less(cursor.afterId.value, k.id))))
  }

  /** In stage order, and in id order within a stage. */
  predicate Before(a: Key, b: Key) {
    a.Key? && b.Key? && (a.table < b.table || (a.table == b.table && Less(a.id, b.id)))
  }

  predicate Ordered(keys: seq<Key>) {
    forall i, j :: 0 <= i < j < |keys| ==> Before(keys[i], keys[j])
  }

  /** The route is every matching row beyond the cursor, each once, by stage and then by id. */
  lemma {:induction false} RouteExact(rows: Rows, cursor: Cursor)
    ensures forall k :: k in Route(rows, cursor) <==> Unvisited(rows, cursor, k)
    ensures Ordered(Route(rows, cursor))
    decreases STAGE_COUNT - cursor.stage
  {
    if cursor.stage < TABLE_STAGES {
      var ids := Pending(rows, cursor.stage, cursor.afterId);
      var here := KeysOf(cursor.stage, ids);
      var next := Cursor(cursor.stage + 1, None);
      PendingFacts(rows, cursor.stage, cursor.afterId);
      RouteExact(rows, next);
      forall k ensures k in Route(rows, cursor) <==> Unvisited(rows, cursor, k) {
        if k in here {
          var i :| 0 <= i < |ids| && here[i] == k;
          assert ids[i] in Candidates(rows, cursor.stage, cursor.afterId);
        }
        if Unvisited(rows, cursor, k) && k.table == cursor.stage {
          assert k.id in ids;
          var i :| 0 <= i < |ids| && ids[i] == k.id;
          assert here[i] == k;
        }
      }
      RouteOrder(cursor.stage, ids, Route(rows, next), rows);
    }
  }

  lemma RouteOrder(stage: TableStage, ids: seq<Id>, rest: seq<Key>, rows: Rows)
    requires Sorted(ids) && Ordered(rest)
    requires stage + 1 < STAGE_COUNT && forall k :: k in rest ==> Unvisited(rows, Cursor(stage + 1, None), k)
    ensures Ordered(KeysOf(stage, ids) + rest)
  {
    var here := KeysOf(stage, ids);
    var r := here + rest;
    forall i | |here| <= i < |r| ensures r[i].Key? && r[i].table > stage {
      assert r[i] in rest;
    }
  }

  function Repeat(limit: nat, calls: nat): seq<nat> {
    seq(calls, i => limit)
  }

  lemma {:induction false} TotalRepeat(limit: nat, calls: nat)
    ensures Total(Repeat(limit, calls)) == limit * calls
  {
    if calls > 0 {
      assert Repeat(limit, calls)[1..] == Repeat(limit, calls - 1);
      TotalRepeat(limit, calls - 1);
    }
  }

  /** With `n` rows and a fixed limit the sweep completes after exactly `n / limit + 1` calls. */
  lemma CallsNeeded(s: Keyring, w: World, limit: nat, calls: nat)
    requires w.pending == [] && limit > 0
    ensures Session(s, w, START, Repeat(limit, calls), EMPTY_SUMMARY).1.completed <==>
      calls >= |Route(w.rows, START)| / limit + 1
  {
    SessionCovers(s, w, START, Repeat(limit, calls), EMPTY_SUMMARY);
    TotalRepeat(limit, calls);
    QuotientBound(|Route(w.rows, START)|, limit, calls);
  }

  lemma {:induction false} TimesGrows(limit: nat, a: nat, b: nat)
    requires a <= b
    ensures limit * a <= limit * b
  {
    if a < b {
      TimesGrows(limit, a, b - 1);
      assert limit * b == limit * (b - 1) + limit;
    }
  }

  lemma QuotientBound(n: nat, limit: nat, calls: nat)
    requires limit > 0
    ensures n < limit * calls <==> calls >= n / limit + 1
  {
    var q := n / limit;
    assert n == limit * q + n % limit;
    assert limit * (q + 1) == limit * q + limit;
    if calls >= q + 1 {
      TimesGrows(limit, q + 1, calls);
    } else {
      TimesGrows(limit, calls, q);
    }
  }
}
