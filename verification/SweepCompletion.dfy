/** Why running calls to completion ends: every call lets the other sessions take a turn, or covers rows. */
module SweepCompletion {
  import opened Strings
  import opened Envelopes
  import opened SweepModel
  import opened SweepInduction
  import opened SweepBatching

  lemma {:induction false} RecordAllPending(w: World, ops: seq<Op>)
    ensures RecordAll(w, ops).pending == w.pending
    decreases |ops|
  {
    if ops != [] {
      RecordAllPending(Record(w, Entry(false, ops[0], true)), ops[1..]);
    }
  }

  lemma InterfereTurns(w: World)
    ensures |Interfere(w).pending| == if w.pending == [] then 0 else |w.pending| - 1
  {
    if w.pending != [] {
      RecordAllPending(w.(pending := w.pending[1..]), w.pending[0].ops);
    }
  }

  lemma BlobTurns(s: Keyring, w: World, sum: Summary, blob: string, t: Target, allowDaemon: bool)
    ensures |ProcessBlob(s, w, sum, blob, t, allowDaemon).0.pending| <= |w.pending|
  {
    InterfereTurns(w.(drawn := w.drawn + 1));
  }

  lemma KeyedTurns(s: Keyring, w: World, sum: Summary, key: Key, v: Value, keys: seq<Name>)
    ensures |ProcessKeyed(s, w, sum, key, v, keys).0.pending| <= |w.pending|
  {
    if v.Object? {
      InterfereTurns(w.(drawn := ResealKeys(s, Progress(v.members, 0, w.drawn, sum), keys).drawn));
    }
  }

  lemma CellTurns(s: Keyring, w: World, sum: Summary, key: Key, column: Column, v: Value, allowDaemon: bool)
    ensures |ProcessCell(s, w, sum, key, column, v, allowDaemon).0.pending| <= |w.pending|
  {
    if v.Text? {
      BlobTurns(s, w, sum, v.text, Target.Cell(key, column), allowDaemon);
    }
  }

  lemma RowTurns(s: Keyring, w: World, sum: Summary, stage: TableStage, id: Id, row: Row)
    ensures |ProcessRow(s, w, sum, stage, id, row).0.pending| <= |w.pending|
  {
    var key := Key(stage, id);
    var w1 := w.(visits := w.visits + [key]);
    match ShapeOf(stage)
    case Single(allowDaemon) => CellTurns(s, w1, sum, key, Main, row.main, allowDaemon);
    case Keyed(keys) => KeyedTurns(s, w1, sum, key, row.main, keys);
    case Channel =>
      CellTurns(s, w1, sum, key, Main, row.main, false);
      var x := if row.marked then ProcessCell(s, w1, sum, key, Main, row.main, false) else (w1, sum);
      CellTurns(s, x.0, x.1, key, Side, row.side, false);
  }

  lemma {:induction false} RowsTurns(s: Keyring, w: World, sum: Summary, stage: TableStage, page: seq<Listed>)
    ensures |ProcessRows(s, w, sum, stage, page).0.pending| <= |w.pending|
    decreases |page|
  {
    if page != [] {
      RowTurns(s, w, sum, stage, page[0].id, page[0].row);
      var x := ProcessRow(s, w, sum, stage, page[0].id, page[0].row);
      RowsTurns(s, x.0, x.1, stage, page[1..]);
    }
  }

  lemma SealedTurns(s: Keyring, w: World, sum: Summary, key: Key)
    ensures |SweepSealedSetting(s, w, sum, key).0.pending| <= if w.pending == [] then 0 else |w.pending| - 1
  {
    InterfereTurns(w);
    var w1 := Interfere(w);
    var v := SettingValue(w1.rows, key);
    if HasSealed(v) {
      BlobTurns(s, w1, sum, v.members[SealedMember].text, Sealed(key, v.members), false);
    }
  }

  lemma SettingsTurns(s: Keyring, w: World, sum: Summary, stage: Stage)
    requires stage >= TABLE_STAGES
    ensures |SweepSettings(s, w, sum, stage).0.pending| <= if w.pending == [] then 0 else |w.pending| - 1
  {
    InterfereTurns(w);
    var w1 := Interfere(w);
    if stage == 15 {
      KeyedTurns(s, w1, sum, AuthProviders, SettingValue(w1.rows, AuthProviders), AUTH_PROVIDER_KEYS);
    } else if stage == 16 {
      KeyedTurns(s, w1, sum, Email, SettingValue(w1.rows, Email), EMAIL_KEYS);
    } else if stage == 17 {
      CellTurns(s, w1, sum, AlertWebhook, Main, SettingValue(w1.rows, AlertWebhook), false);
    } else {
      SealedTurns(s, w, sum, PanelIdentity);
      var x := SweepSealedSetting(s, w, sum, PanelIdentity);
      SealedTurns(s, x.0, x.1, AcmeAccount);
    }
  }

  /** Every stage starts with a database operation, so some session's turn comes up. */
  lemma StageTurns(s: Keyring, w: World, cursor: Cursor, remaining: nat, sum: Summary)
    requires remaining > 0
    ensures |RunStage(s, w, cursor, remaining, sum).0.pending| <= if w.pending == [] then 0 else |w.pending| - 1
  {
    if cursor.stage >= TABLE_STAGES {
      SettingsTurns(s, w, sum, cursor.stage);
    } else {
      InterfereTurns(w);
      var w1 := Interfere(w);
      RowsTurns(s, w1, sum, cursor.stage, Page(w1.rows, cursor.stage, cursor.afterId, remaining));
    }
  }

  /** One turn fewer, while there are any. */
  function OneLess(turns: seq<Turn>): nat {
    if turns == [] then 0 else |turns| - 1
  }

  function UsesTurns(): Claim {
    (w: World, c: Cursor, n: nat, sum: Summary, x: (World, Result), looked: seq<Read>) =>
      |x.0.pending| <= OneLess(w.pending)
  }

  lemma TurnsPass(w: World, c: Cursor, n: nat, sum: Summary, b: (World, nat, BatchOutcome), looked: seq<Read>)
    requires b.1 <= n && |b.0.pending| <= OneLess(w.pending)
    ensures Passes(UsesTurns(), w, c, n, sum, b, looked)
  {
    if b.2.Continue? {
      forall x: (World, Result), more: seq<Read> | UsesTurns()(b.0, b.2.cursor, n - b.1, b.2.sum, x, more)
        ensures UsesTurns()(w, c, n, sum, x, looked + more)
      {
        assert |x.0.pending| <= OneLess(b.0.pending);
      }
    }
  }

  lemma AdvanceTurns(s: Keyring, w: World, cursor: Cursor, remaining: nat, sum: Summary)
    requires remaining > 0
    ensures |Advance(s, w, cursor, remaining, sum).0.pending| <= OneLess(w.pending)
  {
    forall w: World, c: Cursor, n: nat, sum: Summary | n > 0
      ensures Passes(UsesTurns(), w, c, n, sum, RunStage(s, w, c, n, sum), StageReads(s, w, c, n, sum))
    {
      StageTurns(s, w, c, n, sum);
      TurnsPass(w, c, n, sum, RunStage(s, w, c, n, sum), StageReads(s, w, c, n, sum));
    }
    AdvanceInduction(s, UsesTurns(), w, cursor, remaining, sum);
  }

  /** An incomplete call leaves fewer turns to come, or, once all is quiet, fewer rows to visit. */
  lemma CallsRunOut(s: Keyring, w: World, cursor: Cursor, limit: nat)
    requires limit > 0
    ensures var x := Advance(s, w, cursor, limit, EMPTY_SUMMARY);
            x.1.cursor.Some? ==>
              || |x.0.pending| < |w.pending|
              || (|x.0.pending| == |w.pending| && |Route(x.0.rows, x.1.cursor.value)| < |Route(w.rows, cursor)|)
  {
    AdvanceTurns(s, w, cursor, limit, EMPTY_SUMMARY);
    if w.pending == [] {
      AdvanceSpends(s, w, cursor, limit, EMPTY_SUMMARY);
    }
  }

  /** One more call at the end of a chain that has not completed. */
  lemma {:induction false} ChainAppend(call: (World, Cursor, nat) -> (World, Result), w: World, cursor: Cursor,
                                       limits: seq<nat>,
                                       sum: Summary, last: nat, mid: World, position: Cursor, total: Summary)
    requires Chain(call, w, cursor, limits, sum) == (mid, Result(total, false, Some(position)))
    requires forall w: World, c: Cursor, n: nat :: n in limits ==>
               (var r := call(w, c, n).1; r.completed <==> r.cursor.None?)
    ensures var y := call(mid, position, last);
            Chain(call, w, cursor, limits + [last], sum) == (y.0, After(total, y.1))
    decreases |limits|
  {
    var more := limits + [last];
    var z := call(w, cursor, more[0]);
    ChainUnfolds(call, w, cursor, more, sum, z);
    if limits == [] {
      assert more[1..] == [];
    } else {
      assert more[0] == limits[0] && limits[0] in limits && more[1..] == limits[1..] + [last];
      ChainUnfolds(call, w, cursor, limits, sum, z);
      assert z.1.cursor.Some?;
      ChainAppend(call, z.0, z.1.cursor.value, limits[1..], sum.Plus(z.1.sum), last, mid, position, total);
    }
  }

  lemma SessionAppend(s: Keyring, w: World, cursor: Cursor, limits: seq<nat>, sum: Summary, last: nat,
                      mid: World, position: Cursor, total: Summary)
    requires last > 0 && forall i :: 0 <= i < |limits| ==> limits[i] > 0
    requires Session(s, w, cursor, limits, sum) == (mid, Result(total, false, Some(position)))
    ensures var y := Advance(s, mid, position, last, EMPTY_SUMMARY);
            Session(s, w, cursor, limits + [last], sum) == (y.0, After(total, y.1))
  {
    var call := CallOf(s);
    forall w: World, c: Cursor, n: nat | n in limits ensures var r := call(w, c, n).1; r.completed <==> r.cursor.None? {
      CompletedOrResumable(s, w, c, n, EMPTY_SUMMARY);
    }
    ChainAppend(call, w, cursor, limits, sum, last, mid, position, total);
  }

  /** The loop step of running to completion. */
  lemma OneMoreCall(s: Keyring, w: World, limit: nat, calls: nat, mid: World, position: Cursor, total: Summary,
                    w2: World, r: Result)
    requires limit > 0
    requires Session(s, w, START, Repeat(limit, calls), EMPTY_SUMMARY) == (mid, Result(total, false, Some(position)))
    requires Advance(s, mid, position, limit, EMPTY_SUMMARY) == (w2, r)
    ensures Session(s, w, START, Repeat(limit, calls + 1), EMPTY_SUMMARY) == (w2, After(total, r))
    ensures r.completed <==> r.cursor.None?
    ensures r.cursor.Some? ==>
              || |w2.pending| < |mid.pending|
              || (|w2.pending| == |mid.pending| && |Route(w2.rows, r.cursor.value)| < |Route(mid.rows, position)|)
  {
    assert Repeat(limit, calls) + [limit] == Repeat(limit, calls + 1);
    SessionAppend(s, w, START, Repeat(limit, calls), EMPTY_SUMMARY, limit, mid, position, total);
    CompletedOrResumable(s, mid, position, limit, EMPTY_SUMMARY);
    CallsRunOut(s, mid, position, limit);
  }
}
