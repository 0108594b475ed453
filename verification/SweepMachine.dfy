/**
 * The sweep as it runs: a database that other sessions keep changing, a
 * summary object that every step counts into, and loops over pages and keys.
 * Each method is proved to do what its counterpart in `SweepModel` says.
 */
module SweepMachine {
  import opened Strings
  import opened Envelopes
  import M = SweepModel
  import R = SweepRequests
  import B = SweepBatching
  import C = SweepCompletion

  class Database {
    var rows: M.Rows
    var pending: seq<M.Turn>
    var drawn: nat
    var log: seq<M.Entry>
    var visits: seq<M.Key>

    constructor (rows: M.Rows, pending: seq<M.Turn>)
      ensures World() == M.World(rows, pending, 0, [], [])
    {
      this.rows, this.pending, drawn, log, visits := rows, pending, 0, [], [];
    }

    function World(): M.World
      reads this
    {
      M.World(rows, pending, drawn, log, visits)
    }

    method Commit(e: M.Entry)
      modifies this
      ensures World() == M.Record(old(World()), e)
    {
      rows := M.Apply(rows, e.op);
      log := log + [e];
    }

    /** Whatever the other sessions do before the sweep's next operation. */
    method Interfere()
      modifies this
      ensures World() == M.Interfere(old(World()))
    {
      if pending != [] {
        var ops := pending[0].ops;
        pending := pending[1..];
        ghost var start := World();
        var i := 0;
        while i < |ops|
          invariant 0 <= i <= |ops|
          invariant M.RecordAll(World(), ops[i..]) == M.RecordAll(start, ops)
        {
          assert ops[i..][1..] == ops[i + 1..];
          Commit(M.Entry(false, ops[i], true));
          i := i + 1;
        }
      }
    }

    method SelectPage(stage: M.TableStage, after: Option<string>, limit: nat) returns (page: seq<M.Listed>)
      modifies this
      ensures World() == M.Interfere(old(World()))
      ensures page == M.Page(rows, stage, after, limit)
    {
      Interfere();
      page := M.Page(rows, stage, after, limit);
    }

    method SelectSetting(key: M.Key) returns (v: M.Value)
      modifies this
      ensures World() == M.Interfere(old(World()))
      ensures v == M.SettingValue(rows, key)
    {
      Interfere();
      v := M.SettingValue(rows, key);
    }

    method TrySwap(op: M.Op) returns (outcome: M.Outcome)
      requires op.Swap?
      modifies this
      ensures (World(), outcome) == M.TrySwap(old(World()), op)
    {
      var fault := M.NextFault(World());
      Interfere();
      match fault
      case NoFault =>
        outcome := if M.Hits(rows, op) then M.Won else M.Lost;
        Commit(M.Entry(true, op, true));
      case NotRun =>
        outcome := M.Errored;
      case ReplyLost =>
        outcome := M.Errored;
        Commit(M.Entry(true, op, false));
    }

    method SureSwap(op: M.Op) returns (won: bool)
      requires op.Swap?
      modifies this
      ensures (World(), won) == M.SureSwap(old(World()), op)
    {
      Interfere();
      won := M.Hits(rows, op);
      Commit(M.Entry(true, op, true));
    }
  }

  /** The `summary` object. */
  class Tally {
    var scanned: nat
    var reencrypted: nat
    var skipped: nat
    var failed: nat

    constructor ()
      ensures Sum() == M.EMPTY_SUMMARY
    {
      scanned, reencrypted, skipped, failed := 0, 0, 0, 0;
    }

    function Sum(): M.Summary
      reads this
    {
      M.Summary(scanned, reencrypted, skipped, failed)
    }

    method Add(other: M.Summary)
      modifies this
      ensures Sum() == old(Sum()).Plus(other)
    {
      scanned := scanned + other.scanned;
      reencrypted := reencrypted + other.reencrypted;
      skipped := skipped + other.skipped;
      failed := failed + other.failed;
    }
  }

  class Sweeper {
    const keyring: Keyring
    const db: Database

    constructor (keyring: Keyring, db: Database)
      ensures this.keyring == keyring && this.db == db
    {
      this.keyring, this.db := keyring, db;
    }

    method ApplyResealed(tally: Tally, op: M.Op)
      requires op.Swap?
      modifies db, tally
      ensures var x := M.TrySwap(old(db.World()), op);
              db.World() == x.0 && tally.Sum() == M.Settle(old(tally.Sum()), x.1)
    {
      var outcome := db.TrySwap(op);
      match outcome
      case Won => tally.reencrypted := tally.reencrypted + 1;
      case Lost => tally.skipped := tally.skipped + 1;
      case Errored => tally.failed := tally.failed + 1;
    }

    method ProcessBlob(tally: Tally, blob: string, target: M.Target, allowDaemon: bool)
      modifies db, tally
      ensures (db.World(), tally.Sum())
                 == M.ProcessBlob(keyring, old(db.World()), old(tally.Sum()), blob, target, allowDaemon)
    {
      tally.scanned := tally.scanned + 1;
      var verdict := M.Classify(keyring, blob, allowDaemon);
      if verdict == M.Skip {
        tally.skipped := tally.skipped + 1;
        return;
      }
      if verdict == M.Fail {
        tally.failed := tally.failed + 1;
        return;
      }
      match keyring.decrypt(blob)
      case None =>
        tally.failed := tally.failed + 1;
      case Some(plaintext) =>
        var resealed := keyring.encrypt(db.drawn, plaintext);
        db.drawn := db.drawn + 1;
        ApplyResealed(tally, M.SwapFor(target, blob, resealed));
    }

    method ResealMember(tally: Tally, members: map<M.Name, M.Member>, resealed: nat, name: M.Name)
      returns (next: map<M.Name, M.Member>, count: nat)
      modifies db`drawn, tally
      ensures M.Progress(next, count, db.drawn, tally.Sum())
           == M.ResealKey(keyring, M.Progress(members, resealed, old(db.drawn), old(tally.Sum())), name)
      ensures db.drawn - old(db.drawn) == count - resealed
    {
      next, count := members, resealed;
      if name !in members || !members[name].Str? || members[name].text == "" {
        return;
      }
      var text := members[name].text;
      tally.scanned := tally.scanned + 1;
      var version := keyring.version(text);
      if version == None {
        tally.failed := tally.failed + 1;
        return;
      }
      if version.value == keyring.current {
        tally.skipped := tally.skipped + 1;
        return;
      }
      match keyring.decrypt(text)
      case None =>
        tally.failed := tally.failed + 1;
      case Some(plaintext) =>
        next := members[name := M.Str(keyring.encrypt(db.drawn, plaintext))];
        db.drawn := db.drawn + 1;
        count := count + 1;
    }

    /** `resealJsonbEnvelopeRow`: the loop over the keys of one JSON row. */
    method ResealMembers(tally: Tally, key: M.Key, original: M.Value, keys: seq<M.Name>)
      modifies db, tally
      ensures (db.World(), tally.Sum())
                 == M.ProcessKeyed(keyring, old(db.World()), old(tally.Sum()), key, original, keys)
    {
      if !original.Object? {
        return;
      }
      var next, resealed := original.members, 0;
      ghost var first := M.Progress(next, 0, db.drawn, tally.Sum());
      var i := 0;
      while i < |keys|
        invariant 0 <= i <= |keys|
        invariant db.World() == old(db.World()).(drawn := db.drawn) && db.drawn == old(db.drawn) + resealed
        invariant M.ResealKeys(keyring, M.Progress(next, resealed, db.drawn, tally.Sum()), keys[i..])
                     == M.ResealKeys(keyring, first, keys)
      {
        assert keys[i..][1..] == keys[i + 1..];
        next, resealed := ResealMember(tally, next, resealed, keys[i]);
        i := i + 1;
      }
      if resealed == 0 {
        return;
      }
      var applied := db.SureSwap(M.Swap(key, M.Main, original, M.Object(next)));
      if applied {
        tally.reencrypted := tally.reencrypted + resealed;
      } else {
        tally.skipped := tally.skipped + resealed;
      }
    }

    method ProcessCell(tally: Tally, key: M.Key, column: M.Column, v: M.Value, allowDaemon: bool)
      modifies db, tally
      ensures (db.World(), tally.Sum())
                 == M.ProcessCell(keyring, old(db.World()), old(tally.Sum()), key, column, v, allowDaemon)
    {
      if v.Text? {
        ProcessBlob(tally, v.text, M.Target.Cell(key, column), allowDaemon);
      }
    }

    method ProcessRow(tally: Tally, stage: M.TableStage, id: M.Id, row: M.Row)
      modifies db, tally
      ensures (db.World(), tally.Sum()) == M.ProcessRow(keyring, old(db.World()), old(tally.Sum()), stage, id, row)
    {
      var key := M.Key.Key(stage, id);
      db.visits := db.visits + [key];
      match M.ShapeOf(stage)
      case Single(allowDaemon) =>
        ProcessCell(tally, key, M.Main, row.main, allowDaemon);
      case Keyed(keys) =>
        ResealMembers(tally, key, row.main, keys);
      case Channel =>
        if row.marked {
          ProcessCell(tally, key, M.Main, row.main, false);
        }
        if row.side != M.Text("") {
          ProcessCell(tally, key, M.Side, row.side, false);
        }
    }

    method ProcessRows(tally: Tally, stage: M.TableStage, page: seq<M.Listed>)
      modifies db, tally
      ensures (db.World(), tally.Sum()) == M.ProcessRows(keyring, old(db.World()), old(tally.Sum()), stage, page)
    {
      var i := 0;
      while i < |page|
        invariant 0 <= i <= |page|
        invariant M.ProcessRows(keyring, db.World(), tally.Sum(), stage, page[i..])
               == M.ProcessRows(keyring, old(db.World()), old(tally.Sum()), stage, page)
      {
        assert page[i..][1..] == page[i + 1..];
        ProcessRow(tally, stage, page[i].id, page[i].row);
        i := i + 1;
      }
    }

    /** One page of a table stage, and whether the call goes on after it. */
    method RunTableBatch(tally: Tally, cursor: M.Cursor, remaining: nat) returns (size: nat, outcome: M.BatchOutcome)
      requires remaining > 0 && cursor.stage < M.TABLE_STAGES
      modifies db, tally
      ensures var b := M.RunBatch(keyring, old(db.World()), cursor, remaining, old(tally.Sum()));
              db.World() == b.0 && size == b.1 && outcome == b.2 && tally.Sum() == M.SumOf(b.2)
    {
      var page := db.SelectPage(cursor.stage, cursor.afterId, remaining);
      ProcessRows(tally, cursor.stage, page);
      size := |page|;
      outcome := M.ResolveBatch(tally.Sum(), cursor, size, M.LastId(page), remaining);
    }

    method SweepSealedSetting(tally: Tally, key: M.Key)
      modifies db, tally
      ensures (db.World(), tally.Sum()) == M.SweepSealedSetting(keyring, old(db.World()), old(tally.Sum()), key)
    {
      var v := db.SelectSetting(key);
      if M.HasSealed(v) {
        ProcessBlob(tally, v.members[M.SealedMember].text, M.Sealed(key, v.members), false);
      }
    }

    method SweepSettings(tally: Tally, stage: M.Stage)
      requires stage >= M.TABLE_STAGES
      modifies db, tally
      ensures (db.World(), tally.Sum()) == M.SweepSettings(keyring, old(db.World()), old(tally.Sum()), stage)
    {
      if stage == 15 {
        var v := db.SelectSetting(M.AuthProviders);
        ResealMembers(tally, M.AuthProviders, v, M.AUTH_PROVIDER_KEYS);
      } else if stage == 16 {
        var v := db.SelectSetting(M.Email);
        ResealMembers(tally, M.Email, v, M.EMAIL_KEYS);
      } else if stage == 17 {
        var v := db.SelectSetting(M.AlertWebhook);
        if v.Text? && v.text != "" {
          ProcessBlob(tally, v.text, M.Target.Cell(M.AlertWebhook, M.Main), false);
        }
      } else {
        SweepSealedSetting(tally, M.PanelIdentity);
        SweepSealedSetting(tally, M.AcmeAccount);
      }
    }

    /** One turn of the loop below: a settings stage, or one page of a table stage. */
    method RunStage(tally: Tally, cursor: M.Cursor, remaining: nat) returns (size: nat, outcome: M.BatchOutcome)
      requires remaining > 0
      modifies db, tally
      ensures (db.World(), size, outcome) == M.RunStage(keyring, old(db.World()), cursor, remaining, old(tally.Sum()))
      ensures tally.Sum() == M.SumOf(outcome)
    {
      if cursor.stage >= M.TABLE_STAGES {
        SweepSettings(tally, cursor.stage);
        size := 0;
        if cursor.stage == M.STAGE_COUNT - 1 {
          outcome := M.Done(M.Result(tally.Sum(), true, None));
        } else {
          outcome := M.Continue(M.Cursor(cursor.stage + 1, None), tally.Sum());
        }
      } else {
        size, outcome := RunTableBatch(tally, cursor, remaining);
      }
    }

    /** `reencryptAtRestSecrets`; `None` is its TypeError. */
    method Reencrypt(wire: Option<M.WireCursor>, limit: int) returns (result: Option<M.Result>)
      modifies db
      ensures limit < 1 ==> result == None && db.World() == old(db.World())
      ensures limit >= 1 ==> result.Some?
      ensures limit >= 1 ==> (db.World(), result.value) == M.Reencrypt(keyring, old(db.World()), wire, limit).value
    {
      if limit < 1 {
        return None;
      }
      var tally := new Tally();
      var cursor := M.NormalizeCursor(wire);
      var remaining: nat := limit;
      ghost var end := M.Advance(keyring, db.World(), cursor, limit, M.EMPTY_SUMMARY);
      while remaining > 0
        invariant remaining > 0
        invariant M.Advance(keyring, db.World(), cursor, remaining, tally.Sum()) == end
        decreases M.STAGE_COUNT - cursor.stage
      {
        ghost var b := M.RunStage(keyring, db.World(), cursor, remaining, tally.Sum());
        M.AdvanceUnfolds(keyring, db.World(), cursor, remaining, tally.Sum(), b);
        var size, outcome := RunStage(tally, cursor, remaining);
        assert b == (db.World(), size, outcome);
        remaining := remaining - size;
        match outcome
        case Done(r) => return Some(r);
        case Continue(next, _) => cursor := next;
      }
      assert false;  // the budget never runs out inside the loop: a full page ends the call
    }

    /** `reencryptAtRestSecretsToCompletion`: a session of calls with the default limit. */
    method ReencryptToCompletion() returns (totals: Tally, ghost calls: nat)
      modifies db
      ensures fresh(totals)
      ensures var x := M.Session(keyring, old(db.World()), M.START, B.Repeat(R.BATCH_SIZE, calls), M.EMPTY_SUMMARY);
              x.1.completed && db.World() == x.0 && totals.Sum() == x.1.sum
    {
      totals := new Tally();
      var cursor: Option<M.WireCursor> := None;
      ghost var position := M.START;
      calls := 0;
      while true
        invariant fresh(totals) && M.NormalizeCursor(cursor) == position
        invariant M.Session(keyring, old(db.World()), M.START, B.Repeat(R.BATCH_SIZE, calls), M.EMPTY_SUMMARY)
               == (db.World(), M.Result(totals.Sum(), false, Some(position)))
        decreases |db.pending|, |B.Route(db.rows, position)|
      {
        ghost var mid, total := db.World(), totals.Sum();
        R.ReturnedCursorSendable(keyring, mid, position, R.BATCH_SIZE, M.EMPTY_SUMMARY);
        var batch := Reencrypt(cursor, R.BATCH_SIZE);
        C.OneMoreCall(keyring, old(db.World()), R.BATCH_SIZE, calls, mid, position, total, db.World(), batch.value);
        totals.Add(batch.value.sum);
        calls := calls + 1;
        if batch.value.completed {
          return;
        }
        R.NormalizesBack(batch.value.cursor);
        position := batch.value.cursor.value;
        cursor := Some(M.ToWire(batch.value.cursor.value));
      }
    }
  }
}
