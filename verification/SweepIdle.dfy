/** A second pass over a database where nothing is left that the keyring could re-seal. */
module SweepIdle {
  import opened Strings
  import opened Envelopes
  import opened SweepModel
  import opened SweepInduction
  import opened SweepRetirement

  /** Quiet, and nothing left that the keyring could re-seal. */
  ghost predicate Settled(s: Keyring, w: World) {
    w.pending == [] && AllSettled(s, w.rows)
  }

  ghost predicate AllSettled(s: Keyring, rows: Rows) {
    forall p :: CleanAt(s, false, rows, p)
  }

  /** Nothing was written and nothing counted as re-encrypted. */
  predicate Idle(w: World, sum: Summary, w2: World, sum2: Summary) {
    w2.rows == w.rows && w2.pending == w.pending && w2.log == w.log && sum2.reencrypted == sum.reencrypted
  }

  lemma BlobIdle(s: Keyring, w: World, sum: Summary, blob: string, t: Target, allowDaemon: bool)
    requires Rests(s, false, blob)
    ensures var x := ProcessBlob(s, w, sum, blob, t, allowDaemon); Idle(w, sum, x.0, x.1)
  {
  }

  lemma {:induction false} KeysIdle(s: Keyring, p: Progress, keys: seq<Name>)
    requires MembersRest(s, false, p.members, keys)
    ensures var q := ResealKeys(s, p, keys); q.resealed == p.resealed && q.sum.reencrypted == p.sum.reencrypted
    decreases |keys|
  {
    if keys != [] {
      var p1 := ResealKey(s, p, keys[0]);
      assert p1.members == p.members;
      KeysIdle(s, p1, keys[1..]);
    }
  }

  lemma KeyedIdle(s: Keyring, w: World, sum: Summary, key: Key, v: Value, keys: seq<Name>)
    requires v.Object? ==> MembersRest(s, false, v.members, keys)
    ensures var x := ProcessKeyed(s, w, sum, key, v, keys); Idle(w, sum, x.0, x.1)
  {
    if v.Object? {
      KeysIdle(s, Progress(v.members, 0, w.drawn, sum), keys);
    }
  }

  lemma RowIdle(s: Keyring, w: World, sum: Summary, stage: TableStage, id: Id, row: Row)
    requires Settled(s, w) && Key(stage, id) in w.rows && w.rows[Key(stage, id)] == row && Matches(stage, row)
    ensures var x := ProcessRow(s, w, sum, stage, id, row); Idle(w, sum, x.0, x.1)
  {
    var key := Key(stage, id);
    var w1 := w.(visits := w.visits + [key]);
    assert CleanAt(s, false, w.rows, Place(key, Main));
    match ShapeOf(stage)
    case Single(allowDaemon) =>
      if row.main.Text? {
        BlobIdle(s, w1, sum, row.main.text, Target.Cell(key, Main), allowDaemon);
      }
    case Keyed(keys) => KeyedIdle(s, w1, sum, key, row.main, keys);
    case Channel =>
      assert CleanAt(s, false, w.rows, Place(key, Side));
      var y := if row.marked then ProcessCell(s, w1, sum, key, Main, row.main, false) else (w1, sum);
      if row.marked && row.main.Text? {
        BlobIdle(s, w1, sum, row.main.text, Target.Cell(key, Main), false);
      }
      if row.side.Text? {
        BlobIdle(s, y.0, y.1, row.side.text, Target.Cell(key, Side), false);
      }
  }

  lemma {:induction false} RowsIdle(s: Keyring, w: World, sum: Summary, stage: TableStage, page: seq<Listed>)
    requires Settled(s, w) && ReadFrom(w.rows, stage, page)
    requires forall i :: 0 <= i < |page| ==> Matches(stage, page[i].row)
    ensures var x := ProcessRows(s, w, sum, stage, page); Idle(w, sum, x.0, x.1)
    decreases |page|
  {
    if page != [] {
      RowIdle(s, w, sum, stage, page[0].id, page[0].row);
      var x := ProcessRow(s, w, sum, stage, page[0].id, page[0].row);
      RowsUnfold(s, w, sum, stage, page, x);
      RowsIdle(s, x.0, x.1, stage, page[1..]);
    }
  }

  lemma SettingsIdle(s: Keyring, w: World, sum: Summary, stage: Stage)
    requires Settled(s, w) && stage >= TABLE_STAGES
    ensures var x := SweepSettings(s, w, sum, stage); Idle(w, sum, x.0, x.1)
  {
    var key := if stage == 15 then AuthProviders else if stage == 16 then Email
      else if stage == 17 then AlertWebhook else PanelIdentity;
    assert CleanAt(s, false, w.rows, Place(key, Main));
    var v := SettingValue(w.rows, key);
    if stage == 15 {
      KeyedIdle(s, w, sum, key, v, AUTH_PROVIDER_KEYS);
    } else if stage == 16 {
      KeyedIdle(s, w, sum, key, v, EMAIL_KEYS);
    } else if stage == 17 {
      if v.Text? {
        BlobIdle(s, w, sum, v.text, Target.Cell(key, Main), false);
      }
    } else {
      SealedIdle(s, w, sum, PanelIdentity);
      var x := SweepSealedSetting(s, w, sum, PanelIdentity);
      SealedIdle(s, x.0, x.1, AcmeAccount);
    }
  }

  lemma SealedIdle(s: Keyring, w: World, sum: Summary, key: Key)
    requires Settled(s, w) && key in {PanelIdentity, AcmeAccount}
    ensures var x := SweepSealedSetting(s, w, sum, key); Idle(w, sum, x.0, x.1)
  {
    assert CleanAt(s, false, w.rows, Place(key, Main));
    var v := SettingValue(w.rows, key);
    if HasSealed(v) {
      assert KindOf(Place(key, Main)).keys[0] == SealedMember;
      BlobIdle(s, w, sum, v.members[SealedMember].text, Sealed(key, v.members), false);
    }
  }

  lemma PageMatches(rows: Rows, stage: TableStage, after: Option<string>, limit: nat)
    ensures var page := Page(rows, stage, after, limit); forall i :: 0 <= i < |page| ==> Matches(stage, page[i].row)
  {
    AscendingHas(Candidates(rows, stage, after));
    var ids := Ascending(Candidates(rows, stage, after));
    assert forall i :: 0 <= i < |ids| ==> ids[i] in Candidates(rows, stage, after);
  }

  lemma StageIdle(s: Keyring, w: World, cursor: Cursor, remaining: nat, sum: Summary)
    requires Settled(s, w) && remaining > 0
    ensures var b := RunStage(s, w, cursor, remaining, sum); Idle(w, sum, b.0, SumOf(b.2))
  {
    if cursor.stage >= TABLE_STAGES {
      SettingsIdle(s, w, sum, cursor.stage);
    } else {
      PageIsRead(w.rows, cursor.stage, cursor.afterId, remaining);
      PageMatches(w.rows, cursor.stage, cursor.afterId, remaining);
      RowsIdle(s, w, sum, cursor.stage, Page(w.rows, cursor.stage, cursor.afterId, remaining));
    }
  }

  ghost function StaysIdle(s: Keyring): Claim {
    (w: World, c: Cursor, n: nat, sum: Summary, x: (World, Result), looked: seq<Read>) =>
      Settled(s, w) ==> Idle(w, sum, x.0, x.1.sum)
  }

  lemma IdlePasses(s: Keyring, w: World, c: Cursor, n: nat, sum: Summary, b: (World, nat, BatchOutcome),
                   looked: seq<Read>)
    requires b.1 <= n && (Settled(s, w) ==> Idle(w, sum, b.0, SumOf(b.2)))
    ensures Passes(StaysIdle(s), w, c, n, sum, b, looked)
  {
    assert Settled(s, w) ==> Settled(s, b.0);
  }

  /** On a settled database a call from any cursor writes nothing and counts no re-encryption. */
  lemma AdvanceIdle(s: Keyring, w: World, cursor: Cursor, remaining: nat, sum: Summary)
    requires Settled(s, w) && remaining > 0
    ensures var x := Advance(s, w, cursor, remaining, sum); Idle(w, sum, x.0, x.1.sum)
  {
    forall w: World, c: Cursor, n: nat, sum: Summary | n > 0
      ensures Passes(StaysIdle(s), w, c, n, sum, RunStage(s, w, c, n, sum), StageReads(s, w, c, n, sum))
    {
      if Settled(s, w) {
        StageIdle(s, w, c, n, sum);
      }
      IdlePasses(s, w, c, n, sum, RunStage(s, w, c, n, sum), StageReads(s, w, c, n, sum));
    }
    AdvanceInduction(s, StaysIdle(s), w, cursor, remaining, sum);
  }
}
