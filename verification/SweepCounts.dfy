/**
 * What the counts of the sweep say: for every text why it counts as failed,
 * skipped or re-encrypted, told from the keyring and the place, and for a
 * whole session on a quiet database when nothing fails.
 */
module SweepCounts {
  import opened Strings
  import opened Envelopes
  import opened SweepModel
  import opened SweepInduction
  import opened SweepRetirement
  import S = SweepSafety
  import I = SweepIdle

  // ---------------------------------------------------------------- one text

  /** An older-version envelope that the keyring opens. */
  predicate Rotatable(s: Keyring, text: string) {
    Old(s, text) && s.decrypt(text).Some?
  }

  /** An envelope of the current version, or a daemon envelope where one may stand. */
  predicate UpToDate(s: Keyring, text: string, daemonOk: bool) {
    s.version(text) == Some(s.current) || (daemonOk && s.daemon(text))
  }

  /**
   * The sweep has nothing to say against the text. Otherwise it is a daemon
   * envelope where none may stand, has the daemon prefix without being one, is no
   * envelope at all, or is of another version and does not open.
   */
  predicate TextFine(s: Keyring, text: string, daemonOk: bool) {
    UpToDate(s, text, daemonOk) || Rotatable(s, text)
  }

  /** The place still holds what the sweep read there, after other sessions' turn. */
  predicate Present(w: World, t: Target, blob: string) {
    var rows, p := Interfere(w).rows, TargetPlace(t);
    p.key in rows && rows[p.key].Cell(p.column) == SeenValue(t, blob)
  }

  lemma InterfereDrawn(w: World, n: nat)
    ensures Interfere(w.(drawn := n)) == Interfere(w).(drawn := n)
  {
    if w.pending != [] {
      RecordAllDrawn(w.(pending := w.pending[1..]), w.pending[0].ops, n);
    }
  }

  lemma {:induction false} RecordAllDrawn(w: World, ops: seq<Op>, n: nat)
    ensures RecordAll(w.(drawn := n), ops) == RecordAll(w, ops).(drawn := n)
    decreases |ops|
  {
    if ops != [] {
      RecordAllDrawn(Record(w, Entry(false, ops[0], true)), ops[1..], n);
    }
  }

  /** The counts after one text. */
  predicate Counts(sum: Summary, sum2: Summary, reencrypted: bool, skipped: bool, failed: bool) {
    sum2 == Summary(sum.scanned + 1, sum.reencrypted + (if reencrypted then 1 else 0),
                    sum.skipped + (if skipped then 1 else 0), sum.failed + (if failed then 1 else 0))
  }

  /**
   * `processBlob`: a text fails exactly when it is not fine or its update errs; it
   * is re-encrypted exactly when it is an older envelope that opens and is still in
   * its place; and it is skipped exactly when it is up to date or its update lost.
   */
  lemma BlobCounted(s: Keyring, w: World, sum: Summary, blob: string, t: Target, allowDaemon: bool)
    requires Lawful(s) && (t.Sealed? ==> SealedMember in t.members && t.members[SealedMember] == Str(blob))
    ensures var rotates, present, calm := Rotatable(s, blob), Present(w, t, blob), NextFault(w) == NoFault;
            Counts(sum, ProcessBlob(s, w, sum, blob, t, allowDaemon).1,
                   rotates && calm && present,
                   UpToDate(s, blob, allowDaemon) || (rotates && calm && !present),
                   !TextFine(s, blob, allowDaemon) || (rotates && !calm))
  {
    if Rotatable(s, blob) {
      InterfereDrawn(w, w.drawn + 1);
      var plaintext := s.decrypt(blob).value;
      assert ProcessBlob(s, w, sum, blob, t, allowDaemon)
             == Exchange(s, w, sum.(scanned := sum.scanned + 1), blob, t, plaintext);
    }
  }

  // ---------------------------------------------------------------- one JSON row

  /** A member that the sweep looks at: a text that is not empty. */
  predicate HasText(members: map<Name, Member>, key: Name) {
    key in members && members[key].Str? && members[key].text != ""
  }

  predicate MemberFine(s: Keyring, members: map<Name, Member>, key: Name) {
    HasText(members, key) ==> TextFine(s, members[key].text, false)
  }

  predicate MemberRotates(s: Keyring, members: map<Name, Member>, key: Name) {
    HasText(members, key) && Rotatable(s, members[key].text)
  }

  predicate MemberCurrent(s: Keyring, members: map<Name, Member>, key: Name) {
    HasText(members, key) && s.version(members[key].text) == Some(s.current)
  }

  /** How many of the names have the property. */
  function Count(keys: seq<Name>, has: Name -> bool): nat {
    if keys == [] then 0 else (if has(keys[0]) then 1 else 0) + Count(keys[1..], has)
  }

  lemma KeyCounted(s: Keyring, p: Progress, key: Name)
    requires Lawful(s)
    ensures var q, m := ResealKey(s, p, key), p.members;
            && q.sum == Summary(p.sum.scanned + (if HasText(m, key) then 1 else 0), p.sum.reencrypted,
                                p.sum.skipped + (if MemberCurrent(s, m, key) then 1 else 0),
                                p.sum.failed + (if MemberFine(s, m, key) then 0 else 1))
            && q.resealed == p.resealed + (if MemberRotates(s, m, key) then 1 else 0)
            && (forall k :: k != key ==> (k in q.members <==> k in m) && (k in m ==> q.members[k] == m[k]))
  {
  }

  lemma {:induction false} CountSame(keys: seq<Name>, a: Name -> bool, b: Name -> bool)
    requires forall i :: 0 <= i < |keys| ==> a(keys[i]) == b(keys[i])
    ensures Count(keys, a) == Count(keys, b)
  {
    if keys != [] {
      CountSame(keys[1..], a, b);
    }
  }

  function WithText(m: map<Name, Member>): Name -> bool {
    (k: Name) => HasText(m, k)
  }

  function Failing(s: Keyring, m: map<Name, Member>): Name -> bool {
    (k: Name) => !MemberFine(s, m, k)
  }

  function Current(s: Keyring, m: map<Name, Member>): Name -> bool {
    (k: Name) => MemberCurrent(s, m, k)
  }

  function Rotating(s: Keyring, m: map<Name, Member>): Name -> bool {
    (k: Name) => MemberRotates(s, m, k)
  }

  /** The counts after some names, told from the members as they were before. */
  ghost predicate KeysCounted(s: Keyring, m: map<Name, Member>, p: Progress, keys: seq<Name>, q: Progress) {
    && q.sum == Summary(p.sum.scanned + Count(keys, WithText(m)), p.sum.reencrypted,
                        p.sum.skipped + Count(keys, Current(s, m)), p.sum.failed + Count(keys, Failing(s, m)))
    && q.resealed == p.resealed + Count(keys, Rotating(s, m))
  }

  lemma MembersSame(s: Keyring, m: map<Name, Member>, m2: map<Name, Member>, keys: seq<Name>)
    requires forall i :: 0 <= i < |keys| ==>
               (keys[i] in m <==> keys[i] in m2) && (keys[i] in m ==> m2[keys[i]] == m[keys[i]])
    ensures Count(keys, WithText(m)) == Count(keys, WithText(m2))
    ensures Count(keys, Current(s, m)) == Count(keys, Current(s, m2))
    ensures Count(keys, Failing(s, m)) == Count(keys, Failing(s, m2))
    ensures Count(keys, Rotating(s, m)) == Count(keys, Rotating(s, m2))
  {
    CountSame(keys, WithText(m), WithText(m2));
    CountSame(keys, Current(s, m), Current(s, m2));
    CountSame(keys, Failing(s, m), Failing(s, m2));
    CountSame(keys, Rotating(s, m), Rotating(s, m2));
  }

  lemma {:induction false} ResealKeysCounted(s: Keyring, p: Progress, keys: seq<Name>)
    requires Lawful(s) && S.Distinct(keys)
    ensures KeysCounted(s, p.members, p, keys, ResealKeys(s, p, keys))
    decreases |keys|
  {
    if keys != [] {
      KeyCounted(s, p, keys[0]);
      var p1, rest := ResealKey(s, p, keys[0]), keys[1..];
      forall i | 0 <= i < |rest| ensures rest[i] != keys[0] {
        assert rest[i] == keys[i + 1];
      }
      ResealKeysCounted(s, p1, rest);
      MembersSame(s, p.members, p1.members, rest);
    }
  }

  /**
   * A JSON row: each named text counts once. Those that are not fine fail, those of
   * the current version are skipped, and the older ones that open are all
   * re-encrypted, or, when the row has changed meanwhile, all skipped.
   */
  lemma KeyedCounted(s: Keyring, w: World, sum: Summary, key: Key, v: Value, keys: seq<Name>, m: map<Name, Member>)
    requires Lawful(s) && S.Distinct(keys) && v == Object(m)
    ensures var rotating := Count(keys, Rotating(s, m));
            var present := key in Interfere(w).rows && Interfere(w).rows[key].main == v;
            ProcessKeyed(s, w, sum, key, v, keys).1
            == Summary(sum.scanned + Count(keys, WithText(m)), sum.reencrypted + (if present then rotating else 0),
                       sum.skipped + Count(keys, Current(s, m)) + (if present then 0 else rotating),
                       sum.failed + Count(keys, Failing(s, m)))
  {
    var first := Progress(m, 0, w.drawn, sum);
    ResealKeysCounted(s, first, keys);
    InterfereDrawn(w, ResealKeys(s, first, keys).drawn);
  }

  // ---------------------------------------------------------------- fine databases

  /** The columns in which an envelope that a daemon sealed may stand. */
  predicate DaemonPlace(p: Place) {
    p.key.Key? && p.column == Main && p.key.table in {0, 1, 3, 4, 5, 6}
  }

  /** An empty signing secret, or an empty webhook, is no secret. */
  predicate MayBeEmpty(p: Place) {
    p.key == AlertWebhook || (p.key.Key? && p.key.table == 10 && p.column == Side)
  }

  predicate ValueFine(s: Keyring, p: Place, v: Value) {
    match KindOf(p)
    case Nothing => true
    case WholeText => v.Text? && !(v.text == "" && MayBeEmpty(p)) ==> TextFine(s, v.text, DaemonPlace(p))
    case Members(keys) => v.Object? ==> forall i :: 0 <= i < |keys| ==> MemberFine(s, v.members, keys[i])
  }

  predicate RowFine(s: Keyring, key: Key, row: Row) {
    && (!Exempt(Place(key, Main), row.marked) ==> ValueFine(s, Place(key, Main), row.main))
    && (!Exempt(Place(key, Side), row.marked) ==> ValueFine(s, Place(key, Side), row.side))
  }

  /** Every sealed place holds an envelope that is up to date or that the keyring can rotate. */
  predicate AllFine(s: Keyring, rows: Rows) {
    forall key :: key in rows ==> RowFine(s, key, rows[key])
  }

  /** The log grew by operations of the sweep only. */
  predicate OwnOnly(log: seq<Entry>, log2: seq<Entry>) {
    |log| <= |log2| && log2[..|log|] == log && forall i :: |log| <= i < |log2| ==> log2[i].own
  }

  /** A quiet step: nothing but own operations, fine rows stay fine, and if what was read was fine nothing fails. */
  ghost predicate Smooth(s: Keyring, w: World, sum: Summary, x: (World, Summary), fine: bool) {
    && x.0.pending == [] && OwnOnly(w.log, x.0.log)
    && (AllFine(s, w.rows) ==> AllFine(s, x.0.rows))
    && (fine ==> x.1.failed == sum.failed)
  }

  lemma SmoothStays(s: Keyring, w: World, w2: World, sum: Summary, sum2: Summary, fine: bool)
    requires w.pending == [] && w2.pending == [] && w2.rows == w.rows && w2.log == w.log
    requires fine ==> sum2.failed == sum.failed
    ensures Smooth(s, w, sum, (w2, sum2), fine)
  {
  }

  lemma SmoothTransitive(s: Keyring, w: World, sum: Summary, x: (World, Summary), y: (World, Summary), a: bool, b: bool)
    requires Smooth(s, w, sum, x, a) && Smooth(s, x.0, x.1, y, b)
    ensures Smooth(s, w, sum, y, a && b)
  {
    forall i | |w.log| <= i < |y.0.log| ensures y.0.log[i].own {
      if i < |x.0.log| {
        assert y.0.log[i] == y.0.log[..|x.0.log|][i];
      }
    }
    assert y.0.log[..|w.log|] == y.0.log[..|x.0.log|][..|w.log|];
  }

  /** A value stored at a place of a row. */
  lemma StoredFine(s: Keyring, rows: Rows, p: Place, v: Value)
    requires AllFine(s, rows) && p.key in rows && ValueFine(s, p, v)
    ensures AllFine(s, rows[p.key := rows[p.key].Store(p.column, v)])
  {
  }

  lemma OwnSwapFine(s: Keyring, w: World, e: Entry, p: Place)
    requires w.pending == [] && e.own && e.op.Swap? && e.op.key == p.key && e.op.column == p.column
    requires Hits(w.rows, e.op) && AllFine(s, w.rows) ==> ValueFine(s, p, e.op.next)
    ensures Record(w, e).pending == [] && OwnOnly(w.log, Record(w, e).log)
    ensures AllFine(s, w.rows) ==> AllFine(s, Record(w, e).rows)
  {
    if Hits(w.rows, e.op) && AllFine(s, w.rows) {
      StoredFine(s, w.rows, p, e.op.next);
    }
  }

  lemma SealedIsCurrent(s: Keyring, draw: nat, plaintext: string)
    requires Lawful(s)
    ensures s.version(s.encrypt(draw, plaintext)) == Some(s.current) && s.encrypt(draw, plaintext) != ""
  {
  }

  lemma SwapForFine(s: Keyring, rows: Rows, t: Target, blob: string, draw: nat, plaintext: string)
    requires Lawful(s) && Faces(t, blob, KindOf(TargetPlace(t)))
    ensures var op := SwapFor(t, blob, s.encrypt(draw, plaintext));
            Hits(rows, op) && AllFine(s, rows) ==> ValueFine(s, TargetPlace(t), op.next)
  {
    SealedIsCurrent(s, draw, plaintext);
  }

  lemma BlobSmooth(s: Keyring, w: World, sum: Summary, blob: string, t: Target, allowDaemon: bool)
    requires Lawful(s) && w.pending == [] && Faces(t, blob, KindOf(TargetPlace(t)))
    ensures Smooth(s, w, sum, ProcessBlob(s, w, sum, blob, t, allowDaemon), TextFine(s, blob, allowDaemon))
  {
    BlobCounted(s, w, sum, blob, t, allowDaemon);
    var x := ProcessBlob(s, w, sum, blob, t, allowDaemon);
    if Rotatable(s, blob) {
      var op := SwapFor(t, blob, s.encrypt(w.drawn, s.decrypt(blob).value));
      var w1 := w.(drawn := w.drawn + 1);
      SwapForFine(s, w.rows, t, blob, w.drawn, s.decrypt(blob).value);
      OwnSwapFine(s, w1, Entry(true, op, true), TargetPlace(t));
      assert x.0 == Record(w1, Entry(true, op, true));
    } else {
      SmoothStays(s, w, x.0, sum, x.1, TextFine(s, blob, allowDaemon));
    }
  }

  lemma CellSmooth(s: Keyring, w: World, sum: Summary, key: Key, column: Column, v: Value, allowDaemon: bool)
    requires Lawful(s) && w.pending == [] && KindOf(Place(key, column)) == WholeText
    ensures Smooth(s, w, sum, ProcessCell(s, w, sum, key, column, v, allowDaemon),
                   v.Text? ==> TextFine(s, v.text, allowDaemon))
  {
    if v.Text? {
      BlobSmooth(s, w, sum, v.text, Target.Cell(key, column), allowDaemon);
    } else {
      SmoothStays(s, w, w, sum, sum, true);
    }
  }

  lemma {:induction false} CountNone(keys: seq<Name>, has: Name -> bool)
    requires forall i :: 0 <= i < |keys| ==> !has(keys[i])
    ensures Count(keys, has) == 0
  {
    if keys != [] {
      CountNone(keys[1..], has);
    }
  }

  predicate MembersFine(s: Keyring, m: map<Name, Member>, keys: seq<Name>) {
    forall i :: 0 <= i < |keys| ==> MemberFine(s, m, keys[i])
  }

  lemma {:induction false} ResealKeysFine(s: Keyring, p: Progress, keys: seq<Name>, names: seq<Name>)
    requires Lawful(s) && MembersFine(s, p.members, names)
    ensures MembersFine(s, ResealKeys(s, p, keys).members, names)
    decreases |keys|
  {
    if keys != [] {
      var p1 := ResealKey(s, p, keys[0]);
      forall i | 0 <= i < |names| ensures MemberFine(s, p1.members, names[i]) {
        assert MemberFine(s, p.members, names[i]);
      }
      ResealKeysFine(s, p1, keys[1..], names);
    }
  }

  lemma KeyedSmooth(s: Keyring, w: World, sum: Summary, key: Key, v: Value, keys: seq<Name>)
    requires Lawful(s) && w.pending == [] && KindOf(Place(key, Main)) == Members(keys) && S.Distinct(keys)
    ensures Smooth(s, w, sum, ProcessKeyed(s, w, sum, key, v, keys), v.Object? ==> MembersFine(s, v.members, keys))
  {
    var x := ProcessKeyed(s, w, sum, key, v, keys);
    if v.Object? {
      var first := Progress(v.members, 0, w.drawn, sum);
      var q := ResealKeys(s, first, keys);
      KeyedCounted(s, w, sum, key, v, keys, v.members);
      if MembersFine(s, v.members, keys) {
        CountNone(keys, Failing(s, v.members));
      }
      if q.resealed == 0 {
        SmoothStays(s, w, x.0, sum, x.1, MembersFine(s, v.members, keys));
      } else {
        var w1, e := w.(drawn := q.drawn), Entry(true, Swap(key, Main, v, Object(q.members)), true);
        if Hits(w1.rows, e.op) && AllFine(s, w1.rows) {
          assert RowFine(s, key, w1.rows[key]);
          MembersRow(s, key, v, keys);
          ResealKeysFine(s, first, keys, keys);
        }
        OwnSwapFine(s, w1, e, Place(key, Main));
      }
    } else {
      SmoothStays(s, w, w, sum, sum, true);
    }
  }

  lemma MembersRow(s: Keyring, key: Key, v: Value, keys: seq<Name>)
    requires KindOf(Place(key, Main)) == Members(keys) && v.Object?
    ensures ValueFine(s, Place(key, Main), v) <==> MembersFine(s, v.members, keys)
    ensures forall marked :: !Exempt(Place(key, Main), marked)
  {
  }

  // ---------------------------------------------------------------- rows, pages and settings

  lemma SmoothWhen(s: Keyring, w: World, sum: Summary, x: (World, Summary), a: bool, b: bool)
    requires Smooth(s, w, sum, x, a) && (b ==> a)
    ensures Smooth(s, w, sum, x, b)
  {
  }

  lemma ChannelSmooth(s: Keyring, w: World, sum: Summary, key: Key, row: Row)
    requires Lawful(s) && w.pending == [] && key.Key? && key.table == 10
    ensures Smooth(s, w, sum, ProcessChannel(s, w, sum, key, row), RowFine(s, key, row))
  {
    var x := ChannelAddress(s, w, sum, key, row);
    var y := ChannelSecret(s, x.0, x.1, key, row);
    var fine := RowFine(s, key, row);
    if row.marked {
      CellSmooth(s, w, sum, key, Main, row.main, false);
      SmoothWhen(s, w, sum, x, row.main.Text? ==> TextFine(s, row.main.text, false), fine);
    } else {
      SmoothStays(s, w, w, sum, sum, fine);
    }
    if row.side != Text("") {
      CellSmooth(s, x.0, x.1, key, Side, row.side, false);
      SmoothWhen(s, x.0, x.1, y, row.side.Text? ==> TextFine(s, row.side.text, false), fine);
    } else {
      SmoothStays(s, x.0, x.0, x.1, x.1, fine);
    }
    SmoothTransitive(s, w, sum, x, y, fine, fine);
  }

  lemma ForgeKeysDiffer()
    ensures S.Distinct(FORGE_KEYS) && S.Distinct(GITCONNECTION_KEYS)
    ensures S.Distinct(AUTH_PROVIDER_KEYS) && S.Distinct(EMAIL_KEYS)
  {
  }

  lemma RowSmooth(s: Keyring, w: World, sum: Summary, stage: TableStage, id: Id, row: Row)
    requires Lawful(s) && w.pending == [] && Matches(stage, row)
    ensures Smooth(s, w, sum, ProcessRow(s, w, sum, stage, id, row), RowFine(s, Key(stage, id), row))
  {
    var key := Key(stage, id);
    var w1 := w.(visits := w.visits + [key]);
    var x := ProcessRow(s, w, sum, stage, id, row);
    match ShapeOf(stage)
    case Single(allowDaemon) =>
      CellSmooth(s, w1, sum, key, Main, row.main, allowDaemon);
      assert allowDaemon == DaemonPlace(Place(key, Main));
      SmoothWhen(s, w1, sum, x, row.main.Text? ==> TextFine(s, row.main.text, allowDaemon), RowFine(s, key, row));
    case Keyed(keys) =>
      ForgeKeysDiffer();
      KeyedSmooth(s, w1, sum, key, row.main, keys);
      SmoothWhen(s, w1, sum, x, row.main.Object? ==> MembersFine(s, row.main.members, keys), RowFine(s, key, row));
    case Channel => ChannelSmooth(s, w1, sum, key, row);
  }

  predicate PageFine(s: Keyring, stage: TableStage, page: seq<Listed>) {
    forall i :: 0 <= i < |page| ==> RowFine(s, Key(stage, page[i].id), page[i].row)
  }

  lemma {:induction false} RowsSmooth(s: Keyring, w: World, sum: Summary, stage: TableStage, page: seq<Listed>)
    requires Lawful(s) && w.pending == [] && forall i :: 0 <= i < |page| ==> Matches(stage, page[i].row)
    ensures Smooth(s, w, sum, ProcessRows(s, w, sum, stage, page), PageFine(s, stage, page))
    decreases |page|
  {
    if page != [] {
      var x := ProcessRow(s, w, sum, stage, page[0].id, page[0].row);
      RowSmooth(s, w, sum, stage, page[0].id, page[0].row);
      RowsUnfold(s, w, sum, stage, page, x);
      RowsSmooth(s, x.0, x.1, stage, page[1..]);
      var first, rest := RowFine(s, Key(stage, page[0].id), page[0].row), PageFine(s, stage, page[1..]);
      SmoothTransitive(s, w, sum, x, ProcessRows(s, w, sum, stage, page), first, rest);
      SmoothWhen(s, w, sum, ProcessRows(s, w, sum, stage, page), first && rest, PageFine(s, stage, page));
    } else {
      SmoothStays(s, w, w, sum, sum, true);
    }
  }

  lemma SealedSmooth(s: Keyring, w: World, sum: Summary, key: Key)
    requires Lawful(s) && w.pending == [] && (key == PanelIdentity || key == AcmeAccount)
    ensures Smooth(s, w, sum, SweepSealedSetting(s, w, sum, key), AllFine(s, w.rows))
  {
    var v := SettingValue(w.rows, key);
    if HasSealed(v) {
      var text := v.members[SealedMember].text;
      BlobSmooth(s, w, sum, text, Sealed(key, v.members), false);
      if AllFine(s, w.rows) {
        assert RowFine(s, key, w.rows[key]);
        assert KindOf(Place(key, Main)).keys[0] == SealedMember;
        assert MemberFine(s, v.members, SealedMember);
      }
      SmoothWhen(s, w, sum, SweepSealedSetting(s, w, sum, key), TextFine(s, text, false), AllFine(s, w.rows));
    } else {
      SmoothStays(s, w, w, sum, sum, true);
    }
  }

  lemma KeyedSettingSmooth(s: Keyring, w: World, sum: Summary, key: Key, keys: seq<Name>)
    requires Lawful(s) && w.pending == [] && KindOf(Place(key, Main)) == Members(keys) && S.Distinct(keys)
    ensures Smooth(s, w, sum, SweepKeyedSetting(s, w, sum, key, keys), AllFine(s, w.rows))
  {
    var v := SettingValue(w.rows, key);
    KeyedSmooth(s, w, sum, key, v, keys);
    if AllFine(s, w.rows) && v.Object? {
      assert RowFine(s, key, w.rows[key]);
      MembersRow(s, key, v, keys);
    }
    SmoothWhen(s, w, sum, SweepKeyedSetting(s, w, sum, key, keys), v.Object? ==> MembersFine(s, v.members, keys),
               AllFine(s, w.rows));
  }

  lemma TextSettingSmooth(s: Keyring, w: World, sum: Summary)
    requires Lawful(s) && w.pending == []
    ensures Smooth(s, w, sum, SweepTextSetting(s, w, sum, AlertWebhook), AllFine(s, w.rows))
  {
    var v := SettingValue(w.rows, AlertWebhook);
    if v.Text? && v.text != "" {
      BlobSmooth(s, w, sum, v.text, Target.Cell(AlertWebhook, Main), false);
      if AllFine(s, w.rows) {
        assert RowFine(s, AlertWebhook, w.rows[AlertWebhook]);
      }
      SmoothWhen(s, w, sum, SweepTextSetting(s, w, sum, AlertWebhook), TextFine(s, v.text, false), AllFine(s, w.rows));
    } else {
      SmoothStays(s, w, w, sum, sum, true);
    }
  }

  lemma SettingsSmooth(s: Keyring, w: World, sum: Summary, stage: Stage)
    requires Lawful(s) && w.pending == [] && stage >= TABLE_STAGES
    ensures Smooth(s, w, sum, SweepSettings(s, w, sum, stage), AllFine(s, w.rows))
  {
    ForgeKeysDiffer();
    if stage == 15 {
      KeyedSettingSmooth(s, w, sum, AuthProviders, AUTH_PROVIDER_KEYS);
    } else if stage == 16 {
      KeyedSettingSmooth(s, w, sum, Email, EMAIL_KEYS);
    } else if stage == 17 {
      TextSettingSmooth(s, w, sum);
    } else {
      var x := SweepSealedSetting(s, w, sum, PanelIdentity);
      var y := SweepSealedSetting(s, x.0, x.1, AcmeAccount);
      SealedSmooth(s, w, sum, PanelIdentity);
      SealedSmooth(s, x.0, x.1, AcmeAccount);
      SmoothTransitive(s, w, sum, x, y, AllFine(s, w.rows), AllFine(s, x.0.rows));
      SmoothWhen(s, w, sum, y, AllFine(s, w.rows) && AllFine(s, x.0.rows), AllFine(s, w.rows));
    }
  }

  // ---------------------------------------------------------------- calls and sessions

  lemma PageRowsFine(s: Keyring, rows: Rows, stage: TableStage, after: Option<string>, limit: nat)
    requires AllFine(s, rows)
    ensures PageFine(s, stage, Page(rows, stage, after, limit))
  {
    PageIsRead(rows, stage, after, limit);
  }

  lemma StageSmooth(s: Keyring, w: World, c: Cursor, n: nat, sum: Summary)
    requires Lawful(s) && w.pending == [] && n > 0
    ensures var b := RunStage(s, w, c, n, sum); Smooth(s, w, sum, (b.0, SumOf(b.2)), AllFine(s, w.rows))
  {
    if c.stage >= TABLE_STAGES {
      SettingsSmooth(s, w, sum, c.stage);
    } else {
      var page := Page(w.rows, c.stage, c.afterId, n);
      if AllFine(s, w.rows) {
        PageRowsFine(s, w.rows, c.stage, c.afterId, n);
      }
      I.PageMatches(w.rows, c.stage, c.afterId, n);
      RowsSmooth(s, w, sum, c.stage, page);
      SmoothWhen(s, w, sum, ProcessRows(s, w, sum, c.stage, page), PageFine(s, c.stage, page), AllFine(s, w.rows));
    }
  }

  ghost function StaysSmooth(s: Keyring): Claim {
    (w: World, c: Cursor, n: nat, sum: Summary, x: (World, Result), looked: seq<Read>) =>
      w.pending == [] ==> Smooth(s, w, sum, (x.0, x.1.sum), AllFine(s, w.rows))
  }

  lemma SmoothOn(s: Keyring, w: World, sum: Summary, x: (World, Summary), y: (World, Summary))
    requires Smooth(s, w, sum, x, AllFine(s, w.rows)) && Smooth(s, x.0, x.1, y, AllFine(s, x.0.rows))
    ensures Smooth(s, w, sum, y, AllFine(s, w.rows))
  {
    SmoothTransitive(s, w, sum, x, y, AllFine(s, w.rows), AllFine(s, x.0.rows));
    SmoothWhen(s, w, sum, y, AllFine(s, w.rows) && AllFine(s, x.0.rows), AllFine(s, w.rows));
  }

  lemma SmoothPasses(s: Keyring, w: World, c: Cursor, n: nat, sum: Summary, b: (World, nat, BatchOutcome),
                     looked: seq<Read>)
    requires b.1 <= n && (w.pending == [] ==> Smooth(s, w, sum, (b.0, SumOf(b.2)), AllFine(s, w.rows)))
    ensures Passes(StaysSmooth(s), w, c, n, sum, b, looked)
  {
    var p := StaysSmooth(s);
    if b.2.Continue? && w.pending == [] {
      forall x: (World, Result), more: seq<Read> | p(b.0, b.2.cursor, n - b.1, b.2.sum, x, more)
        ensures p(w, c, n, sum, x, looked + more)
      {
        SmoothOn(s, w, sum, (b.0, b.2.sum), (x.0, x.1.sum));
      }
    }
  }

  lemma AdvanceSmooth(s: Keyring, w: World, cursor: Cursor, remaining: nat, sum: Summary, x: (World, Result))
    requires Lawful(s) && w.pending == [] && remaining > 0 && x == Advance(s, w, cursor, remaining, sum)
    ensures Smooth(s, w, sum, (x.0, x.1.sum), AllFine(s, w.rows))
  {
    forall w: World, c: Cursor, n: nat, sum: Summary | n > 0
      ensures Passes(StaysSmooth(s), w, c, n, sum, RunStage(s, w, c, n, sum), StageReads(s, w, c, n, sum))
    {
      if w.pending == [] {
        StageSmooth(s, w, c, n, sum);
      }
      SmoothPasses(s, w, c, n, sum, RunStage(s, w, c, n, sum), StageReads(s, w, c, n, sum));
    }
    AdvanceInduction(s, StaysSmooth(s), w, cursor, remaining, sum);
  }

  ghost function SessionSmooth(s: Keyring): SessionClaim {
    (w: World, c: Cursor, limits: seq<nat>, sum: Summary, x: (World, Result), looked: seq<Read>) =>
      w.pending == [] ==> Smooth(s, w, sum, (x.0, x.1.sum), AllFine(s, w.rows))
  }

  lemma SmoothPlus(s: Keyring, w: World, sum: Summary, x: (World, Summary), fine: bool)
    requires Smooth(s, w, EMPTY_SUMMARY, x, fine)
    ensures Smooth(s, w, sum, (x.0, sum.Plus(x.1)), fine)
  {
  }

  lemma SmoothCarries(s: Keyring, w: World, c: Cursor, limits: seq<nat>, sum: Summary, x: (World, Result),
                      looked: seq<Read>)
    requires limits != []
    requires w.pending == [] ==> Smooth(s, w, EMPTY_SUMMARY, (x.0, x.1.sum), AllFine(s, w.rows))
    ensures Carries(SessionSmooth(s), w, c, limits, sum, x, looked)
  {
    var p := SessionSmooth(s);
    if w.pending == [] {
      SmoothPlus(s, w, sum, (x.0, x.1.sum), AllFine(s, w.rows));
      if x.1.cursor.Some? {
        var total := sum.Plus(x.1.sum);
        forall y: (World, Result), more: seq<Read> | p(x.0, x.1.cursor.value, limits[1..], total, y, more)
          ensures p(w, c, limits, sum, y, looked + more)
        {
          SmoothOn(s, w, sum, (x.0, total), (y.0, y.1.sum));
        }
      }
    }
  }

  /** A session on a quiet database. */
  lemma SessionIsSmooth(s: Keyring, w: World, cursor: Cursor, limits: seq<nat>, x: (World, Result))
    requires Lawful(s) && w.pending == [] && (forall i :: 0 <= i < |limits| ==> limits[i] > 0)
    requires x == Session(s, w, cursor, limits, EMPTY_SUMMARY)
    ensures Smooth(s, w, EMPTY_SUMMARY, (x.0, x.1.sum), AllFine(s, w.rows))
  {
    var p := SessionSmooth(s);
    forall w: World, c: Cursor, sum: Summary ensures p(w, c, [], sum, (w, Result(sum, false, Some(c))), []) {
      if w.pending == [] {
        SmoothStays(s, w, w, sum, sum, AllFine(s, w.rows));
      }
    }
    forall w: World, c: Cursor, ls: seq<nat>, sum: Summary | ls != [] && ls[0] > 0
      ensures Carries(p, w, c, ls, sum, Advance(s, w, c, ls[0], EMPTY_SUMMARY),
                      CallReads(s, w, c, ls[0], EMPTY_SUMMARY))
    {
      if w.pending == [] {
        AdvanceSmooth(s, w, c, ls[0], EMPTY_SUMMARY, Advance(s, w, c, ls[0], EMPTY_SUMMARY));
      }
      SmoothCarries(s, w, c, ls, sum, Advance(s, w, c, ls[0], EMPTY_SUMMARY), CallReads(s, w, c, ls[0], EMPTY_SUMMARY));
    }
    SessionInduction(s, p, w, cursor, limits, EMPTY_SUMMARY);
  }

  /**
   * On a quiet database in which every sealed place holds an envelope that is up
   * to date or that the keyring opens, nothing fails, and that stays so.
   */
  lemma FineSessionNeverFails(s: Keyring, w: World, cursor: Cursor, limits: seq<nat>, x: (World, Result))
    requires Lawful(s) && w.pending == [] && (forall i :: 0 <= i < |limits| ==> limits[i] > 0)
    requires x == Session(s, w, cursor, limits, EMPTY_SUMMARY) && AllFine(s, w.rows)
    ensures x.1.sum.failed == 0 && AllFine(s, x.0.rows) && x.0.pending == []
  {
    SessionIsSmooth(s, w, cursor, limits, x);
  }
}
