/**
 * The at-rest re-encryption sweep as a function of the database it meets.
 *
 * A `World` holds the rows and the interference still to come: before each
 * database operation of the sweep, the next `Turn` of other writers' operations
 * takes effect. Any finite run against any concurrent activity, other sweeps
 * included, is one such list; the empty list is a quiet database.
 */
module SweepModel {
  import opened Strings
  import opened Envelopes

  // ---------------------------------------------------------------- stages

  const STAGES: seq<string> := [
    "variables", "tls", "certificates", "principals", "logins", "storage", "secrets", "forge",
    "gitconnection", "twofactor", "notifications", "monitors", "relays", "destinations", "ingress",
    "authproviders", "email", "alertwebhook", "identity"]

  const STAGE_COUNT: nat := 19
  const TABLE_STAGES: nat := 15

  type Stage = n: nat | n < STAGE_COUNT
  type TableStage = n: nat | n < TABLE_STAGES

  /** Names of JSON members: those the sweep looks for, and any other. */
  datatype Name =
    | PrivateKeyEnvelope | ClientSecretEnvelope | WebhookSecretEnvelope
    | AccessTokenEnvelope | RefreshTokenEnvelope
    | GithubClientSecret | GoogleClientSecret
    | MailgunApiKey | SmtpPass
    | SealedMember
    | OtherMember(text: string)

  /** How a table stage treats a row. */
  datatype Shape =
    | Single(allowDaemon: bool)  // one sealed column
    | Keyed(keys: seq<Name>)     // sealed members of one JSON column
    | Channel                    // `address` unless the kind is email, and `signing_secret`

  const FORGE_KEYS: seq<Name> := [PrivateKeyEnvelope, ClientSecretEnvelope, WebhookSecretEnvelope]
  const GITCONNECTION_KEYS: seq<Name> := [AccessTokenEnvelope, RefreshTokenEnvelope]
  const AUTH_PROVIDER_KEYS: seq<Name> := [GithubClientSecret, GoogleClientSecret]
  const EMAIL_KEYS: seq<Name> := [MailgunApiKey, SmtpPass]

  function ShapeOf(stage: TableStage): Shape {
    if stage == 7 then Keyed(FORGE_KEYS)
    else if stage == 8 then Keyed(GITCONNECTION_KEYS)
    else if stage == 10 then Channel
    else Single(stage in {0, 1, 3, 4, 5, 6})
  }

  // ---------------------------------------------------------------- rows

  /** A member of a JSON object: a string, or anything else. */
  datatype Member = Str(text: string) | Opaque(json: int)

  /** A column: null, text, a JSON object, or another JSON value. */
  datatype Value = Null | Text(text: string) | Object(members: map<Name, Member>) | Scalar(json: int)

  datatype Column = Main | Side

  /** `marked` is `variable.is_secret` and, for a channel, that its kind is not email. */
  datatype Row = Row(marked: bool, main: Value, side: Value) {
    function Cell(column: Column): Value {
      if column == Main then main else side
    }
    function Store(column: Column, v: Value): Row {
      if column == Main then this.(main := v) else this.(side := v)
    }
  }

  /** Row ids are UUID texts and setting keys are names: never empty. */
  type Id = s: string | s != "" witness "0"

  /** The settings rows that hold secrets, and any other. */
  datatype Key =
    | Key(table: TableStage, id: Id)
    | AuthProviders | Email | AlertWebhook | PanelIdentity | AcmeAccount
    | OtherSetting(name: string)

  type Rows = map<Key, Row>

  /** What any session may do to the database; the sweep itself only ever swaps. */
  datatype Op =
    | Put(key: Key, row: Row)
    | Delete(key: Key)
    | Assign(key: Key, column: Column, value: Value)
    | Swap(key: Key, column: Column, expected: Value, next: Value)

  predicate Hits(rows: Rows, op: Op) {
    match op
    case Swap(key, column, expected, next) => key in rows && rows[key].Cell(column) == expected
    case Assign(key, column, value) => key in rows
    case _ => true
  }

  function Apply(rows: Rows, op: Op): Rows {
    if !Hits(rows, op) then rows
    else
      match op
      case Put(key, row) => rows[key := row]
      case Delete(key) => rows - {key}
      case Assign(key, column, value) => rows[key := rows[key].Store(column, value)]
      case Swap(key, column, expected, next) => rows[key := rows[key].Store(column, next)]
  }

  // ---------------------------------------------------------------- interference

  /** What may go wrong with one swap: nothing, it never ran, or it ran and the reply was lost. */
  datatype Fault = NoFault | NotRun | ReplyLost

  datatype Turn = Turn(ops: seq<Op>, fault: Fault)

  /** One database operation as the log keeps it: whose it was, and whether its outcome was reported. */
  datatype Entry = Entry(own: bool, op: Op, heard: bool)

  /** `drawn` counts initialisation vectors used so far, `visits` the rows handed to the sweep. */
  datatype World = World(rows: Rows, pending: seq<Turn>, drawn: nat, log: seq<Entry>, visits: seq<Key>)

  function Record(w: World, e: Entry): World {
    w.(rows := Apply(w.rows, e.op), log := w.log + [e])
  }

  function RecordAll(w: World, ops: seq<Op>): World
    decreases |ops|
  {
    if ops == [] then w else RecordAll(Record(w, Entry(false, ops[0], true)), ops[1..])
  }

  /** Other sessions run up to the sweep's next database operation. */
  function Interfere(w: World): World {
    if w.pending == [] then w
    else RecordAll(w.(pending := w.pending[1..]), w.pending[0].ops)
  }

  function NextFault(w: World): Fault {
    if w.pending == [] then NoFault else w.pending[0].fault
  }

  datatype Outcome = Won | Lost | Errored

  /** A conditional update and what the sweep learns from it. */
  function TrySwap(w: World, op: Op): (World, Outcome)
    requires op.Swap?
  {
    var w1 := Interfere(w);
    match NextFault(w)
    case NoFault => (Record(w1, Entry(true, op, true)), if Hits(w1.rows, op) then Won else Lost)
    case NotRun => (w1, Errored)
    case ReplyLost => (Record(w1, Entry(true, op, false)), Errored)
  }

  /** A conditional update outside the per-blob error handler; a fault there ends the call and is not modelled. */
  function SureSwap(w: World, op: Op): (World, bool)
    requires op.Swap?
  {
    var w1 := Interfere(w);
    (Record(w1, Entry(true, op, true)), Hits(w1.rows, op))
  }

  // ---------------------------------------------------------------- one blob

  datatype Summary = Summary(scanned: nat, reencrypted: nat, skipped: nat, failed: nat) {
    function Plus(other: Summary): Summary {
      Summary(scanned + other.scanned, reencrypted + other.reencrypted,
              skipped + other.skipped, failed + other.failed)
    }
  }

  const EMPTY_SUMMARY := Summary(0, 0, 0, 0)

  datatype Verdict = Skip | Fail | Reseal

  /** `classifyBlobForSweep`; `Reseal` is its `null`. */
  function Classify(s: Keyring, blob: string, allowDaemon: bool): Verdict {
    if s.daemon(blob) then (if allowDaemon then Skip else Fail)
    else if s.daemonPrefixed(blob) then Fail
    else
      match s.version(blob)
      case Some(version) => if version == s.current then Skip else Reseal
      case None => Fail
  }

  /** Where a blob sits: a text column, or the `sealed` member of a JSON column. */
  datatype Target = Cell(key: Key, column: Column) | Sealed(key: Key, members: map<Name, Member>)

  /** The conditional update that puts `resealed` in the place of `blob`. */
  function SwapFor(target: Target, blob: string, resealed: string): (op: Op)
    ensures op.Swap?
  {
    match target
    case Cell(key, column) => Swap(key, column, Text(blob), Text(resealed))
    case Sealed(key, members) =>
      Swap(key, Main, Object(members), Object(members[SealedMember := Str(resealed)]))
  }

  function Settle(sum: Summary, outcome: Outcome): Summary {
    match outcome
    case Won => sum.(reencrypted := sum.reencrypted + 1)
    case Lost => sum.(skipped := sum.skipped + 1)
    case Errored => sum.(failed := sum.failed + 1)
  }

  /** Seal the plaintext afresh and try to put it in the blob's place. */
  function Exchange(s: Keyring, w: World, sum: Summary, blob: string, target: Target,
                    plaintext: string): (World, Summary) {
    var swapped := TrySwap(w.(drawn := w.drawn + 1), SwapFor(target, blob, s.encrypt(w.drawn, plaintext)));
    (swapped.0, Settle(sum, swapped.1))
  }

  /** `processBlob`. */
  function ProcessBlob(s: Keyring, w: World, sum: Summary, blob: string, target: Target,
                       allowDaemon: bool): (World, Summary) {
    var sum := sum.(scanned := sum.scanned + 1);
    match Classify(s, blob, allowDaemon)
    case Skip => (w, sum.(skipped := sum.skipped + 1))
    case Fail => (w, sum.(failed := sum.failed + 1))
    case Reseal =>
      match s.decrypt(blob)
      case None => (w, sum.(failed := sum.failed + 1))
      case Some(plaintext) => Exchange(s, w, sum, blob, target, plaintext)
  }

  // ---------------------------------------------------------------- one JSON row

  /** The members so far, how many were re-sealed, and the counts. */
  datatype Progress = Progress(members: map<Name, Member>, resealed: nat, drawn: nat, sum: Summary)

  function ResealKey(s: Keyring, p: Progress, key: Name): Progress {
    if key !in p.members || !p.members[key].Str? || p.members[key].text == "" then p
    else
      var text := p.members[key].text;
      var sum := p.sum.(scanned := p.sum.scanned + 1);
      match s.version(text)
      case None => p.(sum := sum.(failed := sum.failed + 1))
      case Some(version) =>
        if version == s.current then p.(sum := sum.(skipped := sum.skipped + 1))
        else
          match s.decrypt(text)
          case None => p.(sum := sum.(failed := sum.failed + 1))
          case Some(plaintext) =>
            Progress(p.members[key := Str(s.encrypt(p.drawn, plaintext))], p.resealed + 1, p.drawn + 1, sum)
  }

  function ResealKeys(s: Keyring, p: Progress, keys: seq<Name>): Progress
    decreases |keys|
  {
    if keys == [] then p else ResealKeys(s, ResealKey(s, p, keys[0]), keys[1..])
  }

  /** `resealJsonbEnvelopeRow`, and the two settings rows handled the same way. */
  function ProcessKeyed(s: Keyring, w: World, sum: Summary, key: Key, v: Value, keys: seq<Name>): (World, Summary) {
    if !v.Object? then (w, sum)
    else
      var p := ResealKeys(s, Progress(v.members, 0, w.drawn, sum), keys);
      if p.resealed == 0 then (w, p.sum)
      else
        var (w2, won) := SureSwap(w.(drawn := p.drawn), Swap(key, Main, v, Object(p.members)));
        (w2, if won then p.sum.(reencrypted := p.sum.reencrypted + p.resealed)
             else p.sum.(skipped := p.sum.skipped + p.resealed))
  }

  // ---------------------------------------------------------------- one row, one page

  /** The row filter of the stage's page query. */
  predicate Matches(stage: TableStage, row: Row) {
    if stage == 0 then row.marked
    else if stage in {2, 7, 10, 11, 13, 14} then true
    else row.main != Null
  }

  function ProcessCell(s: Keyring, w: World, sum: Summary, key: Key, column: Column, v: Value,
                       allowDaemon: bool): (World, Summary) {
    if v.Text? then ProcessBlob(s, w, sum, v.text, Target.Cell(key, column), allowDaemon) else (w, sum)
  }

  function ProcessChannel(s: Keyring, w: World, sum: Summary, key: Key, row: Row): (World, Summary) {
    var (w1, sum1) := if row.marked then ProcessCell(s, w, sum, key, Main, row.main, false) else (w, sum);
    if row.side == Text("") then (w1, sum1) else ProcessCell(s, w1, sum1, key, Side, row.side, false)
  }

  function ProcessRow(s: Keyring, w: World, sum: Summary, stage: TableStage, id: Id, row: Row): (World, Summary) {
    var key := Key(stage, id);
    var w1 := w.(visits := w.visits + [key]);
    match ShapeOf(stage)
    case Single(allowDaemon) => ProcessCell(s, w1, sum, key, Main, row.main, allowDaemon)
    case Keyed(keys) => ProcessKeyed(s, w1, sum, key, row.main, keys)
    case Channel => ProcessChannel(s, w1, sum, key, row)
  }

  datatype Listed = Listed(id: Id, row: Row)

  function ProcessRows(s: Keyring, w: World, sum: Summary, stage: TableStage, page: seq<Listed>): (World, Summary)
    decreases |page|
  {
    if page == [] then (w, sum)
    else
      var (w1, sum1) := ProcessRow(s, w, sum, stage, page[0].id, page[0].row);
      ProcessRows(s, w1, sum1, stage, page[1..])
  }

  /** Ids of the matching rows beyond the cursor. */
  function Candidates(rows: Rows, stage: TableStage, after: Option<string>): set<Id> {
    set k | k in rows && k.Key? && k.table == stage && Matches(stage, rows[k])
      && (after.None? || Less(after.value, k.id)) :: k.id
  }

  predicate IsLeast(ids: set<Id>, m: Id) {
    m in ids && forall x :: x in ids ==> x == m || Less(m, x)
  }

  lemma {:induction false} LeastExists(ids: set<Id>)
    requires ids != {}
    ensures exists m: Id :: IsLeast(ids, m)
    decreases |ids|
  {
    var y :| y in ids;
    var rest := ids - {y};
    if rest == {} {
      assert ids == rest + {y};
      assert IsLeast(ids, y);
    } else {
      LeastExists(rest);
      var m: Id :| IsLeast(rest, m);
      LessTotal(y, m);
      if Less(y, m) {
        forall x | x in ids ensures x == y || Less(y, x) {
          if x != y && x != m { LessTransitive(y, m, x); }
        }
        assert IsLeast(ids, y);
      } else {
        assert IsLeast(ids, m);
      }
    }
  }

  lemma LeastUnique(ids: set<Id>, m: Id, n: Id)
    requires IsLeast(ids, m) && IsLeast(ids, n)
    ensures m == n
  {
    if m != n {
      LessAsymmetric(m, n);
    }
  }

  function Least(ids: set<Id>): (m: Id)
    requires ids != {}
    ensures IsLeast(ids, m)
  {
    LeastExists(ids);
    assert forall m: Id, n: Id :: IsLeast(ids, m) && IsLeast(ids, n) ==> m == n by {
      forall m: Id, n: Id | IsLeast(ids, m) && IsLeast(ids, n) ensures m == n { LeastUnique(ids, m, n); }
    }
    var m: Id :| IsLeast(ids, m);
    m
  }

  /** The ids in ascending order. */
  function Ascending(ids: set<Id>): (s: seq<Id>)
    decreases |ids|
  {
    if ids == {} then [] else [Least(ids)] + Ascending(ids - {Least(ids)})
  }

  function Take<T>(s: seq<T>, n: nat): seq<T> {
    if n <= |s| then s[..n] else s
  }

  function List(rows: Rows, stage: TableStage, ids: seq<Id>): seq<Listed>
    requires forall i :: 0 <= i < |ids| ==> Key(stage, ids[i]) in rows
  {
    seq(|ids|, i requires 0 <= i < |ids| => Listed(ids[i], rows[Key(stage, ids[i])]))
  }

  lemma {:induction false} AscendingHas(ids: set<Id>)
    ensures |Ascending(ids)| == |ids|
    ensures forall x :: x in Ascending(ids) <==> x in ids
    decreases |ids|
  {
    if ids != {} {
      AscendingHas(ids - {Least(ids)});
    }
  }

  lemma {:induction false} AscendingSorted(ids: set<Id>)
    ensures forall i, j :: 0 <= i < j < |Ascending(ids)| ==> Less(Ascending(ids)[i], Ascending(ids)[j])
    decreases |ids|
  {
    if ids != {} {
      var rest := ids - {Least(ids)};
      AscendingSorted(rest);
      AscendingHas(rest);
      forall i, j | 0 <= i < j < |Ascending(ids)| ensures Less(Ascending(ids)[i], Ascending(ids)[j]) {
        assert Ascending(ids)[j] == Ascending(rest)[j - 1] && Ascending(rest)[j - 1] in rest;
      }
    }
  }

  /** The page query: the first `limit` matching rows past the cursor, in id order. */
  function Page(rows: Rows, stage: TableStage, after: Option<string>, limit: nat): seq<Listed> {
    var ids := Ascending(Candidates(rows, stage, after));
    AscendingHas(Candidates(rows, stage, after));
    assert forall i :: 0 <= i < |ids| ==> ids[i] in Candidates(rows, stage, after);
    List(rows, stage, Take(ids, limit))
  }

  // ---------------------------------------------------------------- settings rows

  function SettingValue(rows: Rows, key: Key): Value {
    if key in rows then rows[key].main else Null
  }

  function SweepKeyedSetting(s: Keyring, w: World, sum: Summary, key: Key, keys: seq<Name>): (World, Summary) {
    var w1 := Interfere(w);
    ProcessKeyed(s, w1, sum, key, SettingValue(w1.rows, key), keys)
  }

  function SweepTextSetting(s: Keyring, w: World, sum: Summary, key: Key): (World, Summary) {
    var w1 := Interfere(w);
    var v := SettingValue(w1.rows, key);
    if v.Text? && v.text != "" then ProcessBlob(s, w1, sum, v.text, Target.Cell(key, Main), false) else (w1, sum)
  }

  predicate HasSealed(v: Value) {
    v.Object? && SealedMember in v.members && v.members[SealedMember].Str? && v.members[SealedMember].text != ""
  }

  function SweepSealedSetting(s: Keyring, w: World, sum: Summary, key: Key): (World, Summary) {
    var w1 := Interfere(w);
    var v := SettingValue(w1.rows, key);
    if HasSealed(v)
    then ProcessBlob(s, w1, sum, v.members[SealedMember].text, Sealed(key, v.members), false)
    else (w1, sum)
  }

  function SweepSettings(s: Keyring, w: World, sum: Summary, stage: Stage): (World, Summary)
    requires stage >= TABLE_STAGES
  {
    if stage == 15 then SweepKeyedSetting(s, w, sum, AuthProviders, AUTH_PROVIDER_KEYS)
    else if stage == 16 then SweepKeyedSetting(s, w, sum, Email, EMAIL_KEYS)
    else if stage == 17 then SweepTextSetting(s, w, sum, AlertWebhook)
    else
      var (w1, sum1) := SweepSealedSetting(s, w, sum, PanelIdentity);
      SweepSealedSetting(s, w1, sum1, AcmeAccount)
  }

  // ---------------------------------------------------------------- one call

  datatype Cursor = Cursor(stage: Stage, afterId: Option<string>)

  const START := Cursor(0, None)

  /** A cursor as a caller hands it over. */
  datatype WireCursor = WireCursor(stage: string, afterId: Option<string>)

  function NextStage(stage: Stage): Option<Stage> {
    if stage >= STAGE_COUNT - 1 then None else Some(stage + 1)
  }

  /** An empty id counts as absent, as every truthiness test on it does. */
  function Truthy(id: Option<string>): Option<string> {
    if id == Some("") then None else id
  }

  function StageIndex(name: string, from: nat): (r: Option<Stage>)
    requires from <= STAGE_COUNT
    ensures r.Some? ==> STAGES[r.value] == name
    ensures r.None? ==> name !in STAGES[from..]
    decreases STAGE_COUNT - from
  {
    if from == STAGE_COUNT then None
    else if STAGES[from] == name then Some(from)
    else StageIndex(name, from + 1)
  }

  function NormalizeCursor(cursor: Option<WireCursor>): Cursor {
    if cursor.None? then START
    else
      match StageIndex(cursor.value.stage, 0)
      case None => START
      case Some(stage) => Cursor(stage, Truthy(cursor.value.afterId))
  }

  function ToWire(cursor: Cursor): WireCursor {
    WireCursor(STAGES[cursor.stage], cursor.afterId)
  }

  datatype Result = Result(sum: Summary, completed: bool, cursor: Option<Cursor>)

  datatype BatchOutcome = Continue(cursor: Cursor, sum: Summary) | Done(result: Result)

  function SumOf(outcome: BatchOutcome): Summary {
    match outcome
    case Continue(_, sum) => sum
    case Done(r) => r.sum
  }

  /** `resolveBatchOutcome`. */
  function ResolveBatch(sum: Summary, cursor: Cursor, pageSize: nat, lastId: Option<Id>, requested: nat): BatchOutcome {
    if pageSize == 0 || pageSize < requested then
      match NextStage(cursor.stage)
      case None => Done(Result(sum, true, None))
      case Some(stage) => Continue(Cursor(stage, None), sum)
    else
      Done(Result(sum, false, Some(Cursor(cursor.stage, Truthy(lastId)))))
  }

  function LastId(page: seq<Listed>): Option<Id> {
    if page == [] then None else Some(page[|page| - 1].id)
  }

  /** One page of a table stage: the world after it, the rows examined, and how to go on. */
  function RunBatch(s: Keyring, w: World, cursor: Cursor, remaining: nat, sum: Summary): (b: (World, nat, BatchOutcome))
    requires remaining > 0 && cursor.stage < TABLE_STAGES
    ensures b.1 <= remaining
    ensures b.2.Continue? ==> b.1 < remaining && b.2.cursor == Cursor(cursor.stage + 1, None)
  {
    var w1 := Interfere(w);
    var page := Page(w1.rows, cursor.stage, cursor.afterId, remaining);
    var (w2, sum2) := ProcessRows(s, w1, sum, cursor.stage, page);
    PageWithin(w1.rows, cursor.stage, cursor.afterId, remaining);
    (w2, |page|, ResolveBatch(sum2, cursor, |page|, LastId(page), remaining))
  }

  /** One turn of the loop of `reencryptAtRestSecrets`: a settings stage, or one page of a table stage. */
  function RunStage(s: Keyring, w: World, cursor: Cursor, remaining: nat, sum: Summary): (b: (World, nat, BatchOutcome))
    requires remaining > 0
    ensures b.1 <= remaining
    ensures b.2.Continue? ==>
              b.1 < remaining && cursor.stage + 1 < STAGE_COUNT && b.2.cursor == Cursor(cursor.stage + 1, None)
  {
    if cursor.stage >= TABLE_STAGES then
      var (w1, sum1) := SweepSettings(s, w, sum, cursor.stage);
      (w1, 0, if cursor.stage == STAGE_COUNT - 1 then Done(Result(sum1, true, None))
              else Continue(Cursor(cursor.stage + 1, None), sum1))
    else RunBatch(s, w, cursor, remaining, sum)
  }

  /** A step that stays within its budget and goes on, if at all, at the next stage with budget left. */
  ghost predicate Moves(step: (World, Cursor, nat, Summary) -> (World, nat, BatchOutcome)) {
    forall w: World, c: Cursor, n: nat, sum: Summary :: n > 0 ==> MovesAt(c, n, step(w, c, n, sum))
  }

  predicate MovesAt(c: Cursor, n: nat, b: (World, nat, BatchOutcome)) {
    b.1 <= n && (b.2.Continue? ==> b.1 < n && c.stage + 1 < STAGE_COUNT && b.2.cursor == Cursor(c.stage + 1, None))
  }

  type Step = step: (World, Cursor, nat, Summary) -> (World, nat, BatchOutcome) | Moves(step)
    witness (w, c, n, sum) => (w, 0, Done(Result(sum, true, None)))

  /** The loop of `reencryptAtRestSecrets` around any step, from a given position and budget. */
  function Drive(step: Step, w: World, cursor: Cursor, remaining: nat, sum: Summary): (World, Result)
    requires remaining > 0
    decreases STAGE_COUNT - cursor.stage
  {
    var b := step(w, cursor, remaining, sum);
    assert MovesAt(cursor, remaining, b);
    match b.2
    case Done(result) => (b.0, result)
    case Continue(next, sum1) => Drive(step, b.0, next, remaining - b.1, sum1)
  }

  function StepOf(s: Keyring): Step {
    (w: World, c: Cursor, n: nat, sum: Summary) =>
      if n > 0 then RunStage(s, w, c, n, sum) else (w, 0, Done(Result(sum, true, None)))
  }

  /** The loop of `reencryptAtRestSecrets`. */
  function Advance(s: Keyring, w: World, cursor: Cursor, remaining: nat, sum: Summary): (World, Result)
    requires remaining > 0
  {
    Drive(StepOf(s), w, cursor, remaining, sum)
  }

  lemma DriveUnfolds(step: Step, w: World, cursor: Cursor, remaining: nat, sum: Summary, b: (World, nat, BatchOutcome))
    requires remaining > 0 && b == step(w, cursor, remaining, sum)
    ensures MovesAt(cursor, remaining, b)
    ensures b.2.Done? ==> Drive(step, w, cursor, remaining, sum) == (b.0, b.2.result)
    ensures b.2.Continue? ==>
              Drive(step, w, cursor, remaining, sum) == Drive(step, b.0, b.2.cursor, remaining - b.1, b.2.sum)
  {
  }

  lemma AdvanceUnfolds(s: Keyring, w: World, cursor: Cursor, remaining: nat, sum: Summary,
                       b: (World, nat, BatchOutcome))
    requires remaining > 0 && b == RunStage(s, w, cursor, remaining, sum)
    ensures MovesAt(cursor, remaining, b)
    ensures b.2.Done? ==> Advance(s, w, cursor, remaining, sum) == (b.0, b.2.result)
    ensures b.2.Continue? ==>
              Advance(s, w, cursor, remaining, sum) == Advance(s, b.0, b.2.cursor, remaining - b.1, b.2.sum)
  {
    DriveUnfolds(StepOf(s), w, cursor, remaining, sum, b);
  }

  lemma PageWithin(rows: Rows, stage: TableStage, after: Option<string>, limit: nat)
    ensures |Page(rows, stage, after, limit)| <= limit
  {
  }

  /** `reencryptAtRestSecrets`; `None` is its TypeError for a limit below one. */
  function Reencrypt(s: Keyring, w: World, cursor: Option<WireCursor>, limit: int): Option<(World, Result)> {
    if limit < 1 then None
    else Some(Advance(s, w, NormalizeCursor(cursor), limit, EMPTY_SUMMARY))
  }

  /** Calls one after the other, each resuming where the last one stopped, until done or out of limits. */
  function Chain(call: (World, Cursor, nat) -> (World, Result), w: World, cursor: Cursor, limits: seq<nat>,
                 sum: Summary): (World, Result)
    decreases |limits|
  {
    if limits == [] then (w, Result(sum, false, Some(cursor)))
    else
      var x := call(w, cursor, limits[0]);
      match x.1.cursor
      case None => (x.0, After(sum, x.1))
      case Some(next) => Chain(call, x.0, next, limits[1..], sum.Plus(x.1.sum))
  }

  /** What a session has after one more call: the call's end, and the counts so far. */
  function After(total: Summary, r: Result): Result {
    if r.cursor.None? then Result(total.Plus(r.sum), r.completed, None) else Result(total.Plus(r.sum), false, r.cursor)
  }

  /** One call with counts of its own; a limit of 0 is no call at all. */
  function CallOf(s: Keyring): (World, Cursor, nat) -> (World, Result) {
    (w: World, c: Cursor, limit: nat) =>
      if limit > 0 then Advance(s, w, c, limit, EMPTY_SUMMARY) else (w, Result(EMPTY_SUMMARY, false, Some(c)))
  }

  /** A client resuming from each returned cursor with the given limits. */
  function Session(s: Keyring, w: World, cursor: Cursor, limits: seq<nat>, sum: Summary): (World, Result)
    requires forall i :: 0 <= i < |limits| ==> limits[i] > 0
  {
    Chain(CallOf(s), w, cursor, limits, sum)
  }

  lemma ChainUnfolds(call: (World, Cursor, nat) -> (World, Result), w: World, cursor: Cursor, limits: seq<nat>,
                     sum: Summary,
                     x: (World, Result))
    requires limits != [] && x == call(w, cursor, limits[0])
    ensures x.1.cursor.None? ==> Chain(call, w, cursor, limits, sum) == (x.0, After(sum, x.1))
    ensures x.1.cursor.Some? ==>
              Chain(call, w, cursor, limits, sum) == Chain(call, x.0, x.1.cursor.value, limits[1..], sum.Plus(x.1.sum))
  {
  }

  lemma SessionUnfolds(s: Keyring, w: World, cursor: Cursor, limits: seq<nat>, sum: Summary, x: (World, Result))
    requires limits != [] && forall i :: 0 <= i < |limits| ==> limits[i] > 0
    requires x == Advance(s, w, cursor, limits[0], EMPTY_SUMMARY)
    ensures x.1.cursor.None? ==> Session(s, w, cursor, limits, sum) == (x.0, After(sum, x.1))
    ensures x.1.cursor.Some? ==>
              Session(s, w, cursor, limits, sum) == Session(s, x.0, x.1.cursor.value, limits[1..], sum.Plus(x.1.sum))
  {
    ChainUnfolds(CallOf(s), w, cursor, limits, sum, x);
  }
}
