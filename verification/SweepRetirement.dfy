/**
 * Key retirement, place by place: once a sweep has completed without a
 * failure, a place where everyone else stores only current envelopes holds no
 * older-version envelope.
 */
module SweepRetirement {
  import opened Strings
  import opened Envelopes
  import opened SweepModel
  import opened SweepInduction

  // ---------------------------------------------------------------- places at rest

  datatype Place = Place(key: Key, column: Column)

  /** What is sealed at a place: nothing, a whole text column, or named members of a JSON column. */
  datatype Kind = Nothing | WholeText | Members(keys: seq<Name>)

  /**
   * The sealed columns, table by table, whatever the stages of the sweep do:
   * `variable.value`, `tls.private_key_pem`, `certificate.key_pem`,
   * `principal.password`, `login.password`, `storage.content_envelope`,
   * `secret.secret_envelope`, `forge.envelopes`, `connection.oauth_envelope`,
   * `totp.secret`, `channel.address`, `monitor.secret_envelope`,
   * `relay.preshared_key`, `destination.secret_key_sealed`,
   * `ingress.token_envelope`, and as a second column `channel.signing_secret`.
   */
  function SealedColumn(table: TableStage, column: Column): Kind {
    if column == Side then (if table == 10 then WholeText else Nothing)
    else if table == 7 then Members([PrivateKeyEnvelope, ClientSecretEnvelope, WebhookSecretEnvelope])
    else if table == 8 then Members([AccessTokenEnvelope, RefreshTokenEnvelope])
    else WholeText
  }

  /** The sealed settings. */
  function SealedSetting(key: Key): Kind {
    match key
    case AuthProviders => Members([GithubClientSecret, GoogleClientSecret])
    case Email => Members([MailgunApiKey, SmtpPass])
    case AlertWebhook => WholeText
    case PanelIdentity => Members([SealedMember])
    case AcmeAccount => Members([SealedMember])
    case _ => Nothing
  }

  /** Every sealed place, and what is sealed there. */
  function KindOf(p: Place): Kind {
    if p.key.Key? then SealedColumn(p.key.table, p.column)
    else if p.column == Main then SealedSetting(p.key)
    else Nothing
  }

  /** Variables that are not secret and addresses of email channels are not sealed places. */
  predicate Exempt(p: Place, marked: bool) {
    !marked && p.key.Key? && (p.key.table == 0 || (p.key.table == 10 && p.column == Main))
  }

  predicate Old(s: Keyring, text: string) {
    s.version(text).Some? && s.version(text).value != s.current
  }

  /**
   * A text needs no re-seal. Strictly: it is no older-version envelope.
   * Otherwise: it is none that the keyring can still open.
   */
  predicate Rests(s: Keyring, strict: bool, text: string) {
    Old(s, text) ==> !strict && s.decrypt(text).None?
  }

  predicate MembersRest(s: Keyring, strict: bool, members: map<Name, Member>, keys: seq<Name>) {
    forall i :: 0 <= i < |keys| && keys[i] in members && members[keys[i]].Str? ==>
      Rests(s, strict, members[keys[i]].text)
  }

  predicate ValueRests(s: Keyring, strict: bool, kind: Kind, v: Value) {
    match kind
    case Nothing => true
    case WholeText => v.Text? ==> Rests(s, strict, v.text)
    case Members(keys) => v.Object? ==> MembersRest(s, strict, v.members, keys)
  }

  predicate CleanAt(s: Keyring, strict: bool, rows: Rows, p: Place) {
    p.key in rows && !Exempt(p, rows[p.key].marked) ==> ValueRests(s, strict, KindOf(p), rows[p.key].Cell(p.column))
  }

  /** No covered place holds an older-version envelope. */
  ghost predicate Retired(s: Keyring, rows: Rows) {
    forall p :: CleanAt(s, true, rows, p)
  }

  // ---------------------------------------------------------------- other sessions

  /** The operation leaves the place alone or stores a value at rest there. */
  predicate Gentle(s: Keyring, strict: bool, p: Place, op: Op) {
    match op
    case Put(key, row) => key == p.key && !Exempt(p, row.marked) ==>
      ValueRests(s, strict, KindOf(p), row.Cell(p.column))
    case Delete(key) => true
    case Assign(key, column, value) => key == p.key && column == p.column ==> ValueRests(s, strict, KindOf(p), value)
    case Swap(key, column, expected, next) => key == p.key && column == p.column ==>
      ValueRests(s, strict, KindOf(p), next)
  }

  /** Texts that the keyring cannot open stay, and every older-version text was there before. */
  predicate OnlyReseals(s: Keyring, prior: map<Name, Member>, next: map<Name, Member>) {
    && (forall k :: k in prior && prior[k].Str? && s.decrypt(prior[k].text).None? ==> k in next && next[k] == prior[k])
    && (forall k :: k in next && next[k].Str? && Old(s, next[k].text) ==> k in prior && prior[k] == next[k])
  }

  /** If the operation swaps a JSON row, it does no more than re-seal. */
  predicate SwapsReseals(s: Keyring, op: Op) {
    op.Swap? && op.expected.Object? ==> op.next.Object? && OnlyReseals(s, op.expected.members, op.next.members)
  }

  // ---------------------------------------------------------------- aims

  /**
   * What the sweep is to bring about at a place, as a statement about the log.
   * `rowsAt` are the rows after a log, `may` the operations other sessions may
   * perform, `still` relates rows that look the same to the aim, and `from` is
   * the length of the log from which on the aim is pursued.
   */
  datatype Aim = Aim(
    place: Place,
    strict: bool,
    start: nat,
    from: nat,
    may: Op -> bool,
    rowsAt: seq<Entry> -> Rows,
    met: seq<Entry> -> bool,
    still: (Rows, Rows) -> bool)

  ghost predicate Keeps(a: Aim, log: seq<Entry>, e: Entry) {
    && (a.met(log) ==> a.met(log + [e]))
    && (a.met(log + [e]) || a.still(a.rowsAt(log), a.rowsAt(log + [e])))
  }

  /** The sweep's own update of the value it saw, at a moment when nothing relevant has changed. */
  ghost predicate Attempts(s: Keyring, a: Aim, seen: Rows, log: seq<Entry>, e: Entry) {
    && e.own && e.op.Swap? && Gentle(s, a.strict, a.place, e.op) && SwapsReseals(s, e.op)
    && e.op.key == a.place.key && e.op.column == a.place.column
    && a.place.key in seen && seen[a.place.key].Cell(a.place.column) == e.op.expected
    && a.still(seen, a.rowsAt(log))
  }

  /**
   * An aim that a value at rest meets, that no allowed operation undoes, and
   * that an update of the value seen meets.
   */
  ghost predicate Sound(s: Keyring, a: Aim) {
    && a.start <= a.from
    && (forall log: seq<Entry>, e: Entry :: |log| >= a.start ==> a.rowsAt(log + [e]) == Apply(a.rowsAt(log), e.op))
    && (forall log: seq<Entry> :: |log| >= a.from && CleanAt(s, a.strict, a.rowsAt(log), a.place) ==> a.met(log))
    && (forall log: seq<Entry>, e: Entry ::
          |log| >= a.from && (if e.own then Gentle(s, a.strict, a.place, e.op) else a.may(e.op)) ==> Keeps(a, log, e))
    && (forall x: Rows :: a.still(x, x))
    && (forall x: Rows, y: Rows, z: Rows :: a.still(x, y) && a.still(y, z) ==> a.still(x, z))
    && (forall seen: Rows, log: seq<Entry>, e: Entry ::
          |log| >= a.from && Attempts(s, a, seen, log, e) ==> a.met(log + [e]))
  }

  ghost predicate OnBook(a: Aim, w: World) {
    |w.log| >= a.start && a.rowsAt(w.log) == w.rows
  }

  /** What other sessions still have to do is allowed; without strictness nothing goes wrong either. */
  ghost predicate Allowed(a: Aim, turns: seq<Turn>) {
    && (forall i, j :: 0 <= i < |turns| && 0 <= j < |turns[i].ops| ==> a.may(turns[i].ops[j]))
    && (forall i :: 0 <= i < |turns| ==> a.strict || turns[i].fault == NoFault)
  }

  /** From `w` to `w2` the aim stayed met, came to be met, or nothing relevant happened. */
  ghost predicate Calm(a: Aim, w: World, w2: World) {
    && (a.met(w.log) ==> a.met(w2.log))
    && (a.met(w2.log) || a.still(w.rows, w2.rows))
  }

  /** A stretch of a run: it stays on the books, and if the aim is already pursued, it is calm. */
  ghost predicate Steady(a: Aim, w: World, w2: World) {
    && OnBook(a, w2) && Allowed(a, w2.pending) && |w.log| <= |w2.log|
    && (|w.log| >= a.from ==> Calm(a, w, w2))
  }

  lemma SteadyTransitive(s: Keyring, a: Aim, w: World, w1: World, w2: World)
    requires Sound(s, a) && Steady(a, w, w1) && Steady(a, w1, w2)
    ensures Steady(a, w, w2)
  {
  }

  lemma RecordSteady(s: Keyring, a: Aim, w: World, e: Entry)
    requires Sound(s, a) && OnBook(a, w) && Allowed(a, w.pending)
    requires if e.own then Gentle(s, a.strict, a.place, e.op) else a.may(e.op)
    ensures Steady(a, w, Record(w, e))
  {
    assert Record(w, e).log == w.log + [e];
    assert |w.log| >= a.from ==> Keeps(a, w.log, e);
  }

  /** An operation that is not gentle at the place, but recorded all the same. */
  lemma RecordOnBook(s: Keyring, a: Aim, w: World, e: Entry)
    requires Sound(s, a) && OnBook(a, w)
    ensures OnBook(a, Record(w, e)) && |Record(w, e).log| == |w.log| + 1
  {
    assert Record(w, e).log == w.log + [e];
  }

  lemma {:induction false} RecordAllSteady(s: Keyring, a: Aim, w: World, ops: seq<Op>)
    requires Sound(s, a) && OnBook(a, w) && Allowed(a, w.pending)
    requires forall i :: 0 <= i < |ops| ==> a.may(ops[i])
    ensures Steady(a, w, RecordAll(w, ops)) && RecordAll(w, ops).pending == w.pending
    decreases |ops|
  {
    if ops != [] {
      var w1 := Record(w, Entry(false, ops[0], true));
      RecordSteady(s, a, w, Entry(false, ops[0], true));
      RecordAllSteady(s, a, w1, ops[1..]);
      SteadyTransitive(s, a, w, w1, RecordAll(w1, ops[1..]));
    }
  }

  lemma InterfereSteady(s: Keyring, a: Aim, w: World)
    requires Sound(s, a) && OnBook(a, w) && Allowed(a, w.pending)
    ensures Steady(a, w, Interfere(w))
    ensures a.strict || NextFault(w) == NoFault
  {
    if w.pending != [] {
      var w0 := w.(pending := w.pending[1..]);
      forall j | 0 <= j < |w.pending[0].ops| ensures a.may(w.pending[0].ops[j]) {
      }
      RecordAllSteady(s, a, w0, w.pending[0].ops);
    }
  }

  /** The value read as `seen` has not changed for the aim, or the aim is met; a value at rest met it at once. */
  ghost predicate Since(s: Keyring, a: Aim, seen: Rows, w: World) {
    && |w.log| >= a.from
    && (a.met(w.log) || a.still(seen, w.rows))
    && (CleanAt(s, a.strict, seen, a.place) ==> a.met(w.log))
  }

  lemma SinceRead(s: Keyring, a: Aim, w: World)
    requires Sound(s, a) && OnBook(a, w) && |w.log| >= a.from
    ensures Since(s, a, w.rows, w)
  {
  }

  lemma SinceSteady(s: Keyring, a: Aim, seen: Rows, w: World, w2: World)
    requires Sound(s, a) && Since(s, a, seen, w) && Steady(a, w, w2)
    ensures Since(s, a, seen, w2)
  {
  }

  // ---------------------------------------------------------------- one text

  predicate Fine(strict: bool, before: Summary, after: Summary) {
    strict ==> before.failed == after.failed
  }

  /** What every step of the sweep does to an aim; a strict aim is excused once a failure is counted. */
  ghost predicate StepSteady(a: Aim, w: World, sum: Summary, x: (World, Summary)) {
    && OnBook(a, x.0) && Allowed(a, x.0.pending) && |w.log| <= |x.0.log| && sum.failed <= x.1.failed
    && (Fine(a.strict, sum, x.1) ==> Steady(a, w, x.0))
  }

  lemma StepSteadyTransitive(s: Keyring, a: Aim, w: World, sum: Summary, x: (World, Summary), y: (World, Summary))
    requires Sound(s, a) && StepSteady(a, w, sum, x) && StepSteady(a, x.0, x.1, y)
    ensures StepSteady(a, w, sum, y)
  {
    if Fine(a.strict, sum, y.1) {
      SteadyTransitive(s, a, w, x.0, y.0);
    }
  }

  /** A step that brings a value seen to its end meets the aim, unless a strict aim is excused. */
  ghost predicate StepMeets(a: Aim, sum: Summary, x: (World, Summary)) {
    Fine(a.strict, sum, x.1) ==> a.met(x.0.log)
  }

  lemma MeetsThenSteady(s: Keyring, a: Aim, w: World, sum: Summary, x: (World, Summary), y: (World, Summary))
    requires |x.0.log| >= a.from && sum.failed <= x.1.failed
    requires StepMeets(a, sum, x) && StepSteady(a, x.0, x.1, y)
    ensures StepMeets(a, sum, y)
  {
  }

  function TargetPlace(t: Target): Place {
    match t
    case Cell(key, column) => Place(key, column)
    case Sealed(key, _) => Place(key, Main)
  }

  /** The blob is everything the sweep looks for in the value it swaps out. */
  predicate Faces(t: Target, blob: string, kind: Kind) {
    match t
    case Cell(_, _) => kind == WholeText
    case Sealed(_, members) =>
      kind == Members([SealedMember]) && SealedMember in members && members[SealedMember] == Str(blob)
  }

  function SeenValue(t: Target, blob: string): Value {
    match t
    case Cell(_, _) => Text(blob)
    case Sealed(_, members) => Object(members)
  }

  /** The value swapped in is at rest. */
  lemma ResealedRests(s: Keyring, strict: bool, t: Target, blob: string, draw: nat, plaintext: string)
    requires Lawful(s) && Faces(t, blob, KindOf(TargetPlace(t)))
    ensures Gentle(s, strict, TargetPlace(t), SwapFor(t, blob, s.encrypt(draw, plaintext)))
    ensures s.decrypt(blob).Some? ==> SwapsReseals(s, SwapFor(t, blob, s.encrypt(draw, plaintext)))
  {
    assert s.version(s.encrypt(draw, plaintext)) == Some(s.current);
  }

  /** A text that the sweep skips or rejects was no older-version envelope. */
  lemma NotReseal(s: Keyring, blob: string, allowDaemon: bool)
    requires Lawful(s) && Classify(s, blob, allowDaemon) != Reseal
    ensures !Old(s, blob)
  {
  }

  lemma RestingValue(s: Keyring, strict: bool, t: Target, blob: string)
    requires Faces(t, blob, KindOf(TargetPlace(t))) && Rests(s, strict, blob)
    ensures ValueRests(s, strict, KindOf(TargetPlace(t)), SeenValue(t, blob))
  {
  }

  lemma TrySwapSteady(s: Keyring, a: Aim, w: World, op: Op, t: (World, Outcome))
    requires Sound(s, a) && OnBook(a, w) && Allowed(a, w.pending)
    requires op.Swap? && Gentle(s, a.strict, a.place, op) && t == TrySwap(w, op)
    ensures Steady(a, w, t.0) && (!a.strict ==> t.1 != Errored)
  {
    InterfereSteady(s, a, w);
    var w1 := Interfere(w);
    RecordSteady(s, a, w1, Entry(true, op, true));
    RecordSteady(s, a, w1, Entry(true, op, false));
    SteadyTransitive(s, a, w, w1, t.0);
  }

  /** The own update of the value seen, recorded: it wins and leaves a value at rest, or the aim was met before. */
  lemma AttemptMeets(s: Keyring, a: Aim, seen: Rows, w: World, e: Entry)
    requires Sound(s, a) && OnBook(a, w) && Allowed(a, w.pending) && Since(s, a, seen, w)
    requires e.own && e.op.Swap? && e.op.key == a.place.key && e.op.column == a.place.column
    requires Gentle(s, a.strict, a.place, e.op) && SwapsReseals(s, e.op)
    requires a.place.key in seen && seen[a.place.key].Cell(a.place.column) == e.op.expected
    ensures a.met(Record(w, e).log)
  {
    assert Record(w, e).log == w.log + [e];
    if a.met(w.log) {
      assert Keeps(a, w.log, e);
    } else {
      assert Attempts(s, a, seen, w.log, e);
    }
  }

  /** At the swapped place itself: unless it errs, the swap meets the aim. */
  lemma TrySwapMeets(s: Keyring, a: Aim, w: World, op: Op, seen: Rows, t: (World, Outcome))
    requires Sound(s, a) && OnBook(a, w) && Allowed(a, w.pending) && Since(s, a, seen, w)
    requires op.Swap? && op.key == a.place.key && op.column == a.place.column && Gentle(s, a.strict, a.place, op)
    requires a.place.key in seen && seen[a.place.key].Cell(a.place.column) == op.expected
    requires t == TrySwap(w, op) && SwapsReseals(s, op)
    ensures t.1 != Errored ==> a.met(t.0.log)
  {
    InterfereSteady(s, a, w);
    var w1 := Interfere(w);
    SinceSteady(s, a, seen, w, w1);
    AttemptMeets(s, a, seen, w1, Entry(true, op, true));
  }

  /** How `processBlob` ends: counted at once, or by the outcome of one conditional update. */
  lemma BlobEnds(s: Keyring, w: World, sum: Summary, blob: string, t: Target,
                 allowDaemon: bool) returns (swapped: Option<(World, Outcome)>)
    ensures var x := ProcessBlob(s, w, sum, blob, t, allowDaemon);
            && (swapped.None? ==> x.0 == w && x.1.failed >= sum.failed
                                  && (x.1.failed == sum.failed ==> Classify(s, blob, allowDaemon) != Reseal)
                                  && (Classify(s, blob, allowDaemon) == Reseal ==> s.decrypt(blob).None?))
            && (swapped.Some? ==> && s.decrypt(blob).Some?
                                  && swapped.value ==
                                    TrySwap(w.(drawn := w.drawn + 1),
                                      SwapFor(t, blob, s.encrypt(w.drawn, s.decrypt(blob).value)))
                                  && x.0 == swapped.value.0
                                  && x.1.failed == sum.failed + if swapped.value.1 == Errored then 1 else 0)
  {
    if Classify(s, blob, allowDaemon) == Reseal && s.decrypt(blob).Some? {
      swapped := Some(TrySwap(w.(drawn := w.drawn + 1), SwapFor(t, blob, s.encrypt(w.drawn, s.decrypt(blob).value))));
    } else {
      swapped := None;
    }
  }

  lemma BlobSteady(s: Keyring, a: Aim, w: World, sum: Summary, blob: string, t: Target, allowDaemon: bool,
                   x: (World, Summary))
    requires Lawful(s) && Sound(s, a) && OnBook(a, w) && Allowed(a, w.pending)
    requires Faces(t, blob, KindOf(TargetPlace(t))) && x == ProcessBlob(s, w, sum, blob, t, allowDaemon)
    ensures StepSteady(a, w, sum, x)
  {
    var swapped := BlobEnds(s, w, sum, blob, t, allowDaemon);
    if swapped.Some? {
      var op := SwapFor(t, blob, s.encrypt(w.drawn, s.decrypt(blob).value));
      if a.place == TargetPlace(t) {
        ResealedRests(s, a.strict, t, blob, w.drawn, s.decrypt(blob).value);
      }
      TrySwapSteady(s, a, w.(drawn := w.drawn + 1), op, swapped.value);
    }
  }

  /** Processing the blob seen at the place meets the aim. */
  lemma BlobMeets(s: Keyring, a: Aim, w: World, sum: Summary, blob: string, t: Target, allowDaemon: bool, seen: Rows,
                  x: (World, Summary))
    requires Lawful(s) && Sound(s, a) && OnBook(a, w) && Allowed(a, w.pending) && Since(s, a, seen, w)
    requires a.place == TargetPlace(t) && Faces(t, blob, KindOf(a.place))
    requires a.place.key in seen && seen[a.place.key].Cell(a.place.column) == SeenValue(t, blob)
    requires x == ProcessBlob(s, w, sum, blob, t, allowDaemon)
    ensures StepMeets(a, sum, x)
  {
    var swapped := BlobEnds(s, w, sum, blob, t, allowDaemon);
    if swapped.Some? {
      var op := SwapFor(t, blob, s.encrypt(w.drawn, s.decrypt(blob).value));
      ResealedRests(s, a.strict, t, blob, w.drawn, s.decrypt(blob).value);
      TrySwapSteady(s, a, w.(drawn := w.drawn + 1), op, swapped.value);
      TrySwapMeets(s, a, w.(drawn := w.drawn + 1), op, seen, swapped.value);
    } else if Fine(a.strict, sum, x.1) {
      if Classify(s, blob, allowDaemon) != Reseal {
        NotReseal(s, blob, allowDaemon);
      }
      RestingValue(s, a.strict, t, blob);
    }
  }

  // ---------------------------------------------------------------- JSON members

  predicate MemberRests(s: Keyring, strict: bool, members: map<Name, Member>, key: Name) {
    key in members && members[key].Str? ==> Rests(s, strict, members[key].text)
  }

  lemma ResealKeyRests(s: Keyring, strict: bool, p: Progress, key: Name)
    requires Lawful(s)
    ensures var q := ResealKey(s, p, key);
            && p.sum.failed <= q.sum.failed && p.resealed <= q.resealed
            && (q.resealed == p.resealed ==> q.members == p.members)
            && (Fine(strict, p.sum, q.sum) ==> MemberRests(s, strict, q.members, key))
            && (forall k :: MemberRests(s, strict, p.members, k) ==> MemberRests(s, strict, q.members, k))
  {
    assert s.version("").None?;
  }

  lemma {:induction false} ResealKeysRest(s: Keyring, strict: bool, p: Progress, keys: seq<Name>)
    requires Lawful(s)
    ensures var q := ResealKeys(s, p, keys);
            && p.sum.failed <= q.sum.failed && p.resealed <= q.resealed
            && (q.resealed == p.resealed ==> q.members == p.members)
            && (Fine(strict, p.sum, q.sum) ==> MembersRest(s, strict, q.members, keys))
            && (forall k :: MemberRests(s, strict, p.members, k) ==> MemberRests(s, strict, q.members, k))
    decreases |keys|
  {
    if keys != [] {
      ResealKeyRests(s, strict, p, keys[0]);
      var p1 := ResealKey(s, p, keys[0]);
      ResealKeysRest(s, strict, p1, keys[1..]);
      var q := ResealKeys(s, p1, keys[1..]);
      if Fine(strict, p.sum, q.sum) {
        assert MemberRests(s, strict, q.members, keys[0]);
        forall i | 0 <= i < |keys| && keys[i] in q.members && q.members[keys[i]].Str?
          ensures Rests(s, strict, q.members[keys[i]].text)
        {
          if i > 0 {
            assert keys[i] == keys[1..][i - 1];
          }
        }
      }
    }
  }

  lemma ResealKeyOnly(s: Keyring, p: Progress, key: Name)
    requires Lawful(s)
    ensures OnlyReseals(s, p.members, ResealKey(s, p, key).members)
  {
  }

  lemma {:induction false} ResealKeysOnly(s: Keyring, p: Progress, keys: seq<Name>)
    requires Lawful(s)
    ensures OnlyReseals(s, p.members, ResealKeys(s, p, keys).members)
    decreases |keys|
  {
    if keys != [] {
      ResealKeyOnly(s, p, keys[0]);
      ResealKeysOnly(s, ResealKey(s, p, keys[0]), keys[1..]);
    }
  }

  /** How a JSON row ends: with one own update recorded after other sessions' turn, or with nothing to re-seal. */
  lemma KeyedEnds(s: Keyring, w: World, sum: Summary, key: Key, v: Value, keys: seq<Name>, q: Progress, w1: World,
                  e: Entry)
    requires v.Object? && q == ResealKeys(s, Progress(v.members, 0, w.drawn, sum), keys)
    requires w1 == Interfere(w.(drawn := q.drawn)) && e == Entry(true, Swap(key, Main, v, Object(q.members)), true)
    ensures var x := ProcessKeyed(s, w, sum, key, v, keys);
            x.0 == (if q.resealed == 0 then w else Record(w1, e)) && x.1.failed == q.sum.failed
  {
  }

  lemma KeyedSteady(s: Keyring, a: Aim, w: World, sum: Summary, key: Key, v: Value, keys: seq<Name>,
                    x: (World, Summary))
    requires Lawful(s) && Sound(s, a) && OnBook(a, w) && Allowed(a, w.pending)
    requires KindOf(Place(key, Main)) == Members(keys) && x == ProcessKeyed(s, w, sum, key, v, keys)
    ensures StepSteady(a, w, sum, x)
  {
    if v.Object? {
      var first := Progress(v.members, 0, w.drawn, sum);
      var q := ResealKeys(s, first, keys);
      var w0 := w.(drawn := q.drawn);
      var w1, e := Interfere(w0), Entry(true, Swap(key, Main, v, Object(q.members)), true);
      ResealKeysRest(s, a.strict, first, keys);
      KeyedEnds(s, w, sum, key, v, keys, q, w1, e);
      if q.resealed != 0 {
        InterfereSteady(s, a, w0);
        RecordOnBook(s, a, w1, e);
        if Fine(a.strict, sum, x.1) {
          RecordSteady(s, a, w1, e);
          SteadyTransitive(s, a, w0, w1, Record(w1, e));
        }
      }
    }
  }

  lemma KeyedMeets(s: Keyring, a: Aim, w: World, sum: Summary, key: Key, v: Value, keys: seq<Name>, seen: Rows,
                   x: (World, Summary))
    requires Lawful(s) && Sound(s, a) && OnBook(a, w) && Allowed(a, w.pending) && Since(s, a, seen, w)
    requires a.place == Place(key, Main) && KindOf(a.place) == Members(keys)
    requires key in seen && seen[key].main == v && x == ProcessKeyed(s, w, sum, key, v, keys)
    ensures StepMeets(a, sum, x)
  {
    if v.Object? {
      var first := Progress(v.members, 0, w.drawn, sum);
      var q := ResealKeys(s, first, keys);
      var w0 := w.(drawn := q.drawn);
      var w1, e := Interfere(w0), Entry(true, Swap(key, Main, v, Object(q.members)), true);
      ResealKeysRest(s, a.strict, first, keys);
      ResealKeysOnly(s, first, keys);
      KeyedEnds(s, w, sum, key, v, keys, q, w1, e);
      if q.resealed != 0 && Fine(a.strict, sum, x.1) {
        InterfereSteady(s, a, w0);
        SinceSteady(s, a, seen, w0, w1);
        AttemptMeets(s, a, seen, w1, e);
      }
    }
  }

  // ---------------------------------------------------------------- rows and pages

  lemma CellSteady(s: Keyring, a: Aim, w: World, sum: Summary, key: Key, column: Column, v: Value, allowDaemon: bool,
                   x: (World, Summary))
    requires Lawful(s) && Sound(s, a) && OnBook(a, w) && Allowed(a, w.pending)
    requires KindOf(Place(key, column)) == WholeText && x == ProcessCell(s, w, sum, key, column, v, allowDaemon)
    ensures StepSteady(a, w, sum, x)
  {
    if v.Text? {
      BlobSteady(s, a, w, sum, v.text, Target.Cell(key, column), allowDaemon, x);
    }
  }

  lemma CellMeets(s: Keyring, a: Aim, w: World, sum: Summary, key: Key, column: Column, v: Value, allowDaemon: bool,
                  seen: Rows, x: (World, Summary))
    requires Lawful(s) && Sound(s, a) && OnBook(a, w) && Allowed(a, w.pending) && Since(s, a, seen, w)
    requires a.place == Place(key, column) && KindOf(a.place) == WholeText
    requires key in seen && seen[key].Cell(column) == v && x == ProcessCell(s, w, sum, key, column, v, allowDaemon)
    ensures StepMeets(a, sum, x)
  {
    if v.Text? {
      BlobMeets(s, a, w, sum, v.text, Target.Cell(key, column), allowDaemon, seen, x);
    }
  }

  /** A channel row: its address unless it is an email channel. */
  function ChannelAddress(s: Keyring, w: World, sum: Summary, key: Key, row: Row): (World, Summary) {
    if row.marked then ProcessCell(s, w, sum, key, Main, row.main, false) else (w, sum)
  }

  /** Then its signing secret, unless it is empty. */
  function ChannelSecret(s: Keyring, w: World, sum: Summary, key: Key, row: Row): (World, Summary) {
    if row.side == Text("") then (w, sum) else ProcessCell(s, w, sum, key, Side, row.side, false)
  }

  lemma ChannelSteady(s: Keyring, a: Aim, w: World, sum: Summary, key: Key, row: Row, x: (World, Summary),
                      y: (World, Summary))
    requires Lawful(s) && Sound(s, a) && OnBook(a, w) && Allowed(a, w.pending) && key.Key? && key.table == 10
    requires x == ChannelAddress(s, w, sum, key, row) && y == ChannelSecret(s, x.0, x.1, key, row)
    ensures StepSteady(a, w, sum, x) && StepSteady(a, x.0, x.1, y) && StepSteady(a, w, sum, y)
  {
    if row.marked {
      CellSteady(s, a, w, sum, key, Main, row.main, false, x);
    }
    if row.side != Text("") {
      CellSteady(s, a, x.0, x.1, key, Side, row.side, false, y);
    }
    StepSteadyTransitive(s, a, w, sum, x, y);
  }

  lemma ChannelMeets(s: Keyring, a: Aim, w: World, sum: Summary, key: Key, row: Row, seen: Rows, x: (World, Summary),
                     y: (World, Summary))
    requires Lawful(s) && Sound(s, a) && OnBook(a, w) && Allowed(a, w.pending) && Since(s, a, seen, w)
    requires key.Key? && key.table == 10 && a.place.key == key && key in seen && seen[key] == row
    requires x == ChannelAddress(s, w, sum, key, row) && y == ChannelSecret(s, x.0, x.1, key, row)
    ensures StepMeets(a, sum, y)
  {
    ChannelSteady(s, a, w, sum, key, row, x, y);
    assert s.version("").None?;
    if a.place.column == Side {
      if Fine(a.strict, sum, x.1) {
        SinceSteady(s, a, seen, w, x.0);
        if row.side != Text("") {
          CellMeets(s, a, x.0, x.1, key, Side, row.side, false, seen, y);
        }
      }
    } else {
      if row.marked {
        CellMeets(s, a, w, sum, key, Main, row.main, false, seen, x);
      }
      MeetsThenSteady(s, a, w, sum, x, y);
    }
  }

  lemma RowSteady(s: Keyring, a: Aim, w: World, sum: Summary, stage: TableStage, id: Id, row: Row, x: (World, Summary))
    requires Lawful(s) && Sound(s, a) && OnBook(a, w) && Allowed(a, w.pending)
    requires x == ProcessRow(s, w, sum, stage, id, row)
    ensures StepSteady(a, w, sum, x)
  {
    var key := Key(stage, id);
    var w1 := w.(visits := w.visits + [key]);
    match ShapeOf(stage)
    case Single(allowDaemon) => CellSteady(s, a, w1, sum, key, Main, row.main, allowDaemon, x);
    case Keyed(keys) => KeyedSteady(s, a, w1, sum, key, row.main, keys, x);
    case Channel => ChannelSteady(s, a, w1, sum, key, row, ChannelAddress(s, w1, sum, key, row), x);
  }

  lemma RowMeets(s: Keyring, a: Aim, w: World, sum: Summary, stage: TableStage, id: Id, row: Row, seen: Rows,
                 x: (World, Summary))
    requires Lawful(s) && Sound(s, a) && OnBook(a, w) && Allowed(a, w.pending) && Since(s, a, seen, w)
    requires a.place.key == Key(stage, id) && a.place.key in seen && seen[a.place.key] == row
    requires x == ProcessRow(s, w, sum, stage, id, row)
    ensures StepMeets(a, sum, x)
  {
    RowSteady(s, a, w, sum, stage, id, row, x);
    var key := Key(stage, id);
    var w1 := w.(visits := w.visits + [key]);
    if KindOf(a.place) != Nothing {
      match ShapeOf(stage)
      case Single(allowDaemon) => CellMeets(s, a, w1, sum, key, Main, row.main, allowDaemon, seen, x);
      case Keyed(keys) => KeyedMeets(s, a, w1, sum, key, row.main, keys, seen, x);
      case Channel => ChannelMeets(s, a, w1, sum, key, row, seen, ChannelAddress(s, w1, sum, key, row), x);
    }
  }

  predicate ReadFrom(seen: Rows, stage: TableStage, page: seq<Listed>) {
    forall i :: 0 <= i < |page| ==> Key(stage, page[i].id) in seen && seen[Key(stage, page[i].id)] == page[i].row
  }

  predicate InPage(p: Place, stage: TableStage, page: seq<Listed>) {
    exists i :: 0 <= i < |page| && p.key == Key(stage, page[i].id)
  }

  lemma RowsUnfold(s: Keyring, w: World, sum: Summary, stage: TableStage, page: seq<Listed>, x: (World, Summary))
    requires page != [] && x == ProcessRow(s, w, sum, stage, page[0].id, page[0].row)
    ensures ProcessRows(s, w, sum, stage, page) == ProcessRows(s, x.0, x.1, stage, page[1..])
  {
  }

  lemma {:induction false} RowsSteady(s: Keyring, a: Aim, w: World, sum: Summary, stage: TableStage, page: seq<Listed>,
                                      y: (World, Summary))
    requires Lawful(s) && Sound(s, a) && OnBook(a, w) && Allowed(a, w.pending)
    requires y == ProcessRows(s, w, sum, stage, page)
    ensures StepSteady(a, w, sum, y)
    decreases |page|
  {
    if page != [] {
      var x := ProcessRow(s, w, sum, stage, page[0].id, page[0].row);
      RowSteady(s, a, w, sum, stage, page[0].id, page[0].row, x);
      RowsUnfold(s, w, sum, stage, page, x);
      RowsSteady(s, a, x.0, x.1, stage, page[1..], y);
      StepSteadyTransitive(s, a, w, sum, x, y);
    }
  }

  /** A page read at `seen` and processed row by row meets the aim at each of its places. */
  lemma {:induction false} RowsMeet(s: Keyring, a: Aim, w: World, sum: Summary, stage: TableStage, page: seq<Listed>,
                                    seen: Rows, y: (World, Summary))
    requires Lawful(s) && Sound(s, a) && OnBook(a, w) && Allowed(a, w.pending) && Since(s, a, seen, w)
    requires ReadFrom(seen, stage, page) && InPage(a.place, stage, page) && y == ProcessRows(s, w, sum, stage, page)
    ensures StepMeets(a, sum, y)
    decreases |page|
  {
    var x := ProcessRow(s, w, sum, stage, page[0].id, page[0].row);
    RowSteady(s, a, w, sum, stage, page[0].id, page[0].row, x);
    RowsUnfold(s, w, sum, stage, page, x);
    RowsSteady(s, a, x.0, x.1, stage, page[1..], y);
    if a.place.key == Key(stage, page[0].id) {
      RowMeets(s, a, w, sum, stage, page[0].id, page[0].row, seen, x);
      MeetsThenSteady(s, a, w, sum, x, y);
    } else if Fine(a.strict, sum, x.1) {
      PageSplit(a.place, stage, page);
      SinceSteady(s, a, seen, w, x.0);
      RowsMeet(s, a, x.0, x.1, stage, page[1..], seen, y);
    }
  }

  lemma PageSplit(p: Place, stage: TableStage, page: seq<Listed>)
    requires page != []
    ensures InPage(p, stage, page) <==> p.key == Key(stage, page[0].id) || InPage(p, stage, page[1..])
  {
    if InPage(p, stage, page) {
      var i :| 0 <= i < |page| && p.key == Key(stage, page[i].id);
      if i > 0 {
        assert page[i] == page[1..][i - 1];
      }
    }
    if InPage(p, stage, page[1..]) {
      var i :| 0 <= i < |page[1..]| && p.key == Key(stage, page[1..][i].id);
      assert page[i + 1] == page[1..][i];
    }
  }

  /** A matching row past the cursor is on the page, unless the page is full and ends before it. */
  lemma PageCovers(rows: Rows, stage: TableStage, after: Option<string>, limit: nat, p: Place)
    requires p.key in rows && p.key.Key? && p.key.table == stage && Matches(stage, rows[p.key])
    requires after.None? || Less(after.value, p.key.id)
    ensures var page := Page(rows, stage, after, limit);
            InPage(p, stage, page) || (page != [] && |page| == limit && Less(page[|page| - 1].id, p.key.id))
              || limit == 0
  {
    var ids := Candidates(rows, stage, after);
    AscendingHas(ids);
    AscendingSorted(ids);
    assert p.key.id in ids;
    var j :| 0 <= j < |Ascending(ids)| && Ascending(ids)[j] == p.key.id;
    var page := Page(rows, stage, after, limit);
    if j < |page| {
      assert page[j].id == p.key.id;
    }
  }

  lemma PageIsRead(rows: Rows, stage: TableStage, after: Option<string>, limit: nat)
    ensures ReadFrom(rows, stage, Page(rows, stage, after, limit))
  {
    AscendingHas(Candidates(rows, stage, after));
    var ids := Ascending(Candidates(rows, stage, after));
    assert forall i :: 0 <= i < |ids| ==> ids[i] in Candidates(rows, stage, after);
  }

  // ---------------------------------------------------------------- settings

  function StageOf(key: Key): nat {
    if key.Key? then key.table
    else if key == AuthProviders then 15
    else if key == Email then 16
    else if key == AlertWebhook then 17
    else 18
  }

  /** What a settings step does: it is steady, and it meets the aim at its own key from its own read on. */
  ghost predicate SettingDone(a: Aim, w: World, sum: Summary, key: Key, at: nat, x: (World, Summary)) {
    && StepSteady(a, w, sum, x) && |w.log| <= at <= |x.0.log|
    && (a.place == Place(key, Main) && a.from <= at ==> StepMeets(a, sum, x))
  }

  lemma SettingReadThen(s: Keyring, a: Aim, w: World, sum: Summary, key: Key, w1: World, x: (World, Summary))
    requires Sound(s, a) && OnBook(a, w) && Allowed(a, w.pending) && w1 == Interfere(w) && StepSteady(a, w1, sum, x)
    requires a.place == Place(key, Main) && a.from <= |w1.log| ==> StepMeets(a, sum, x)
    ensures SettingDone(a, w, sum, key, |w1.log|, x)
  {
    InterfereSteady(s, a, w);
    StepSteadyTransitive(s, a, w, sum, (w1, sum), x);
  }

  /** A setting whose one blob is processed. */
  lemma BlobSettingDone(s: Keyring, a: Aim, w: World, sum: Summary, key: Key, blob: string, t: Target, w1: World,
                        x: (World, Summary))
    requires Lawful(s) && Sound(s, a) && OnBook(a, w) && Allowed(a, w.pending)
    requires w1 == Interfere(w) && x == ProcessBlob(s, w1, sum, blob, t, false)
    requires TargetPlace(t) == Place(key, Main) && Faces(t, blob, KindOf(Place(key, Main)))
    requires key in w1.rows && w1.rows[key].main == SeenValue(t, blob)
    ensures SettingDone(a, w, sum, key, |w1.log|, x)
  {
    InterfereSteady(s, a, w);
    BlobSteady(s, a, w1, sum, blob, t, false, x);
    if a.place == Place(key, Main) && a.from <= |w1.log| {
      SinceRead(s, a, w1);
      BlobMeets(s, a, w1, sum, blob, t, false, w1.rows, x);
    }
    SettingReadThen(s, a, w, sum, key, w1, x);
  }

  /** A setting with nothing to process. */
  lemma RestingSettingDone(s: Keyring, a: Aim, w: World, sum: Summary, key: Key, w1: World)
    requires Sound(s, a) && OnBook(a, w) && Allowed(a, w.pending) && w1 == Interfere(w)
    requires CleanAt(s, a.strict, w1.rows, Place(key, Main))
    ensures SettingDone(a, w, sum, key, |w1.log|, (w1, sum))
  {
    InterfereSteady(s, a, w);
    SettingReadThen(s, a, w, sum, key, w1, (w1, sum));
  }

  lemma SealedSettingDone(s: Keyring, a: Aim, w: World, sum: Summary, key: Key, w1: World, x: (World, Summary))
    requires Lawful(s) && Sound(s, a) && OnBook(a, w) && Allowed(a, w.pending) && w1 == Interfere(w)
    requires key in {PanelIdentity, AcmeAccount} && x == SweepSealedSetting(s, w, sum, key)
    ensures SettingDone(a, w, sum, key, |w1.log|, x)
  {
    var v := SettingValue(w1.rows, key);
    if HasSealed(v) {
      BlobSettingDone(s, a, w, sum, key, v.members[SealedMember].text, Sealed(key, v.members), w1, x);
    } else {
      NoSealedRests(s, a.strict, w1.rows, key);
      RestingSettingDone(s, a, w, sum, key, w1);
    }
  }

  lemma NoSealedRests(s: Keyring, strict: bool, rows: Rows, key: Key)
    requires Lawful(s) && key in {PanelIdentity, AcmeAccount} && !HasSealed(SettingValue(rows, key))
    ensures CleanAt(s, strict, rows, Place(key, Main))
  {
    assert s.version("").None?;
  }

  lemma KeyedSettingDone(s: Keyring, a: Aim, w: World, sum: Summary, key: Key, keys: seq<Name>, x: (World, Summary))
    requires Lawful(s) && Sound(s, a) && OnBook(a, w) && Allowed(a, w.pending)
    requires KindOf(Place(key, Main)) == Members(keys) && x == SweepKeyedSetting(s, w, sum, key, keys)
    ensures SettingDone(a, w, sum, key, |Interfere(w).log|, x)
  {
    InterfereSteady(s, a, w);
    var w1 := Interfere(w);
    var v := SettingValue(w1.rows, key);
    KeyedSteady(s, a, w1, sum, key, v, keys, x);
    if a.place == Place(key, Main) && a.from <= |w1.log| {
      SinceRead(s, a, w1);
      if key in w1.rows {
        KeyedMeets(s, a, w1, sum, key, v, keys, w1.rows, x);
      }
    }
    SettingReadThen(s, a, w, sum, key, w1, x);
  }

  lemma NoTextRests(s: Keyring, strict: bool, rows: Rows)
    requires Lawful(s)
    requires var v := SettingValue(rows, AlertWebhook); !(v.Text? && v.text != "")
    ensures CleanAt(s, strict, rows, Place(AlertWebhook, Main))
  {
    assert s.version("").None?;
  }

  /** How the one text setting ends. */
  lemma TextSettingEnds(s: Keyring, w: World, sum: Summary, w1: World, v: Value)
    requires w1 == Interfere(w) && v == SettingValue(w1.rows, AlertWebhook)
    ensures v.Text? && v.text != "" ==>
              && SweepTextSetting(s, w, sum, AlertWebhook) ==
                ProcessBlob(s, w1, sum, v.text, Target.Cell(AlertWebhook, Main), false)
              && AlertWebhook in w1.rows && w1.rows[AlertWebhook].main == v
    ensures !(v.Text? && v.text != "") ==> SweepTextSetting(s, w, sum, AlertWebhook) == (w1, sum)
  {
  }

  lemma TextSettingDone(s: Keyring, a: Aim, w: World, sum: Summary, w1: World, v: Value, x: (World, Summary))
    requires Lawful(s) && Sound(s, a) && OnBook(a, w) && Allowed(a, w.pending)
    requires w1 == Interfere(w) && v == SettingValue(w1.rows, AlertWebhook)
    requires x == SweepTextSetting(s, w, sum, AlertWebhook)
    ensures SettingDone(a, w, sum, AlertWebhook, |w1.log|, x)
  {
    TextSettingEnds(s, w, sum, w1, v);
    if v.Text? && v.text != "" {
      TextTarget(v.text);
      BlobSettingDone(s, a, w, sum, AlertWebhook, v.text, Target.Cell(AlertWebhook, Main), w1, x);
    } else {
      NoTextRests(s, a.strict, w1.rows);
      RestingSettingDone(s, a, w, sum, AlertWebhook, w1);
    }
  }

  lemma TextTarget(text: string)
    ensures var t := Target.Cell(AlertWebhook, Main);
            TargetPlace(t) == Place(AlertWebhook, Main) && Faces(t, text, KindOf(Place(AlertWebhook, Main)))
              && SeenValue(t, text) == Text(text)
  {
  }
}
