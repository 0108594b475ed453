/** What a finished sweep leaves behind on a quiet database, and runs in which writers make it leave an old key. */
module SweepOutcome {
  import opened Strings
  import opened Envelopes
  import opened SweepModel
  import opened SweepInduction
  import opened SweepRetirement
  import opened SweepOverlap
  import opened SweepIdle
  import B = SweepBatching

  /** After a completed session on a quiet database, failures or not, nothing is left to re-seal. */
  lemma QuietSweepSettles(s: Keyring, w: World, limits: seq<nat>, x: (World, Result))
    requires Lawful(s) && w.pending == [] && forall i :: 0 <= i < |limits| ==> limits[i] > 0
    requires x == Session(s, w, START, limits, EMPTY_SUMMARY)
    ensures x.1.completed ==> Settled(s, x.0)
  {
    B.SessionCovers(s, w, START, limits, EMPTY_SUMMARY);
    forall p ensures x.1.completed ==> CleanAt(s, false, x.0.rows, p) {
      GentleSession(s, false, p, w, limits, x);
    }
  }

  /** Once settled, no further call writes or counts a re-encryption, from any cursor and with any limit. */
  lemma SecondSweepWritesNothing(s: Keyring, w: World, limits: seq<nat>, first: (World, Result), cursor: Cursor,
                                 limit: nat)
    requires Lawful(s) && w.pending == [] && limit > 0
    requires forall i :: 0 <= i < |limits| ==> limits[i] > 0
    requires first == Session(s, w, START, limits, EMPTY_SUMMARY) && first.1.completed
    ensures var again := Advance(s, first.0, cursor, limit, EMPTY_SUMMARY);
            again.0.rows == first.0.rows && again.0.log == first.0.log && again.1.sum.reencrypted == 0
  {
    QuietSweepSettles(s, w, limits, first);
    AdvanceIdle(s, first.0, cursor, limit, EMPTY_SUMMARY);
  }

  // ---------------------------------------------------------------- runs on one JSON row

  /** Two older-version texts that the keyring still opens, and a current one. */
  ghost predicate Rotated(s: Keyring, a: string, b: string, current: string) {
    && Old(s, a) && s.decrypt(a).Some? && Old(s, b) && s.decrypt(b).Some?
    && s.version(current) == Some(s.current)
  }

  function Providers(github: string, google: string): Value {
    Object(map[GithubClientSecret := Str(github), GoogleClientSecret := Str(google)])
  }

  function ProviderRow(v: Value): Rows {
    map[AuthProviders := Row(false, v, Null)]
  }

  /** A turn in which a writer stores a provider value, or nothing happens. */
  function Writes(v: Option<Value>): Turn {
    Turn(if v.None? then [] else [Assign(AuthProviders, Main, v.value)], NoFault)
  }

  function Now(v: Value, written: Option<Value>): Value {
    if written.None? then v else written.value
  }

  function QuietTurns(n: nat): seq<Turn> {
    seq(n, i => Turn([], NoFault))
  }

  /**
   * Only the provider row is stored. A writer may store a value between the
   * sweep's read of the row and its update, and again after that.
   */
  function WriterWorld(v: Value, between: Option<Value>, later: Option<Value>): World {
    World(ProviderRow(v), QuietTurns(15) + [Writes(None), Writes(between), Writes(later)], 0, [], [])
  }

  lemma InterfereWrites(w: World, v: Value, written: Option<Value>, rest: seq<Turn>)
    requires w.rows == ProviderRow(v) && w.pending == [Writes(written)] + rest
    ensures Interfere(w).rows == ProviderRow(Now(v, written)) && Interfere(w).pending == rest
    ensures Interfere(w).drawn == w.drawn
  {
    assert w.pending[1..] == rest && w.pending[0] == Writes(written);
    if written.Some? {
      var w0 := w.(pending := rest);
      var op := Assign(AuthProviders, Main, written.value);
      assert Writes(written).ops[1..] == [];
      assert RecordAll(w0, [op]) == RecordAll(Record(w0, Entry(false, op, true)), [op][1..]);
      assert [op][1..] == [];
    }
  }

  /** One stage without rows uses up one quiet turn and no budget. */
  lemma EmptyStage(s: Keyring, w: World, w1: World, stage: TableStage, limit: nat, sum: Summary)
    requires limit > 0 && w.pending != [] && w.pending[0] == Turn([], NoFault) && w1 == w.(pending := w.pending[1..])
    requires forall k :: k in w.rows ==> !k.Key?
    ensures RunStage(s, w, Cursor(stage, None), limit, sum) == (w1, 0, Continue(Cursor(stage + 1, None), sum))
  {
    assert Interfere(w) == w1;
    assert Candidates(w1.rows, stage, None) == {};
    assert Page(w1.rows, stage, None, limit) == [];
  }

  /** The step passes over stage `i`, from one world to the next. */
  ghost predicate SkipsAt(step: Step, world: nat -> World, i: nat, limit: nat, sum: Summary) {
    i < TABLE_STAGES
      && step(world(i), Cursor(i, None), limit, sum) == (world(i + 1), 0, Continue(Cursor(i + 1, None), sum))
  }

  lemma {:induction false} StagesSkipped(step: Step, world: nat -> World, stage: nat, limit: nat, sum: Summary,
                                         end: (World, Result))
    requires stage <= TABLE_STAGES && limit > 0 && end == Drive(step, world(15), Cursor(15, None), limit, sum)
    requires forall i: nat :: i < TABLE_STAGES ==> SkipsAt(step, world, i, limit, sum)
    ensures Drive(step, world(stage), Cursor(stage, None), limit, sum) == end
    decreases TABLE_STAGES - stage
  {
    if stage < TABLE_STAGES {
      assert SkipsAt(step, world, stage, limit, sum);
      StagesSkipped(step, world, stage + 1, limit, sum, end);
      DriveUnfolds(step, world(stage), Cursor(stage, None), limit, sum,
                   (world(stage + 1), 0, Continue(Cursor(stage + 1, None), sum)));
    }
  }

  function Waiting(w: World, rest: seq<Turn>): nat -> World {
    (i: nat) => w.(pending := QuietTurns(if i <= 15 then 15 - i else 0) + rest)
  }

  lemma WaitingSkips(s: Keyring, w: World, rest: seq<Turn>, i: nat, limit: nat, sum: Summary)
    requires i < TABLE_STAGES && limit > 0 && forall k :: k in w.rows ==> !k.Key?
    ensures SkipsAt(StepOf(s), Waiting(w, rest), i, limit, sum)
  {
    var here, next := Waiting(w, rest)(i), Waiting(w, rest)(i + 1);
    assert here.pending[0] == Turn([], NoFault) && here.pending[1..] == next.pending;
    EmptyStage(s, here, next, i, limit, sum);
  }

  /** Without table rows the table stages only use up their turns. */
  lemma NoTables(s: Keyring, w: World, w0: World, rest: seq<Turn>, limit: nat, sum: Summary, end: (World, Result))
    requires limit > 0 && w.pending == QuietTurns(15) + rest && (forall k :: k in w.rows ==> !k.Key?)
    requires w0 == w.(pending := rest)
    requires end == Advance(s, w0, Cursor(15, None), limit, sum)
    ensures Advance(s, w, START, limit, sum) == end
  {
    forall i: nat | i < TABLE_STAGES ensures SkipsAt(StepOf(s), Waiting(w, rest), i, limit, sum) {
      WaitingSkips(s, w, rest, i, limit, sum);
    }
    assert QuietTurns(0) + rest == rest;
    assert Waiting(w, rest)(15) == w0 && Waiting(w, rest)(0) == w;
    StagesSkipped(StepOf(s), Waiting(w, rest), 0, limit, sum, end);
  }

  /** Both provider secrets are re-sealed and nothing fails. */
  lemma BothResealed(s: Keyring, a: string, b: string, current: string, draw: nat) returns (q: Progress)
    requires Lawful(s) && Rotated(s, a, b, current)
    ensures q == ResealKeys(s, Progress(Providers(a, b).members, 0, draw, EMPTY_SUMMARY), AUTH_PROVIDER_KEYS)
    ensures q.resealed == 2 && q.sum == Summary(2, 0, 0, 0)
    ensures q.members == Providers(s.encrypt(draw, s.decrypt(a).value), s.encrypt(draw + 1, s.decrypt(b).value)).members
  {
    var first := Progress(Providers(a, b).members, 0, draw, EMPTY_SUMMARY);
    var second := ResealKey(s, first, GithubClientSecret);
    q := ResealKey(s, second, GoogleClientSecret);
    assert AUTH_PROVIDER_KEYS[1..] == [GoogleClientSecret] && AUTH_PROVIDER_KEYS[1..][1..] == [];
    assert ResealKeys(s, first, AUTH_PROVIDER_KEYS) == ResealKeys(s, second, AUTH_PROVIDER_KEYS[1..]) == q;
  }

  /** The value the row ends with, given the re-sealed value and what writers stored. */
  function Ends(v: Value, resealed: Value, between: Option<Value>, later: Option<Value>): Value {
    Now(if Now(v, between) == v then resealed else Now(v, between), later)
  }

  lemma ProviderStage(s: Keyring, w: World, a: string, b: string, current: string, between: Option<Value>,
                      later: Option<Value>) returns (q: Progress)
    requires Lawful(s) && Rotated(s, a, b, current)
    requires w.rows == ProviderRow(Providers(a, b)) && w.pending == [Writes(None), Writes(between), Writes(later)]
    ensures q == ResealKeys(s, Progress(Providers(a, b).members, 0, w.drawn, EMPTY_SUMMARY), AUTH_PROVIDER_KEYS)
    ensures q.members
               == Providers(s.encrypt(w.drawn, s.decrypt(a).value), s.encrypt(w.drawn + 1, s.decrypt(b).value)).members
    ensures var x := SweepSettings(s, w, EMPTY_SUMMARY, 15);
            var v, now := Providers(a, b), Now(Providers(a, b), between);
            && x.0.rows == ProviderRow(if now == v then Object(q.members) else now) && x.0.pending == [Writes(later)]
            && x.1 == (if now == v then Summary(2, 2, 0, 0) else Summary(2, 0, 2, 0))
  {
    var v := Providers(a, b);
    assert w.pending == [Writes(None)] + [Writes(between), Writes(later)];
    InterfereWrites(w, v, None, [Writes(between), Writes(later)]);
    var w1 := Interfere(w);
    q := BothResealed(s, a, b, current, w.drawn);
    var w2 := w1.(drawn := q.drawn);
    assert w2.pending == [Writes(between)] + [Writes(later)];
    InterfereWrites(w2, v, between, [Writes(later)]);
  }

  /** A run that completed without a failure, after so many re-encryptions, with the provider row holding `v`. */
  predicate EndsWith(x: (World, Result), v: Value, reencrypted: nat) {
    x.1.completed && x.1.sum.failed == 0 && x.1.sum.reencrypted == reencrypted && x.0.rows == ProviderRow(v)
  }

  /** With only the provider row stored, the remaining settings stages change nothing but its next turn. */
  lemma OtherSettings(s: Keyring, w: World, sum: Summary, v: Value, later: Option<Value>, limit: nat)
    requires limit > 0 && w.rows == ProviderRow(v) && w.pending == [Writes(later)] && sum.failed == 0
    ensures EndsWith(Advance(s, w, Cursor(16, None), limit, sum), Now(v, later), sum.reencrypted)
  {
    assert w.pending == [Writes(later)] + [];
    InterfereWrites(w, v, later, []);
    var w1 := Interfere(w);
    AdvanceUnfolds(s, w, Cursor(16, None), limit, sum, (w1, 0, Continue(Cursor(17, None), sum)));
    AdvanceUnfolds(s, w1, Cursor(17, None), limit, sum, (w1, 0, Continue(Cursor(18, None), sum)));
    AdvanceUnfolds(s, w1, Cursor(18, None), limit, sum, (w1, 0, Done(Result(sum, true, None))));
  }

  lemma AfterProviders(s: Keyring, w: World, limit: nat, x: (World, Summary), v: Value, n: nat)
    requires limit > 0 && x == SweepSettings(s, w, EMPTY_SUMMARY, 15)
    requires EndsWith(Advance(s, x.0, Cursor(16, None), limit, x.1), v, n)
    ensures EndsWith(Advance(s, w, Cursor(15, None), limit, EMPTY_SUMMARY), v, n)
  {
    AdvanceUnfolds(s, w, Cursor(15, None), limit, EMPTY_SUMMARY, (x.0, 0, Continue(Cursor(16, None), x.1)));
  }

  lemma AfterTables(s: Keyring, w: World, w0: World, rest: seq<Turn>, limit: nat, v: Value, n: nat)
    requires limit > 0 && w.pending == QuietTurns(15) + rest && (forall k :: k in w.rows ==> !k.Key?)
    requires w0 == w.(pending := rest)
    requires EndsWith(Advance(s, w0, Cursor(15, None), limit, EMPTY_SUMMARY), v, n)
    ensures EndsWith(Advance(s, w, START, limit, EMPTY_SUMMARY), v, n)
  {
    NoTables(s, w, w0, rest, limit, EMPTY_SUMMARY, Advance(s, w0, Cursor(15, None), limit, EMPTY_SUMMARY));
  }

  /** Every such run completes without a failure; the row ends as the writers and the one update leave it. */
  lemma WriterRun(s: Keyring, a: string, b: string, current: string, between: Option<Value>, later: Option<Value>,
                  limit: nat,
                  v: Value, now: Value) returns (resealed: Value)
    requires Lawful(s) && Rotated(s, a, b, current) && limit > 0 && v == Providers(a, b) && now == Now(v, between)
    ensures EndsWith(Advance(s, WriterWorld(v, between, later), START, limit, EMPTY_SUMMARY),
                     Ends(v, resealed, between, later), if now == v then 2 else 0)
  {
    var w, rest := WriterWorld(v, between, later), [Writes(None), Writes(between), Writes(later)];
    var w0 := w.(pending := rest);
    var q := ProviderStage(s, w0, a, b, current, between, later);
    resealed := Object(q.members);
    var x := SweepSettings(s, w0, EMPTY_SUMMARY, 15);
    OtherSettings(s, x.0, x.1, if now == v then resealed else now, later, limit);
    AfterProviders(s, w0, limit, x, Ends(v, resealed, between, later), if now == v then 2 else 0);
    AfterTables(s, w, w0, rest, limit, Ends(v, resealed, between, later), if now == v then 2 else 0);
  }

  predicate ProvidersClean(s: Keyring, rows: Rows) {
    CleanAt(s, true, rows, Place(AuthProviders, Main))
  }

  lemma OldKeyRemains(s: Keyring, b: string, current: string)
    requires Old(s, b)
    ensures !ProvidersClean(s, ProviderRow(Providers(current, b)))
  {
    var m := Providers(current, b).members;
    assert AUTH_PROVIDER_KEYS[1] == GoogleClientSecret && m[GoogleClientSecret] == Str(b);
  }

  lemma NewValue(s: Keyring, a: string, b: string, current: string)
    requires Rotated(s, a, b, current)
    ensures Providers(current, b) != Providers(a, b)
  {
    assert Providers(current, b).members[GithubClientSecret] == Str(current);
    assert Providers(a, b).members[GithubClientSecret] == Str(a);
  }

  /**
   * For every lawful keyring: a writer that replaces one provider secret by a
   * current envelope, between the sweep's read and its update, and writes the
   * other back as it was, makes the update lose. The sweep completes without a
   * failure and leaves the old envelope.
   */
  lemma LostSwapKeepsOldKey(s: Keyring, a: string, b: string, current: string, limit: nat)
    requires Lawful(s) && Rotated(s, a, b, current) && limit > 0
    ensures EndsWith(
              Advance(s, WriterWorld(Providers(a, b), Some(Providers(current, b)), None), START, limit, EMPTY_SUMMARY),
              Providers(current, b), 0)
    ensures !ProvidersClean(s, ProviderRow(Providers(current, b)))
  {
    NewValue(s, a, b, current);
    var resealed := WriterRun(s, a, b, current, Some(Providers(current, b)), None, limit, Providers(a, b),
                              Providers(current, b));
    OldKeyRemains(s, b, current);
  }

  /** The same writer after the update: the update wins, and the old envelope comes back all the same. */
  lemma LateWriterKeepsOldKey(s: Keyring, a: string, b: string, current: string, limit: nat)
    requires Lawful(s) && Rotated(s, a, b, current) && limit > 0
    ensures EndsWith(
              Advance(s, WriterWorld(Providers(a, b), None, Some(Providers(current, b))), START, limit, EMPTY_SUMMARY),
              Providers(current, b), 2)
    ensures !ProvidersClean(s, ProviderRow(Providers(current, b)))
  {
    var resealed := WriterRun(s, a, b, current, None, Some(Providers(current, b)), limit, Providers(a, b),
                              Providers(a, b));
    OldKeyRemains(s, b, current);
  }

  /** A lost update alone decides nothing: a later writer can still clean the row. */
  lemma LaterWriterCleans(s: Keyring, a: string, b: string, current: string, limit: nat)
    requires Lawful(s) && Rotated(s, a, b, current) && limit > 0
    ensures var w := WriterWorld(Providers(a, b), Some(Providers(current, b)), Some(Providers(current, current)));
            EndsWith(Advance(s, w, START, limit, EMPTY_SUMMARY), Providers(current, current), 0)
    ensures ProvidersClean(s, ProviderRow(Providers(current, current)))
  {
    NewValue(s, a, b, current);
    var resealed := WriterRun(s, a, b, current, Some(Providers(current, b)), Some(Providers(current, current)), limit,
                              Providers(a, b), Providers(current, b));
    AllCurrent(s, current);
  }

  lemma AllCurrent(s: Keyring, current: string)
    requires s.version(current) == Some(s.current)
    ensures ProvidersClean(s, ProviderRow(Providers(current, current)))
  {
  }

  /** The texts the control plane stores: formatted envelopes of a fallback version and of the current one. */
  lemma FormattedTextsRotate(s: Secrets, version: nat, p1: string, p2: string, draw: nat, plaintext: string)
    requires SoundCipher(s) && version >= 1 && version != s.current && version in s.fallbacks
    requires PlainField(p1) && PlainField(p2) && s.cipher.open(version, p1).Some? && s.cipher.open(version, p2).Some?
    ensures Rotated(KeyringOf(s), Format(SCHEME_SECRET, version, [p1]), Format(SCHEME_SECRET, version, [p2]),
                    Encrypt(s, draw, plaintext))
  {
    ParseFormat(SCHEME_SECRET, version, [p1]);
    ParseFormat(SCHEME_SECRET, version, [p2]);
    EncryptLaws(s, draw, plaintext);
  }

  /** The counterexample on real envelope texts, for every sound cipher with a fallback version. */
  lemma RealSwapKeepsOldKey(s: Secrets, version: nat, p1: string, p2: string, draw: nat, plaintext: string, limit: nat)
    requires SoundCipher(s) && version >= 1 && version != s.current && version in s.fallbacks && limit > 0
    requires PlainField(p1) && PlainField(p2) && s.cipher.open(version, p1).Some? && s.cipher.open(version, p2).Some?
    ensures var k := KeyringOf(s);
            var a, b := Format(SCHEME_SECRET, version, [p1]), Format(SCHEME_SECRET, version, [p2]);
            var left := Providers(Encrypt(s, draw, plaintext), b);
            && EndsWith(Advance(k, WriterWorld(Providers(a, b), Some(left), None), START, limit, EMPTY_SUMMARY),
              left, 0)
            && !ProvidersClean(k, ProviderRow(left))
  {
    KeyringLawful(s);
    FormattedTextsRotate(s, version, p1, p2, draw, plaintext);
    LostSwapKeepsOldKey(KeyringOf(s), Format(SCHEME_SECRET, version, [p1]), Format(SCHEME_SECRET, version, [p2]),
                        Encrypt(s, draw, plaintext), limit);
  }
}
