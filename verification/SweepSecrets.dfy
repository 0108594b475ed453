/** End to end: what a secret is after a sweep, from the key it was sealed under to the key it is sealed under. */
module SweepSecrets {
  import opened Strings
  import opened Envelopes
  import opened SweepModel
  import opened SweepInduction
  import opened SweepSafety
  import opened SweepRetirement
  import opened SweepOverlap
  import opened SweepIdle
  import opened SweepOutcome
  import opened SweepCounts

  // ---------------------------------------------------------------- one secret

  /** A whole column, or a named member of a JSON column. */
  datatype Spot = Whole | Named(name: Name)

  /** The text stored there, if any. */
  function TextAt(rows: Rows, p: Place, spot: Spot): Option<string> {
    if p.key !in rows then None
    else
      match (spot, rows[p.key].Cell(p.column))
      case (Whole, Text(text)) => Some(text)
      case (Named(name), Object(members)) =>
        if name in members && members[name].Str? then Some(members[name].text) else None
      case _ => None
  }

  /** The spot is one that the sweep is there for. */
  predicate Covered(p: Place, spot: Spot) {
    match spot
    case Whole => KindOf(p) == WholeText
    case Named(name) => KindOf(p).Members? && name in KindOf(p).keys
  }

  /** What was there at first, or its plaintext sealed afresh. */
  ghost predicate SameSecret(s: Keyring, first: string, plaintext: string, text: string) {
    text == first || SealOf(s, plaintext, text)
  }

  ghost predicate KeepsSecret(s: Keyring, p: Place, spot: Spot, marked: bool, first: string, plaintext: string,
                              rows: Rows) {
    && p.key in rows && rows[p.key].marked == marked
    && TextAt(rows, p, spot).Some? && SameSecret(s, first, plaintext, TextAt(rows, p, spot).value)
  }

  lemma SameSecretOpens(s: Keyring, first: string, plaintext: string, text: string)
    requires Lawful(s) && s.decrypt(first) == Some(plaintext) && SameSecret(s, first, plaintext, text)
    ensures s.decrypt(text) == Some(plaintext)
  {
    if SealOf(s, plaintext, text) {
      var draw: nat :| text == s.encrypt(draw, plaintext);
    }
  }

  /** A re-seal leaves the secret what it was. */
  lemma ResealKeepsSecret(s: Keyring, p: Place, spot: Spot, marked: bool, first: string, plaintext: string, rows: Rows,
                          op: Op)
    requires Lawful(s) && s.decrypt(first) == Some(plaintext) && IsReseal(s, op)
    requires KeepsSecret(s, p, spot, marked, first, plaintext, rows)
    ensures KeepsSecret(s, p, spot, marked, first, plaintext, Apply(rows, op))
  {
    var text := TextAt(rows, p, spot).value;
    SameSecretOpens(s, first, plaintext, text);
  }

  lemma {:induction false} LogKeepsSecret(s: Keyring, p: Place, spot: Spot, marked: bool, first: string,
                                          plaintext: string, base: Rows, log: seq<Entry>)
    requires Lawful(s) && s.decrypt(first) == Some(plaintext)
    requires KeepsSecret(s, p, spot, marked, first, plaintext, base)
    requires OwnReseals(s, log) && forall i :: 0 <= i < |log| ==> log[i].own
    ensures KeepsSecret(s, p, spot, marked, first, plaintext, Replay(base, log).rows)
  {
    if log != [] {
      var front, e := log[..|log| - 1], log[|log| - 1];
      LogKeepsSecret(s, p, spot, marked, first, plaintext, base, front);
      assert e.own && IsReseal(s, e.op);
      ResealKeepsSecret(s, p, spot, marked, first, plaintext, Replay(base, front).rows, e.op);
    }
  }

  /** Of the two, only a text of the current version is at rest. */
  lemma RestingSecret(s: Keyring, p: Place, spot: Spot, marked: bool, first: string, plaintext: string, rows: Rows)
    requires Lawful(s) && Covered(p, spot) && !Exempt(p, marked) && s.decrypt(first) == Some(plaintext)
    requires s.version(first).Some? && KeepsSecret(s, p, spot, marked, first, plaintext, rows)
    requires CleanAt(s, false, rows, p)
    ensures var text := TextAt(rows, p, spot).value;
            (text == first && s.version(first) == Some(s.current)) || SealOf(s, plaintext, text)
  {
    var text := TextAt(rows, p, spot).value;
    SameSecretOpens(s, first, plaintext, text);
    if spot.Named? {
      var i :| 0 <= i < |KindOf(p).keys| && KindOf(p).keys[i] == spot.name;
    }
  }

  /**
   * A secret at a covered spot that opens to a plaintext is, after a completed
   * session on a quiet database, that plaintext sealed under the current key:
   * the text that was there if it was current, and otherwise a fresh one.
   */
  lemma SecretSurvives(s: Keyring, p: Place, spot: Spot, w: World, limits: seq<nat>, x: (World, Result),
                       first: string, plaintext: string)
    requires Lawful(s) && w.pending == [] && w.log == [] && (forall i :: 0 <= i < |limits| ==> limits[i] > 0)
    requires x == Session(s, w, START, limits, EMPTY_SUMMARY) && x.1.completed
    requires Covered(p, spot) && TextAt(w.rows, p, spot) == Some(first) && !Exempt(p, w.rows[p.key].marked)
    requires s.version(first).Some? && s.decrypt(first) == Some(plaintext)
    ensures var text := TextAt(x.0.rows, p, spot);
            text.Some? && ((text == Some(first) && s.version(first) == Some(s.current))
                           || SealOf(s, plaintext, text.value))
  {
    var marked := w.rows[p.key].marked;
    SessionIsSound(s, w, START, limits, x);
    SessionIsSmooth(s, w, START, limits, x);
    LogKeepsSecret(s, p, spot, marked, first, plaintext, w.rows, x.0.log);
    QuietSweepSettles(s, w, limits, x);
    RestingSecret(s, p, spot, marked, first, plaintext, x.0.rows);
  }

  /**
   * The same with the control plane's own envelopes: a secret sealed under any
   * known version, current or fallback, ends as an envelope of the same plaintext
   * under the current version.
   */
  lemma RotationKeepsPlaintext(s: Secrets, p: Place, spot: Spot, w: World, limits: seq<nat>, x: (World, Result),
                               version: nat, draw: nat, plaintext: string)
    requires SoundCipher(s) && KnownVersion(s, version) && w.pending == [] && w.log == []
    requires forall i :: 0 <= i < |limits| ==> limits[i] > 0
    requires x == Session(KeyringOf(s), w, START, limits, EMPTY_SUMMARY) && x.1.completed
    requires Covered(p, spot) && TextAt(w.rows, p, spot) == Some(SealedUnder(s, version, draw, plaintext))
    requires !Exempt(p, w.rows[p.key].marked)
    ensures exists draw2: nat :: TextAt(x.0.rows, p, spot) == Some(Encrypt(s, draw2, plaintext))
  {
    var k, first := KeyringOf(s), SealedUnder(s, version, draw, plaintext);
    KeyringLawful(s);
    DecryptKnown(s, version, draw, plaintext);
    SecretSurvives(k, p, spot, w, limits, x, first, plaintext);
    if version == s.current {
      assert first == Encrypt(s, draw, plaintext);
    }
    var text := TextAt(x.0.rows, p, spot).value;
    if SealOf(k, plaintext, text) {
      var draw2: nat :| text == k.encrypt(draw2, plaintext);
      assert text == Encrypt(s, draw2, plaintext);
    }
  }

  // ---------------------------------------------------------------- the second sweep

  /**
   * Where every sealed place holds an envelope that is up to date or opens, a
   * completed session on a quiet database reports no failure, and whatever a
   * later call scans it skips.
   */
  lemma SecondSweepSkipsAll(s: Keyring, w: World, limits: seq<nat>, first: (World, Result), cursor: Cursor, limit: nat)
    requires Lawful(s) && w.pending == [] && w.log == [] && limit > 0 && AllFine(s, w.rows)
    requires forall i :: 0 <= i < |limits| ==> limits[i] > 0
    requires first == Session(s, w, START, limits, EMPTY_SUMMARY) && first.1.completed
    ensures first.1.sum.failed == 0
    ensures var again := Advance(s, first.0, cursor, limit, EMPTY_SUMMARY).1.sum;
            again.failed == 0 && again.reencrypted == 0 && again.skipped == again.scanned
  {
    var again := Advance(s, first.0, cursor, limit, EMPTY_SUMMARY);
    FineSessionNeverFails(s, w, START, limits, first);
    SecondSweepWritesNothing(s, w, limits, first, cursor, limit);
    AdvanceSmooth(s, first.0, cursor, limit, EMPTY_SUMMARY, again);
    SessionIsSound(s, w, START, limits, first);
    CallBooked(s, LedgerOf(w.rows), first.0, cursor, limit, again);
  }
}
