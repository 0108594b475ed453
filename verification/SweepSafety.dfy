/**
 * What every run of the sweep keeps, whatever other sessions do meanwhile:
 * its writes never change what a row means, and its counts add up to the
 * envelopes it wrote.
 */
module SweepSafety {
  import opened Strings
  import opened Envelopes
  import opened SweepModel
  import opened SweepInduction

  // ---------------------------------------------------------------- the meaning of stored values

  /** A text that opens means its plaintext; any other text means itself. */
  datatype Meaning = Opened(plaintext: string) | Literal(text: string)

  datatype MemberView = StrView(meaning: Meaning) | OpaqueView(json: int)

  datatype ValueView =
    | NullView
    | TextView(meaning: Meaning)
    | ObjectView(members: map<Name, MemberView>)
    | ScalarView(json: int)

  datatype RowView = RowView(marked: bool, main: ValueView, side: ValueView)

  function MeaningOf(s: Keyring, text: string): Meaning {
    match s.decrypt(text)
    case Some(plaintext) => Opened(plaintext)
    case None => Literal(text)
  }

  function ViewMember(s: Keyring, m: Member): MemberView {
    match m
    case Str(text) => StrView(MeaningOf(s, text))
    case Opaque(json) => OpaqueView(json)
  }

  function ViewValue(s: Keyring, v: Value): ValueView {
    match v
    case Null => NullView
    case Text(text) => TextView(MeaningOf(s, text))
    case Object(members) => ObjectView(map k | k in members :: ViewMember(s, members[k]))
    case Scalar(json) => ScalarView(json)
  }

  function ViewRow(s: Keyring, r: Row): RowView {
    RowView(r.marked, ViewValue(s, r.main), ViewValue(s, r.side))
  }

  /** Everything a reader holding the keys can see. */
  function View(s: Keyring, rows: Rows): map<Key, RowView> {
    map k | k in rows :: ViewRow(s, rows[k])
  }

  // ---------------------------------------------------------------- re-seals

  /** The text is what sealing the plaintext gives, with some initialisation vector. */
  ghost predicate SealOf(s: Keyring, plaintext: string, text: string) {
    exists draw: nat :: text == s.encrypt(draw, plaintext)
  }

  /** `next` is the plaintext of the older-version envelope `prior`, sealed afresh under the current version. */
  ghost predicate ResealedText(s: Keyring, prior: string, next: string) {
    && s.version(prior).Some? && s.version(prior).value != s.current
    && s.version(next) == Some(s.current)
    && s.decrypt(prior).Some? && s.decrypt(next) == s.decrypt(prior)
    && SealOf(s, s.decrypt(prior).value, next)
  }

  ghost predicate ResealedMember(s: Keyring, prior: Member, next: Member) {
    prior.Str? && next.Str? && ResealedText(s, prior.text, next.text)
  }

  ghost predicate ResealedMembers(s: Keyring, prior: map<Name, Member>, next: map<Name, Member>) {
    && prior.Keys == next.Keys
    && (forall k :: k in prior ==> prior[k] == next[k] || ResealedMember(s, prior[k], next[k]))
  }

  /** A swap that re-seals older-version envelopes and touches nothing else. */
  ghost predicate IsReseal(s: Keyring, op: Op) {
    op.Swap? &&
    match (op.expected, op.next)
    case (Text(prior), Text(next)) => ResealedText(s, prior, next)
    case (Object(prior), Object(next)) => ResealedMembers(s, prior, next)
    case _ => false
  }

  /** How many envelopes a re-seal replaces. */
  function Weight(op: Op): nat {
    if op.Swap? && op.expected.Object? && op.next.Object? then
      |set k | k in op.expected.members && k in op.next.members && op.expected.members[k] != op.next.members[k]|
    else 1
  }

  /** A re-seal is a stutter: no reader can tell it happened. */
  lemma ResealStutters(s: Keyring, rows: Rows, op: Op)
    requires IsReseal(s, op)
    ensures View(s, Apply(rows, op)) == View(s, rows)
  {
    if Hits(rows, op) {
      match (op.expected, op.next)
      case (Text(prior), Text(next)) =>
      case (Object(prior), Object(next)) =>
        assert ViewValue(s, op.expected).members == ViewValue(s, op.next).members;
    }
  }

  // ---------------------------------------------------------------- the log

  /**
   * What replaying a log from `base` amounts to; the counts are in envelopes
   * written by the sweep's own winning swaps.
   */
  datatype Books = Books(rows: Rows, written: nat, unheard: nat)

  ghost function Post(b: Books, e: Entry): Books {
    var won := e.own && Hits(b.rows, e.op);
    Books(Apply(b.rows, e.op),
          b.written + if won then Weight(e.op) else 0,
          b.unheard + if won && !e.heard then Weight(e.op) else 0)
  }

  ghost function Replay(base: Rows, log: seq<Entry>): Books {
    if log == [] then Books(base, 0, 0) else Post(Replay(base, log[..|log| - 1]), log[|log| - 1])
  }

  /** A conditional update that took effect, as the plain write it amounted to. */
  function Plainly(op: Op): Op {
    if op.Swap? then Assign(op.key, op.column, op.next) else op
  }

  /** The same log with the re-seals left out: what the writers did, their conditional updates as they fell out. */
  ghost function WritersOnly(s: Keyring, base: Rows, log: seq<Entry>): Rows {
    if log == [] then base
    else
      var front, op := log[..|log| - 1], log[|log| - 1].op;
      if IsReseal(s, op) || !Hits(Replay(base, front).rows, op) then WritersOnly(s, base, front)
      else Apply(WritersOnly(s, base, front), Plainly(op))
  }

  lemma WriteKeepsViews(s: Keyring, a: Rows, b: Rows, op: Op)
    requires View(s, a) == View(s, b) && !op.Swap?
    ensures View(s, Apply(a, op)) == View(s, Apply(b, op))
  {
    assert a.Keys == View(s, a).Keys == View(s, b).Keys == b.Keys;
    forall k | k in Apply(a, op)
      ensures k in Apply(b, op) && ViewRow(s, Apply(a, op)[k]) == ViewRow(s, Apply(b, op)[k])
    {
      if k in a {
        assert View(s, a)[k] == View(s, b)[k];
      }
    }
  }

  lemma PlainlyApplies(rows: Rows, op: Op)
    requires Hits(rows, op)
    ensures Apply(rows, op) == Apply(rows, Plainly(op))
  {
  }

  /** Whatever a log holds, readers see exactly what its writers alone would have left. */
  lemma {:induction false} OnlyWritersShow(s: Keyring, base: Rows, log: seq<Entry>)
    ensures View(s, Replay(base, log).rows) == View(s, WritersOnly(s, base, log))
  {
    if log != [] {
      var front, op := log[..|log| - 1], log[|log| - 1].op;
      OnlyWritersShow(s, base, front);
      var rows := Replay(base, front).rows;
      if IsReseal(s, op) {
        ResealStutters(s, rows, op);
      } else if Hits(rows, op) {
        PlainlyApplies(rows, op);
        WriteKeepsViews(s, rows, WritersOnly(s, base, front), Plainly(op));
      }
    }
  }

  // ---------------------------------------------------------------- the invariant of a run

  predicate Balanced(sum: Summary) {
    sum.scanned == sum.reencrypted + sum.skipped + sum.failed
  }

  ghost predicate OwnReseals(s: Keyring, log: seq<Entry>) {
    forall i :: 0 <= i < |log| && log[i].own ==> IsReseal(s, log[i].op)
  }

  /** The books as a function of the log, whatever the rows it began with. */
  type Ledger = seq<Entry> -> Books

  ghost predicate Posts(ledger: Ledger) {
    forall log: seq<Entry>, e: Entry :: ledger(log + [e]) == Post(ledger(log), e)
  }

  ghost function LedgerOf(base: Rows): Ledger {
    (log: seq<Entry>) => Replay(base, log)
  }

  lemma ReplayPosts(base: Rows)
    ensures Posts(LedgerOf(base))
  {
    forall log: seq<Entry>, e: Entry ensures LedgerOf(base)(log + [e]) == Post(LedgerOf(base)(log), e) {
      assert (log + [e])[..|log|] == log;
    }
  }

  ghost predicate Agrees(books: Books, rows: Rows, before: Summary, sum: Summary) {
    && books.rows == rows
    && books.written == before.reencrypted + sum.reencrypted + books.unheard
    && books.unheard <= before.failed + sum.failed
  }

  /** The books of a run agree with the rows and with the counts. */
  ghost predicate Accounted(s: Keyring, ledger: Ledger, w: World, before: Summary, sum: Summary) {
    Posts(ledger) && OwnReseals(s, w.log) && Agrees(ledger(w.log), w.rows, before, sum)
  }

  lemma {:induction false} ForeignRecords(s: Keyring, ledger: Ledger, w: World, ops: seq<Op>, before: Summary,
                                          sum: Summary)
    requires Accounted(s, ledger, w, before, sum)
    ensures Accounted(s, ledger, RecordAll(w, ops), before, sum)
    ensures RecordAll(w, ops).visits == w.visits
    decreases |ops|
  {
    if ops != [] {
      var e := Entry(false, ops[0], true);
      assert ledger(Record(w, e).log) == Post(ledger(w.log), e);
      ForeignRecords(s, ledger, Record(w, e), ops[1..], before, sum);
    }
  }

  lemma InterfereAccounted(s: Keyring, ledger: Ledger, w: World, before: Summary, sum: Summary)
    requires Accounted(s, ledger, w, before, sum)
    ensures Accounted(s, ledger, Interfere(w), before, sum)
    ensures Interfere(w).visits == w.visits
  {
    if w.pending != [] {
      ForeignRecords(s, ledger, w.(pending := w.pending[1..]), w.pending[0].ops, before, sum);
    }
  }

  /** Posting one of the sweep's own swaps. */
  lemma OwnRecord(s: Keyring, ledger: Ledger, w: World, e: Entry, before: Summary, sum: Summary)
    requires Accounted(s, ledger, w, before, sum)
    requires e.own && IsReseal(s, e.op)
    ensures var w2 := Record(w, e);
            && OwnReseals(s, w2.log)
            && ledger(w2.log) == Post(ledger(w.log), e)
            && ledger(w2.log).rows == w2.rows
  {
    assert Record(w, e).log == w.log + [e];
  }

  lemma OwnRecordSettles(s: Keyring, ledger: Ledger, w: World, e: Entry, before: Summary, sum: Summary,
                         outcome: Outcome)
    requires Accounted(s, ledger, w, before, sum)
    requires e.own && IsReseal(s, e.op) && Weight(e.op) == 1
    requires outcome == if !e.heard then Errored else if Hits(w.rows, e.op) then Won else Lost
    ensures Accounted(s, ledger, Record(w, e), before, Settle(sum, outcome))
  {
    OwnRecord(s, ledger, w, e, before, sum);
  }

  lemma TrySwapAccounted(s: Keyring, ledger: Ledger, w: World, op: Op, before: Summary, sum: Summary)
    requires Accounted(s, ledger, w, before, sum)
    requires IsReseal(s, op) && Weight(op) == 1
    ensures var t := TrySwap(w, op);
            Accounted(s, ledger, t.0, before, Settle(sum, t.1)) && t.0.visits == w.visits
  {
    InterfereAccounted(s, ledger, w, before, sum);
    var w1 := Interfere(w);
    var hit := if Hits(w1.rows, op) then Won else Lost;
    OwnRecordSettles(s, ledger, w1, Entry(true, op, true), before, sum, hit);
    OwnRecordSettles(s, ledger, w1, Entry(true, op, false), before, sum, Errored);
    assert Accounted(s, ledger, w1, before, Settle(sum, Errored));
  }

  lemma SureSwapAccounted(s: Keyring, ledger: Ledger, w: World, op: Op, before: Summary, sum: Summary, more: Summary,
                          n: nat)
    requires Accounted(s, ledger, w, before, sum)
    requires IsReseal(s, op) && Weight(op) == n
    requires more.reencrypted == sum.reencrypted && more.failed >= sum.failed
    ensures var (w2, won) := SureSwap(w, op);
            && w2.visits == w.visits
            && Accounted(s, ledger, w2, before,
                 if won then more.(reencrypted := more.reencrypted + n) else more.(skipped := more.skipped + n))
  {
    InterfereAccounted(s, ledger, w, before, sum);
    OwnRecord(s, ledger, Interfere(w), Entry(true, op, true), before, sum);
  }

  // ---------------------------------------------------------------- blobs

  /** The text under the target is the blob the sweep read there. */
  predicate Holds(target: Target, blob: string) {
    target.Sealed? ==> SealedMember in target.members && target.members[SealedMember] == Str(blob)
  }

  /** The swap for a re-sealed blob is a re-seal of exactly one envelope. */
  lemma SwapForReseals(s: Keyring, target: Target, blob: string, resealed: string)
    requires ResealedText(s, blob, resealed) && Holds(target, blob)
    ensures IsReseal(s, SwapFor(target, blob, resealed))
    ensures Weight(SwapFor(target, blob, resealed)) == 1
  {
    if target.Sealed? {
      var prior := target.members;
      var next := prior[SealedMember := Str(resealed)];
      assert prior.Keys == next.Keys;
      assert (set k | k in prior && k in next && prior[k] != next[k]) == {SealedMember};
    }
  }

  lemma ResealedBlob(s: Keyring, blob: string, allowDaemon: bool, draw: nat)
    requires Lawful(s) && Classify(s, blob, allowDaemon) == Reseal && s.decrypt(blob).Some?
    ensures ResealedText(s, blob, s.encrypt(draw, s.decrypt(blob).value))
  {
  }

  lemma SettleCountsOne(sum: Summary, outcome: Outcome)
    ensures var next := Settle(sum, outcome);
            && next.reencrypted + next.skipped + next.failed == sum.reencrypted + sum.skipped + sum.failed + 1
            && next.scanned == sum.scanned
  {
  }

  lemma DrawAccounted(s: Keyring, ledger: Ledger, w: World, before: Summary, sum: Summary)
    requires Accounted(s, ledger, w, before, sum)
    ensures Accounted(s, ledger, w.(drawn := w.drawn + 1), before, sum)
  {
  }

  lemma SwapAccounted(s: Keyring, ledger: Ledger, w: World, before: Summary, sum: Summary, blob: string, target: Target,
                      resealed: string)
    requires Holds(target, blob) && ResealedText(s, blob, resealed) && Accounted(s, ledger, w, before, sum)
    ensures var t := TrySwap(w, SwapFor(target, blob, resealed));
            Accounted(s, ledger, t.0, before, Settle(sum, t.1)) && t.0.visits == w.visits
  {
    SwapForReseals(s, target, blob, resealed);
    TrySwapAccounted(s, ledger, w, SwapFor(target, blob, resealed), before, sum);
  }

  /** One more blob counted, from `w` and `sum` to `x`. */
  ghost predicate CountsOne(s: Keyring, ledger: Ledger, before: Summary, w: World, sum: Summary, x: (World, Summary)) {
    && Accounted(s, ledger, x.0, before, x.1) && x.0.visits == w.visits
    && x.1.reencrypted + x.1.skipped + x.1.failed == sum.reencrypted + sum.skipped + sum.failed + 1
    && x.1.scanned == sum.scanned
  }

  lemma SettledCountsOne(s: Keyring, ledger: Ledger, before: Summary, w: World, sum: Summary, t: (World, Outcome))
    requires Accounted(s, ledger, t.0, before, Settle(sum, t.1)) && t.0.visits == w.visits
    ensures CountsOne(s, ledger, before, w, sum, (t.0, Settle(sum, t.1)))
  {
    SettleCountsOne(sum, t.1);
  }

  lemma ExchangeSettles(s: Keyring, w: World, sum: Summary, blob: string, target: Target, plaintext: string,
                        t: (World, Outcome))
    requires t == TrySwap(w.(drawn := w.drawn + 1), SwapFor(target, blob, s.encrypt(w.drawn, plaintext)))
    ensures Exchange(s, w, sum, blob, target, plaintext) == (t.0, Settle(sum, t.1))
  {
  }

  lemma ExchangeAccounted(s: Keyring, ledger: Ledger, w: World, before: Summary, sum: Summary, blob: string,
                          target: Target, plaintext: string)
    requires Holds(target, blob) && ResealedText(s, blob, s.encrypt(w.drawn, plaintext))
    requires Accounted(s, ledger, w, before, sum)
    ensures CountsOne(s, ledger, before, w, sum, Exchange(s, w, sum, blob, target, plaintext))
  {
    var resealed, drawn := s.encrypt(w.drawn, plaintext), w.(drawn := w.drawn + 1);
    DrawAccounted(s, ledger, w, before, sum);
    SwapAccounted(s, ledger, drawn, before, sum, blob, target, resealed);
    var t := TrySwap(drawn, SwapFor(target, blob, resealed));
    SettledCountsOne(s, ledger, before, w, sum, t);
    ExchangeSettles(s, w, sum, blob, target, plaintext, t);
  }

  lemma ProcessBlobAccounted(s: Keyring, ledger: Ledger, w: World, before: Summary, sum: Summary, blob: string,
                             target: Target, allowDaemon: bool)
    requires Lawful(s) && Holds(target, blob)
    requires Accounted(s, ledger, w, before, sum) && Balanced(sum)
    ensures var x := ProcessBlob(s, w, sum, blob, target, allowDaemon);
            && Accounted(s, ledger, x.0, before, x.1) && Balanced(x.1)
            && x.0.visits == w.visits && x.1.scanned == sum.scanned + 1
  {
    if Classify(s, blob, allowDaemon) == Reseal && s.decrypt(blob).Some? {
      ResealedBlob(s, blob, allowDaemon, w.drawn);
      var scanned := sum.(scanned := sum.scanned + 1);
      ExchangeAccounted(s, ledger, w, before, scanned, blob, target, s.decrypt(blob).value);
      var x := Exchange(s, w, scanned, blob, target, s.decrypt(blob).value);
      BalancedOnce(sum, x.1);
      ProcessBlobExchanges(s, w, sum, blob, target, allowDaemon);
    } else {
      ProcessBlobPasses(s, w, sum, blob, target, allowDaemon);
    }
  }

  lemma BalancedOnce(sum: Summary, next: Summary)
    requires Balanced(sum) && next.scanned == sum.scanned + 1
    requires next.reencrypted + next.skipped + next.failed == sum.reencrypted + sum.skipped + sum.failed + 1
    ensures Balanced(next)
  {
  }

  lemma ProcessBlobExchanges(s: Keyring, w: World, sum: Summary, blob: string, target: Target, allowDaemon: bool)
    requires Classify(s, blob, allowDaemon) == Reseal && s.decrypt(blob).Some?
    ensures ProcessBlob(s, w, sum, blob, target, allowDaemon)
         == Exchange(s, w, sum.(scanned := sum.scanned + 1), blob, target, s.decrypt(blob).value)
  {
  }

  /** A blob that is not re-sealed is counted and leaves the world as it was. */
  lemma ProcessBlobPasses(s: Keyring, w: World, sum: Summary, blob: string, target: Target, allowDaemon: bool)
    requires Classify(s, blob, allowDaemon) != Reseal || s.decrypt(blob).None?
    ensures var x := ProcessBlob(s, w, sum, blob, target, allowDaemon);
            && x.0 == w && x.1.scanned == sum.scanned + 1 && x.1.reencrypted == sum.reencrypted
            && x.1.failed >= sum.failed && x.1.skipped + x.1.failed == sum.skipped + sum.failed + 1
  {
  }

  // ---------------------------------------------------------------- JSON rows

  /** The members re-sealed so far. */
  ghost predicate Underway(s: Keyring, original: map<Name, Member>, p: Progress, done: set<Name>) {
    && ResealedMembers(s, original, p.members)
    && Changed(original, p.members) <= done && p.resealed == |Changed(original, p.members)|
  }

  predicate Distinct(keys: seq<Name>) {
    forall i, j :: 0 <= i < j < |keys| ==> keys[i] != keys[j]
  }

  function Changed(original: map<Name, Member>, members: map<Name, Member>): set<Name> {
    set k | k in original && k in members && original[k] != members[k]
  }

  /** One member either stays as it is, or is re-sealed and counted. */
  lemma ResealKeyChanges(s: Keyring, p: Progress, key: Name)
    requires Lawful(s)
    ensures var q := ResealKey(s, p, key);
            || (q.members == p.members && q.resealed == p.resealed)
            || (key in p.members && key in q.members && q.members == p.members[key := q.members[key]]
                && ResealedMember(s, p.members[key], q.members[key]) && q.resealed == p.resealed + 1)
  {
  }

  lemma ChangedOneMore(original: map<Name, Member>, members: map<Name, Member>, key: Name, member: Member)
    requires key in original && key in members && members[key] == original[key] && member != original[key]
    ensures Changed(original, members[key := member]) == Changed(original, members) + {key}
    ensures key !in Changed(original, members)
  {
  }

  lemma ResealKeyUnderway(s: Keyring, original: map<Name, Member>, p: Progress, done: set<Name>, key: Name)
    requires Lawful(s) && Underway(s, original, p, done) && key !in done
    ensures Underway(s, original, ResealKey(s, p, key), done + {key})
  {
    var q := ResealKey(s, p, key);
    ResealKeyChanges(s, p, key);
    if q.members != p.members || q.resealed != p.resealed {
      assert key !in Changed(original, p.members);
      assert original[key] == p.members[key] && q.members[key] != p.members[key];
      ChangedOneMore(original, p.members, key, q.members[key]);
    }
  }

  lemma ResealKeyCounts(s: Keyring, p: Progress, key: Name)
    requires p.sum.scanned == p.sum.reencrypted + p.sum.skipped + p.sum.failed + p.resealed
    ensures var q := ResealKey(s, p, key);
            && q.sum.scanned == q.sum.reencrypted + q.sum.skipped + q.sum.failed + q.resealed
            && q.sum.reencrypted == p.sum.reencrypted && q.sum.failed >= p.sum.failed
            && q.sum.scanned <= p.sum.scanned + 1
  {
  }

  lemma {:induction false} ResealKeysUnderway(s: Keyring, original: map<Name, Member>, p: Progress, done: set<Name>,
                                              keys: seq<Name>)
    requires Lawful(s) && Underway(s, original, p, done)
    requires Distinct(keys) && forall i :: 0 <= i < |keys| ==> keys[i] !in done
    requires p.sum.scanned == p.sum.reencrypted + p.sum.skipped + p.sum.failed + p.resealed
    ensures var q := ResealKeys(s, p, keys);
            && ResealedMembers(s, original, q.members)
            && q.resealed == |Changed(original, q.members)|
            && q.sum.scanned == q.sum.reencrypted + q.sum.skipped + q.sum.failed + q.resealed
            && q.sum.reencrypted == p.sum.reencrypted && q.sum.failed >= p.sum.failed
            && q.sum.scanned <= p.sum.scanned + |keys|
    decreases |keys|
  {
    if keys != [] {
      ResealKeyUnderway(s, original, p, done, keys[0]);
      ResealKeyCounts(s, p, keys[0]);
      forall i | 0 <= i < |keys[1..]| ensures keys[1..][i] !in done + {keys[0]} {
        assert keys[1..][i] == keys[i + 1];
      }
      ResealKeysUnderway(s, original, ResealKey(s, p, keys[0]), done + {keys[0]}, keys[1..]);
    }
  }

  lemma ProcessKeyedAccounted(s: Keyring, ledger: Ledger, w: World, before: Summary, sum: Summary, key: Key, v: Value,
                              keys: seq<Name>)
    requires Lawful(s) && Distinct(keys)
    requires Accounted(s, ledger, w, before, sum) && Balanced(sum)
    ensures var (w2, sum2) := ProcessKeyed(s, w, sum, key, v, keys);
            && Accounted(s, ledger, w2, before, sum2) && Balanced(sum2)
            && w2.visits == w.visits && sum2.scanned <= sum.scanned + |keys|
  {
    if v.Object? {
      var p := Progress(v.members, 0, w.drawn, sum);
      assert (set k | k in v.members && k in p.members && v.members[k] != p.members[k]) == {};
      ResealKeysUnderway(s, v.members, p, {}, keys);
      var q := ResealKeys(s, p, keys);
      if q.resealed != 0 {
        var op := Swap(key, Main, v, Object(q.members));
        SureSwapAccounted(s, ledger, w.(drawn := q.drawn), op, before, sum, q.sum, q.resealed);
      }
    }
  }

  // ---------------------------------------------------------------- rows, pages, calls

  lemma ProcessCellAccounted(s: Keyring, ledger: Ledger, w: World, before: Summary, sum: Summary, key: Key,
                             column: Column, v: Value, allowDaemon: bool)
    requires Lawful(s)
    requires Accounted(s, ledger, w, before, sum) && Balanced(sum)
    ensures var x := ProcessCell(s, w, sum, key, column, v, allowDaemon);
            && Accounted(s, ledger, x.0, before, x.1) && Balanced(x.1)
            && x.0.visits == w.visits && x.1.scanned <= sum.scanned + 1
  {
    if v.Text? {
      ProcessBlobAccounted(s, ledger, w, before, sum, v.text, Target.Cell(key, column), allowDaemon);
    }
  }

  lemma ProcessChannelAccounted(s: Keyring, ledger: Ledger, w: World, before: Summary, sum: Summary, key: Key, row: Row)
    requires Lawful(s)
    requires Accounted(s, ledger, w, before, sum) && Balanced(sum)
    ensures var x := ProcessChannel(s, w, sum, key, row);
            && Accounted(s, ledger, x.0, before, x.1) && Balanced(x.1)
            && x.0.visits == w.visits && x.1.scanned <= sum.scanned + 2
  {
    ProcessCellAccounted(s, ledger, w, before, sum, key, Main, row.main, false);
    var x := if row.marked then ProcessCell(s, w, sum, key, Main, row.main, false) else (w, sum);
    ProcessCellAccounted(s, ledger, x.0, before, x.1, key, Side, row.side, false);
  }

  lemma ProcessRowAccounted(s: Keyring, ledger: Ledger, w: World, before: Summary, sum: Summary, stage: TableStage,
                            id: Id, row: Row)
    requires Lawful(s)
    requires Accounted(s, ledger, w, before, sum) && Balanced(sum)
    ensures var (w2, sum2) := ProcessRow(s, w, sum, stage, id, row);
            && Accounted(s, ledger, w2, before, sum2) && Balanced(sum2)
            && w2.visits == w.visits + [Key(stage, id)] && sum2.scanned <= sum.scanned + 3
  {
    var key := Key(stage, id);
    var w1 := w.(visits := w.visits + [key]);
    match ShapeOf(stage)
    case Single(allowDaemon) =>
      ProcessCellAccounted(s, ledger, w1, before, sum, key, Main, row.main, allowDaemon);
    case Keyed(keys) =>
      ProcessKeyedAccounted(s, ledger, w1, before, sum, key, row.main, keys);
    case Channel =>
      ProcessChannelAccounted(s, ledger, w1, before, sum, key, row);
  }

  lemma {:induction false} ProcessRowsAccounted(s: Keyring, ledger: Ledger, w: World, before: Summary, sum: Summary,
                                                stage: TableStage, page: seq<Listed>)
    requires Lawful(s)
    requires Accounted(s, ledger, w, before, sum) && Balanced(sum)
    ensures var (w2, sum2) := ProcessRows(s, w, sum, stage, page);
            && Accounted(s, ledger, w2, before, sum2) && Balanced(sum2)
            && |w2.visits| == |w.visits| + |page| && sum2.scanned <= sum.scanned + 3 * |page|
    decreases |page|
  {
    if page != [] {
      ProcessRowAccounted(s, ledger, w, before, sum, stage, page[0].id, page[0].row);
      var (w1, sum1) := ProcessRow(s, w, sum, stage, page[0].id, page[0].row);
      ProcessRowsAccounted(s, ledger, w1, before, sum1, stage, page[1..]);
    }
  }

  lemma SealedSettingAccounted(s: Keyring, ledger: Ledger, w: World, before: Summary, sum: Summary, key: Key)
    requires Lawful(s)
    requires Accounted(s, ledger, w, before, sum) && Balanced(sum)
    ensures var (w2, sum2) := SweepSealedSetting(s, w, sum, key);
            && Accounted(s, ledger, w2, before, sum2) && Balanced(sum2)
            && w2.visits == w.visits && sum2.scanned <= sum.scanned + 1
  {
    InterfereAccounted(s, ledger, w, before, sum);
    var w1 := Interfere(w);
    var v := SettingValue(w1.rows, key);
    if HasSealed(v) {
      ProcessBlobAccounted(s, ledger, w1, before, sum, v.members[SealedMember].text, Sealed(key, v.members), false);
    }
  }

  /** Secrets at most in the settings stages from `stage` on: two, two, one and two. */
  function SettingsSecrets(stage: Stage): nat {
    if stage <= 15 then 7 else if stage == 16 then 5 else if stage == 17 then 3 else 2
  }

  lemma SettingsAccounted(s: Keyring, ledger: Ledger, w: World, before: Summary, sum: Summary, stage: Stage)
    requires Lawful(s) && stage >= TABLE_STAGES
    requires Accounted(s, ledger, w, before, sum) && Balanced(sum)
    ensures var (w2, sum2) := SweepSettings(s, w, sum, stage);
            && Accounted(s, ledger, w2, before, sum2) && Balanced(sum2) && w2.visits == w.visits
            && sum2.scanned + (if stage == 18 then 0 else SettingsSecrets(stage + 1))
               <= sum.scanned + SettingsSecrets(stage)
  {
    InterfereAccounted(s, ledger, w, before, sum);
    var w1 := Interfere(w);
    if stage == 15 {
      ProcessKeyedAccounted(s, ledger, w1, before, sum, AuthProviders, SettingValue(w1.rows, AuthProviders),
                            AUTH_PROVIDER_KEYS);
    } else if stage == 16 {
      ProcessKeyedAccounted(s, ledger, w1, before, sum, Email, SettingValue(w1.rows, Email), EMAIL_KEYS);
    } else if stage == 17 {
      var v := SettingValue(w1.rows, AlertWebhook);
      if v.Text? {
        ProcessBlobAccounted(s, ledger, w1, before, sum, v.text, Target.Cell(AlertWebhook, Main), false);
      }
    } else {
      SealedSettingAccounted(s, ledger, w, before, sum, PanelIdentity);
      var (w2, sum2) := SweepSealedSetting(s, w, sum, PanelIdentity);
      SealedSettingAccounted(s, ledger, w2, before, sum2, AcmeAccount);
    }
  }

  /** The result of an incomplete call points after a row of a table stage. */
  predicate Resumable(r: Result) {
    r.cursor.Some? && r.cursor.value.stage < TABLE_STAGES && r.cursor.value.afterId.Some?
  }

  lemma BatchAccounted(s: Keyring, ledger: Ledger, w: World, cursor: Cursor, remaining: nat, before: Summary,
                       sum: Summary)
    requires Lawful(s) && remaining > 0 && cursor.stage < TABLE_STAGES
    requires Accounted(s, ledger, w, before, sum) && Balanced(sum)
    ensures var (w2, size, outcome) := RunBatch(s, w, cursor, remaining, sum);
            var sum2 := SumOf(outcome);
            && Accounted(s, ledger, w2, before, sum2) && Balanced(sum2)
            && |w2.visits| == |w.visits| + size && sum2.scanned <= sum.scanned + 3 * size
  {
    InterfereAccounted(s, ledger, w, before, sum);
    var w1 := Interfere(w);
    ProcessRowsAccounted(s, ledger, w1, before, sum, cursor.stage,
                         Page(w1.rows, cursor.stage, cursor.afterId, remaining));
  }

  /** One turn of the loop kept the books and its share of the budget. */
  ghost predicate StageBooks(s: Keyring, ledger: Ledger, w: World, cursor: Cursor, n: nat, before: Summary,
                             sum: Summary,
                             b: (World, nat, BatchOutcome)) {
    && Accounted(s, ledger, b.0, before, SumOf(b.2)) && Balanced(SumOf(b.2))
    && |b.0.visits| == |w.visits| + b.1
    && SumOf(b.2).scanned + (if b.2.Continue? then SettingsSecrets(b.2.cursor.stage) else 0)
       <= sum.scanned + 3 * b.1 + SettingsSecrets(cursor.stage)
    && (b.2.Done? && !b.2.result.completed ==> b.1 == n && Resumable(b.2.result))
  }

  lemma StageAccounted(s: Keyring, ledger: Ledger, w: World, cursor: Cursor, remaining: nat, before: Summary,
                       sum: Summary)
    requires Lawful(s) && remaining > 0
    requires Accounted(s, ledger, w, before, sum) && Balanced(sum)
    ensures StageBooks(s, ledger, w, cursor, remaining, before, sum, RunStage(s, w, cursor, remaining, sum))
  {
    if cursor.stage >= TABLE_STAGES {
      SettingsAccounted(s, ledger, w, before, sum, cursor.stage);
    } else {
      BatchAccounted(s, ledger, w, cursor, remaining, before, sum);
    }
  }

  /** A call kept the books, balanced its counts and stayed within its budget. */
  ghost predicate CallBooks(s: Keyring, ledger: Ledger, w: World, cursor: Cursor, n: nat, before: Summary, sum: Summary,
                            x: (World, Result)) {
    && Accounted(s, ledger, x.0, before, x.1.sum) && Balanced(x.1.sum)
    && |w.visits| <= |x.0.visits| <= |w.visits| + n
    && x.1.sum.scanned <= sum.scanned + 3 * (|x.0.visits| - |w.visits|) + SettingsSecrets(cursor.stage)
    && (!x.1.completed ==> |x.0.visits| == |w.visits| + n && Resumable(x.1))
  }

  ghost function KeepsBooks(s: Keyring, ledger: Ledger, before: Summary): Claim {
    (w: World, c: Cursor, n: nat, sum: Summary, x: (World, Result), looked: seq<Read>) =>
      Accounted(s, ledger, w, before, sum) && Balanced(sum) ==> CallBooks(s, ledger, w, c, n, before, sum, x)
  }

  lemma BooksPass(s: Keyring, ledger: Ledger, before: Summary, w: World, c: Cursor, n: nat, sum: Summary,
                  b: (World, nat, BatchOutcome), looked: seq<Read>)
    requires MovesAt(c, n, b)
    requires Accounted(s, ledger, w, before, sum) && Balanced(sum) ==> StageBooks(s, ledger, w, c, n, before, sum, b)
    ensures Passes(KeepsBooks(s, ledger, before), w, c, n, sum, b, looked)
  {
  }

  /** Every call keeps the books, balances its counts and stays within its budget. */
  lemma AdvanceAccounted(s: Keyring, ledger: Ledger, w: World, cursor: Cursor, remaining: nat, before: Summary,
                         sum: Summary)
    requires Lawful(s) && remaining > 0
    requires Accounted(s, ledger, w, before, sum) && Balanced(sum)
    ensures CallBooks(s, ledger, w, cursor, remaining, before, sum, Advance(s, w, cursor, remaining, sum))
  {
    var p := KeepsBooks(s, ledger, before);
    forall w: World, c: Cursor, n: nat, sum: Summary | n > 0
      ensures Passes(p, w, c, n, sum, RunStage(s, w, c, n, sum), StageReads(s, w, c, n, sum))
    {
      if Accounted(s, ledger, w, before, sum) && Balanced(sum) {
        StageAccounted(s, ledger, w, c, n, before, sum);
      }
      BooksPass(s, ledger, before, w, c, n, sum, RunStage(s, w, c, n, sum), StageReads(s, w, c, n, sum));
    }
    AdvanceInduction(s, p, w, cursor, remaining, sum);
  }

  /**
   * What one call may do, from world `w` to `w2` with result `r`: it performs
   * only re-seals, leaves the rows that its log of operations explains, stays
   * within its row budget, uses all of it when it does not complete, and counts exactly the envelopes it wrote.
   */
  ghost predicate SoundCall(s: Keyring, w: World, limit: nat, w2: World, r: Result) {
    && OwnReseals(s, w2.log)
    && Replay(w.rows, w2.log).rows == w2.rows
    && Replay(w.rows, w2.log).written == r.sum.reencrypted + Replay(w.rows, w2.log).unheard
    && Replay(w.rows, w2.log).unheard <= r.sum.failed
    && Balanced(r.sum)
    && |w2.visits| <= |w.visits| + limit
    && r.sum.scanned <= 3 * limit + 7
    && (!r.completed ==> |w2.visits| == |w.visits| + limit && Resumable(r))
  }

  lemma SoundFromAccounted(s: Keyring, w: World, limit: nat, w2: World, r: Result, settings: nat)
    requires Accounted(s, LedgerOf(w.rows), w2, EMPTY_SUMMARY, r.sum) && Balanced(r.sum)
    requires |w.visits| <= |w2.visits| <= |w.visits| + limit
    requires r.sum.scanned <= 3 * (|w2.visits| - |w.visits|) + settings && settings <= 7
    requires !r.completed ==> |w2.visits| == |w.visits| + limit && Resumable(r)
    ensures SoundCall(s, w, limit, w2, r)
  {
  }

  /** Every call is sound, against any interference. */
  lemma CallIsSound(s: Keyring, w: World, cursor: Cursor, limit: nat)
    requires Lawful(s) && limit > 0 && w.log == []
    ensures var x := Advance(s, w, cursor, limit, EMPTY_SUMMARY); SoundCall(s, w, limit, x.0, x.1)
  {
    ReplayPosts(w.rows);
    AdvanceAccounted(s, LedgerOf(w.rows), w, cursor, limit, EMPTY_SUMMARY, EMPTY_SUMMARY);
    var x := Advance(s, w, cursor, limit, EMPTY_SUMMARY);
    SoundFromAccounted(s, w, limit, x.0, x.1, SettingsSecrets(cursor.stage));
  }

  /**
   * A reader sees after a sound call exactly what the other sessions' writes
   * alone would have left: nothing is lost, reverted or invented.
   */
  lemma SoundCallIsInvisible(s: Keyring, w: World, limit: nat, w2: World, r: Result)
    requires SoundCall(s, w, limit, w2, r)
    ensures View(s, w2.rows) == View(s, WritersOnly(s, w.rows, w2.log))
    ensures forall i :: 0 <= i < |w2.log| && !IsReseal(s, w2.log[i].op) ==> !w2.log[i].own
  {
    OnlyWritersShow(s, w.rows, w2.log);
  }

  /**
   * A database error that ends a call, in a page read or in the update of a
   * JSON row, leaves what the call had done by then: some first part of its
   * log. Wherever it falls, only re-seals were written and no reader can tell.
   */
  lemma StoppedCallIsInvisible(s: Keyring, w: World, cursor: Cursor, limit: nat, log: seq<Entry>)
    requires Lawful(s) && limit > 0 && w.log == []
    requires log <= Advance(s, w, cursor, limit, EMPTY_SUMMARY).0.log
    ensures OwnReseals(s, log)
    ensures View(s, Replay(w.rows, log).rows) == View(s, WritersOnly(s, w.rows, log))
  {
    CallIsSound(s, w, cursor, limit);
    var whole := Advance(s, w, cursor, limit, EMPTY_SUMMARY).0.log;
    assert forall i :: 0 <= i < |log| ==> log[i] == whole[i];
    OnlyWritersShow(s, w.rows, log);
  }

  // ---------------------------------------------------------------- sessions

  /** The rows are those the log explains, and its own entries are re-seals. */
  ghost predicate Booked(s: Keyring, ledger: Ledger, w: World) {
    && Posts(ledger) && OwnReseals(s, w.log)
    && ledger(w.log).rows == w.rows && ledger(w.log).unheard <= ledger(w.log).written
  }

  lemma CallBooked(s: Keyring, ledger: Ledger, w: World, cursor: Cursor, limit: nat, x: (World, Result))
    requires Lawful(s) && limit > 0 && Booked(s, ledger, w) && x == Advance(s, w, cursor, limit, EMPTY_SUMMARY)
    ensures Booked(s, ledger, x.0) && Balanced(x.1.sum)
  {
    var books := ledger(w.log);
    var before := Summary(0, books.written - books.unheard, 0, books.unheard);
    AdvanceAccounted(s, ledger, w, cursor, limit, before, EMPTY_SUMMARY);
  }

  ghost function SessionBooks(s: Keyring, ledger: Ledger): SessionClaim {
    (w: World, c: Cursor, limits: seq<nat>, sum: Summary, x: (World, Result), looked: seq<Read>) =>
      Booked(s, ledger, w) && Balanced(sum) ==> Booked(s, ledger, x.0) && Balanced(x.1.sum)
  }

  lemma BooksCarry(s: Keyring, ledger: Ledger, w: World, c: Cursor, limits: seq<nat>, sum: Summary,
                   x: (World, Result), looked: seq<Read>)
    requires limits != [] && (Booked(s, ledger, w) ==> Booked(s, ledger, x.0) && Balanced(x.1.sum))
    ensures Carries(SessionBooks(s, ledger), w, c, limits, sum, x, looked)
  {
  }

  lemma SessionBooked(s: Keyring, ledger: Ledger, w: World, cursor: Cursor, limits: seq<nat>, sum: Summary,
                      x: (World, Result))
    requires Lawful(s) && Booked(s, ledger, w) && Balanced(sum) && (forall i :: 0 <= i < |limits| ==> limits[i] > 0)
    requires x == Session(s, w, cursor, limits, sum)
    ensures Booked(s, ledger, x.0) && Balanced(x.1.sum)
  {
    var p := SessionBooks(s, ledger);
    forall w: World, c: Cursor, sum: Summary ensures p(w, c, [], sum, (w, Result(sum, false, Some(c))), []) {
    }
    forall w: World, c: Cursor, ls: seq<nat>, sum: Summary | ls != [] && ls[0] > 0
      ensures Carries(p, w, c, ls, sum, Advance(s, w, c, ls[0], EMPTY_SUMMARY),
                      CallReads(s, w, c, ls[0], EMPTY_SUMMARY))
    {
      if Booked(s, ledger, w) {
        CallBooked(s, ledger, w, c, ls[0], Advance(s, w, c, ls[0], EMPTY_SUMMARY));
      }
      BooksCarry(s, ledger, w, c, ls, sum, Advance(s, w, c, ls[0], EMPTY_SUMMARY),
                 CallReads(s, w, c, ls[0], EMPTY_SUMMARY));
    }
    SessionInduction(s, p, w, cursor, limits, sum);
  }

  /** Whole sessions, against any interference: only re-seals, rows as the log explains them, and balanced counts. */
  lemma SessionIsSound(s: Keyring, w: World, cursor: Cursor, limits: seq<nat>, x: (World, Result))
    requires Lawful(s) && w.log == [] && (forall i :: 0 <= i < |limits| ==> limits[i] > 0)
    requires x == Session(s, w, cursor, limits, EMPTY_SUMMARY)
    ensures OwnReseals(s, x.0.log) && Replay(w.rows, x.0.log).rows == x.0.rows && Balanced(x.1.sum)
    ensures Booked(s, LedgerOf(w.rows), x.0)
    ensures View(s, x.0.rows) == View(s, WritersOnly(s, w.rows, x.0.log))
  {
    ReplayPosts(w.rows);
    SessionBooked(s, LedgerOf(w.rows), w, cursor, limits, EMPTY_SUMMARY, x);
    OnlyWritersShow(s, w.rows, x.0.log);
  }
}
