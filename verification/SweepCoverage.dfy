/**
 * From one place to whole runs: every place the sweep looks at is covered by
 * one of the reads of a completed session, and from that read on the session
 * pursues any aim at the place to its end.
 */
module SweepCoverage {
  import opened Strings
  import opened Envelopes
  import opened SweepModel
  import opened SweepInduction
  import opened SweepRetirement

  /** The read at which the sweep decides about a place: the page that holds it or passes it by, or its setting. */
  predicate ReadCovers(read: Read, p: Place) {
    match read
    case SettingRead(key, _, _) => p.key == key
    case PageRead(stage, after, limit, rows, _) =>
      && p.key.Key? && p.key.table == stage && (after.None? || Less(after.value, p.key.id))
      && var page := Page(rows, stage, after, limit);
         |page| < limit || (page != [] && !Less(page[|page| - 1].id, p.key.id))
  }

  // ---------------------------------------------------------------- one turn of the loop

  /** One turn is steady, and meets the aim if one of its reads covers the place and the aim is pursued by then. */
  ghost predicate TurnDone(a: Aim, w: World, sum: Summary, x: (World, Summary), looked: seq<Read>) {
    && StepSteady(a, w, sum, x)
    && (forall i :: 0 <= i < |looked| ==> |w.log| <= looked[i].at <= |x.0.log|)
    && (forall i :: 0 <= i < |looked| && ReadCovers(looked[i], a.place) && a.from <= looked[i].at ==>
      StepMeets(a, sum, x))
  }

  lemma PageDone(s: Keyring, a: Aim, w: World, sum: Summary, stage: TableStage, after: Option<string>, limit: nat,
                 page: seq<Listed>, x: (World, Summary))
    requires Lawful(s) && Sound(s, a) && OnBook(a, w) && Allowed(a, w.pending) && limit > 0
    requires page == Page(w.rows, stage, after, limit) && x == ProcessRows(s, w, sum, stage, page)
    ensures StepSteady(a, w, sum, x)
    ensures ReadCovers(PageRead(stage, after, limit, w.rows, |w.log|), a.place) && a.from <= |w.log| ==>
              StepMeets(a, sum, x)
  {
    RowsSteady(s, a, w, sum, stage, page, x);
    if ReadCovers(PageRead(stage, after, limit, w.rows, |w.log|), a.place) && a.from <= |w.log| {
      SinceRead(s, a, w);
      if a.place.key in w.rows && Matches(stage, w.rows[a.place.key]) {
        PageIsRead(w.rows, stage, after, limit);
        PageCovers(w.rows, stage, after, limit, a.place);
        RowsMeet(s, a, w, sum, stage, page, w.rows, x);
      }
    }
  }

  lemma BatchEnds(s: Keyring, w: World, c: Cursor, n: nat, sum: Summary, w1: World, page: seq<Listed>,
                  x: (World, Summary))
    requires n > 0 && c.stage < TABLE_STAGES && w1 == Interfere(w)
    requires page == Page(w1.rows, c.stage, c.afterId, n) && x == ProcessRows(s, w1, sum, c.stage, page)
    ensures RunStage(s, w, c, n, sum) == (x.0, |page|, ResolveBatch(x.1, c, |page|, LastId(page), n))
    ensures StageReads(s, w, c, n, sum) == [PageRead(c.stage, c.afterId, n, w1.rows, |w1.log|)]
  {
  }

  lemma BatchDone(s: Keyring, a: Aim, w: World, c: Cursor, n: nat, sum: Summary, b: (World, nat, BatchOutcome),
                  looked: seq<Read>)
    requires Lawful(s) && Sound(s, a) && OnBook(a, w) && Allowed(a, w.pending) && n > 0 && c.stage < TABLE_STAGES
    requires b == RunStage(s, w, c, n, sum) && looked == StageReads(s, w, c, n, sum)
    ensures TurnDone(a, w, sum, (b.0, SumOf(b.2)), looked)
  {
    var w1 := Interfere(w);
    var page := Page(w1.rows, c.stage, c.afterId, n);
    var x := ProcessRows(s, w1, sum, c.stage, page);
    BatchEnds(s, w, c, n, sum, w1, page, x);
    InterfereSteady(s, a, w);
    PageDone(s, a, w1, sum, c.stage, c.afterId, n, page, x);
    StepSteadyTransitive(s, a, w, sum, (w1, sum), x);
  }

  lemma OneSettingDone(a: Aim, w: World, sum: Summary, x: (World, Summary), key: Key, w1: World)
    requires SettingDone(a, w, sum, key, |w1.log|, x) && w1 == Interfere(w) && !key.Key?
    requires a.place.key == key ==> a.place.column == Main
    ensures TurnDone(a, w, sum, x, [ReadSetting(w, key)])
  {
  }

  /** Two settings, one after the other. */
  lemma TwoSettingsDone(s: Keyring, a: Aim, w: World, sum: Summary, x: (World, Summary), y: (World, Summary),
                        first: Read, second: Read)
    requires Sound(s, a) && first.SettingRead? && second.SettingRead?
    requires SettingDone(a, w, sum, first.key, first.at, x) && SettingDone(a, x.0, x.1, second.key, second.at, y)
    requires a.place.key == first.key || a.place.key == second.key ==> a.place.column == Main
    ensures TurnDone(a, w, sum, y, [first, second])
  {
    StepSteadyTransitive(s, a, w, sum, x, y);
    if a.place == Place(first.key, Main) && a.from <= first.at {
      MeetsThenSteady(s, a, w, sum, x, y);
    }
  }

  lemma IdentityDone(s: Keyring, a: Aim, w: World, sum: Summary, x: (World, Summary), y: (World, Summary))
    requires Lawful(s) && Sound(s, a) && OnBook(a, w) && Allowed(a, w.pending) && KindOf(a.place) != Nothing
    requires x == SweepSealedSetting(s, w, sum, PanelIdentity) && y == SweepSealedSetting(s, x.0, x.1, AcmeAccount)
    ensures TurnDone(a, w, sum, y, [ReadSetting(w, PanelIdentity), ReadSetting(x.0, AcmeAccount)])
  {
    SealedSettingDone(s, a, w, sum, PanelIdentity, Interfere(w), x);
    SealedSettingDone(s, a, x.0, x.1, AcmeAccount, Interfere(x.0), y);
    TwoSettingsDone(s, a, w, sum, x, y, ReadSetting(w, PanelIdentity), ReadSetting(x.0, AcmeAccount));
  }

  lemma SettingsEnd(s: Keyring, w: World, c: Cursor, n: nat, sum: Summary, x: (World, Summary))
    requires n > 0 && c.stage >= TABLE_STAGES && x == SweepSettings(s, w, sum, c.stage)
    ensures var b := RunStage(s, w, c, n, sum); b.0 == x.0 && SumOf(b.2) == x.1
  {
  }

  lemma SettingsDone(s: Keyring, a: Aim, w: World, c: Cursor, n: nat, sum: Summary, x: (World, Summary))
    requires Lawful(s) && Sound(s, a) && OnBook(a, w) && Allowed(a, w.pending) && n > 0 && c.stage >= TABLE_STAGES
    requires KindOf(a.place) != Nothing && x == SweepSettings(s, w, sum, c.stage)
    ensures TurnDone(a, w, sum, x, StageReads(s, w, c, n, sum))
  {
    var w1 := Interfere(w);
    if c.stage == 15 {
      KeyedSettingDone(s, a, w, sum, AuthProviders, AUTH_PROVIDER_KEYS, x);
      OneSettingDone(a, w, sum, x, AuthProviders, w1);
    } else if c.stage == 16 {
      KeyedSettingDone(s, a, w, sum, Email, EMAIL_KEYS, x);
      OneSettingDone(a, w, sum, x, Email, w1);
    } else if c.stage == 17 {
      TextSettingDone(s, a, w, sum, w1, SettingValue(w1.rows, AlertWebhook), x);
      OneSettingDone(a, w, sum, x, AlertWebhook, w1);
    } else {
      IdentityDone(s, a, w, sum, SweepSealedSetting(s, w, sum, PanelIdentity), x);
    }
  }

  lemma StageDone(s: Keyring, a: Aim, w: World, c: Cursor, n: nat, sum: Summary, b: (World, nat, BatchOutcome),
                  looked: seq<Read>)
    requires Lawful(s) && Sound(s, a) && OnBook(a, w) && Allowed(a, w.pending) && n > 0 && KindOf(a.place) != Nothing
    requires b == RunStage(s, w, c, n, sum) && looked == StageReads(s, w, c, n, sum)
    ensures TurnDone(a, w, sum, (b.0, SumOf(b.2)), looked)
  {
    if c.stage < TABLE_STAGES {
      BatchDone(s, a, w, c, n, sum, b, looked);
    } else {
      var x := SweepSettings(s, w, sum, c.stage);
      SettingsEnd(s, w, c, n, sum, x);
      SettingsDone(s, a, w, c, n, sum, x);
    }
  }

  // ---------------------------------------------------------------- what has been passed has been covered

  /** The place lies before the cursor. */
  predicate Past(cursor: Cursor, p: Place) {
    || StageOf(p.key) < cursor.stage
    || (p.key.Key? && p.key.table == cursor.stage && cursor.afterId.Some? && !Less(cursor.afterId.value, p.key.id))
  }

  /** Where a call ended; the whole database lies before the end of a completed sweep. */
  predicate PastResult(r: Result, p: Place) {
    r.cursor.None? || Past(r.cursor.value, p)
  }

  predicate PastOutcome(outcome: BatchOutcome, p: Place) {
    match outcome
    case Done(r) => PastResult(r, p)
    case Continue(next, _) => Past(next, p)
  }

  ghost predicate SomeCovers(looked: seq<Read>, p: Place) {
    exists i :: 0 <= i < |looked| && ReadCovers(looked[i], p)
  }

  lemma PageOutcome(sum: Summary, c: Cursor, page: seq<Listed>, n: nat, p: Place)
    requires n > 0 && |page| <= n && !Past(c, p) && c.stage < TABLE_STAGES
    requires PastOutcome(ResolveBatch(sum, c, |page|, LastId(page), n), p)
    ensures p.key.Key? && p.key.table == c.stage && (c.afterId.None? || Less(c.afterId.value, p.key.id))
    ensures |page| < n || (page != [] && !Less(page[|page| - 1].id, p.key.id))
  {
  }

  lemma StageCovers(s: Keyring, w: World, c: Cursor, n: nat, sum: Summary, p: Place)
    requires n > 0 && KindOf(p) != Nothing && !Past(c, p) && PastOutcome(RunStage(s, w, c, n, sum).2, p)
    ensures SomeCovers(StageReads(s, w, c, n, sum), p)
  {
    var looked := StageReads(s, w, c, n, sum);
    if c.stage < TABLE_STAGES {
      var w1 := Interfere(w);
      var page := Page(w1.rows, c.stage, c.afterId, n);
      var x := ProcessRows(s, w1, sum, c.stage, page);
      BatchEnds(s, w, c, n, sum, w1, page, x);
      PageWithin(w1.rows, c.stage, c.afterId, n);
      PageOutcome(x.1, c, page, n, p);
      assert ReadCovers(looked[0], p);
    } else {
      assert StageOf(p.key) == c.stage;
      assert ReadCovers(looked[0], p) || ReadCovers(looked[|looked| - 1], p);
    }
  }

  // ---------------------------------------------------------------- calls and sessions

  /** The aim that `mets(from)` is met, pursued from that length of the log on. */
  function At(a: Aim, mets: nat -> seq<Entry> -> bool, from: nat): Aim {
    a.(from := from, met := mets(from))
  }

  ghost predicate Family(s: Keyring, a: Aim, mets: nat -> seq<Entry> -> bool) {
    forall k: nat :: k >= a.start ==> Sound(s, At(a, mets, k))
  }

  /** Some covering read, and what it was read for is met at the end. */
  ghost predicate Followed(a: Aim, mets: nat -> seq<Entry> -> bool, from: nat, end: seq<Entry>, looked: seq<Read>) {
    exists i :: 0 <= i < |looked| && ReadCovers(looked[i], a.place) && from <= looked[i].at <= |end|
      && mets(looked[i].at)(end)
  }

  /** A stretch of a run from a cursor on; `passed` says whether the place lies before its end. */
  ghost predicate Handled(a: Aim, mets: nat -> seq<Entry> -> bool, w: World, c: Cursor, sum: Summary,
                          y: (World, Summary),
                          looked: seq<Read>, passed: bool) {
    && OnBook(a, y.0) && Allowed(a, y.0.pending) && |w.log| <= |y.0.log| && sum.failed <= y.1.failed
    && (forall k: nat :: a.start <= k <= |w.log| ==> StepSteady(At(a, mets, k), w, sum, y))
    && (!Past(c, a.place) && passed && Fine(a.strict, sum, y.1) ==> Followed(a, mets, |w.log|, y.0.log, looked))
  }

  lemma FollowedOn(a: Aim, mets: nat -> seq<Entry> -> bool, w: World, w1: World, sum1: Summary, y: (World, Summary),
                   looked: seq<Read>, more: seq<Read>)
    requires a.start <= |w.log| <= |w1.log| <= |y.0.log| && Followed(a, mets, |w.log|, w1.log, looked)
    requires Fine(a.strict, sum1, y.1)
    requires forall k: nat :: a.start <= k <= |w1.log| ==> StepSteady(At(a, mets, k), w1, sum1, y)
    ensures Followed(a, mets, |w.log|, y.0.log, looked + more)
  {
    var i :| 0 <= i < |looked| && ReadCovers(looked[i], a.place) && |w.log| <= looked[i].at <= |w1.log|
      && mets(looked[i].at)(w1.log);
    var k := looked[i].at;
    assert StepSteady(At(a, mets, k), w1, sum1, y);
    assert (looked + more)[i] == looked[i];
  }

  lemma FollowedLater(a: Aim, mets: nat -> seq<Entry> -> bool, from: nat, later: nat, end: seq<Entry>,
                      looked: seq<Read>, more: seq<Read>)
    requires from <= later && Followed(a, mets, later, end, more)
    ensures Followed(a, mets, from, end, looked + more)
  {
    var i :| 0 <= i < |more| && ReadCovers(more[i], a.place) && later <= more[i].at <= |end| && mets(more[i].at)(end);
    assert (looked + more)[|looked| + i] == more[i];
  }

  lemma HandledJoin(s: Keyring, a: Aim, mets: nat -> seq<Entry> -> bool, w: World, c: Cursor, sum: Summary,
                    x: (World, Summary), looked: seq<Read>, next: Cursor, y: (World, Summary), more: seq<Read>,
                    passed: bool)
    requires Family(s, a, mets) && a.start <= |w.log|
    requires Handled(a, mets, w, c, sum, x, looked, Past(next, a.place))
    requires Handled(a, mets, x.0, next, x.1, y, more, passed)
    ensures Handled(a, mets, w, c, sum, y, looked + more, passed)
  {
    forall k: nat | a.start <= k <= |w.log| ensures StepSteady(At(a, mets, k), w, sum, y) {
      StepSteadyTransitive(s, At(a, mets, k), w, sum, x, y);
    }
    if !Past(c, a.place) && passed && Fine(a.strict, sum, y.1) {
      if Past(next, a.place) {
        FollowedOn(a, mets, w, x.0, x.1, y, looked, more);
      } else {
        FollowedLater(a, mets, |w.log|, |x.0.log|, y.0.log, looked, more);
      }
    }
  }

  /** One turn of the loop. */
  lemma TurnHandled(s: Keyring, a: Aim, mets: nat -> seq<Entry> -> bool, w: World, c: Cursor, n: nat, sum: Summary,
                    b: (World, nat, BatchOutcome), looked: seq<Read>)
    requires Lawful(s) && Family(s, a, mets) && OnBook(a, w) && Allowed(a, w.pending) && n > 0
    requires KindOf(a.place) != Nothing
    requires b == RunStage(s, w, c, n, sum) && looked == StageReads(s, w, c, n, sum)
    ensures Handled(a, mets, w, c, sum, (b.0, SumOf(b.2)), looked, PastOutcome(b.2, a.place))
  {
    forall k: nat | k >= a.start ensures TurnDone(At(a, mets, k), w, sum, (b.0, SumOf(b.2)), looked) {
      StageDone(s, At(a, mets, k), w, c, n, sum, b, looked);
    }
    assert TurnDone(At(a, mets, a.start), w, sum, (b.0, SumOf(b.2)), looked);
    if !Past(c, a.place) && PastOutcome(b.2, a.place) && Fine(a.strict, sum, SumOf(b.2)) {
      StageCovers(s, w, c, n, sum, a.place);
      var i :| 0 <= i < |looked| && ReadCovers(looked[i], a.place);
      assert TurnDone(At(a, mets, looked[i].at), w, sum, (b.0, SumOf(b.2)), looked);
    }
  }

  ghost function CallHandled(a: Aim, mets: nat -> seq<Entry> -> bool): Claim {
    (w: World, c: Cursor, n: nat, sum: Summary, x: (World, Result), looked: seq<Read>) =>
      OnBook(a, w) && Allowed(a, w.pending) ==>
        Handled(a, mets, w, c, sum, (x.0, x.1.sum), looked, PastResult(x.1, a.place))
  }

  lemma TurnPasses(s: Keyring, a: Aim, mets: nat -> seq<Entry> -> bool, w: World, c: Cursor, n: nat, sum: Summary,
                   b: (World, nat, BatchOutcome), looked: seq<Read>)
    requires Family(s, a, mets) && b.1 <= n
    requires OnBook(a, w) && Allowed(a, w.pending) ==>
               Handled(a, mets, w, c, sum, (b.0, SumOf(b.2)), looked, PastOutcome(b.2, a.place))
    ensures Passes(CallHandled(a, mets), w, c, n, sum, b, looked)
  {
    var p := CallHandled(a, mets);
    if b.2.Continue? && OnBook(a, w) && Allowed(a, w.pending) {
      forall x: (World, Result), more: seq<Read> | p(b.0, b.2.cursor, n - b.1, b.2.sum, x, more)
        ensures p(w, c, n, sum, x, looked + more)
      {
        HandledJoin(s, a, mets, w, c, sum, (b.0, b.2.sum), looked, b.2.cursor, (x.0, x.1.sum), more,
                    PastResult(x.1, a.place));
      }
    }
  }

  lemma AdvanceHandled(s: Keyring, a: Aim, mets: nat -> seq<Entry> -> bool, w: World, cursor: Cursor, remaining: nat,
                       sum: Summary)
    requires Lawful(s) && Family(s, a, mets) && KindOf(a.place) != Nothing && remaining > 0
    ensures CallHandled(a, mets)(w, cursor, remaining, sum, Advance(s, w, cursor, remaining, sum),
      CallReads(s, w, cursor, remaining, sum))
  {
    forall w: World, c: Cursor, n: nat, sum: Summary | n > 0
      ensures Passes(CallHandled(a, mets), w, c, n, sum, RunStage(s, w, c, n, sum), StageReads(s, w, c, n, sum))
    {
      if OnBook(a, w) && Allowed(a, w.pending) {
        TurnHandled(s, a, mets, w, c, n, sum, RunStage(s, w, c, n, sum), StageReads(s, w, c, n, sum));
      }
      TurnPasses(s, a, mets, w, c, n, sum, RunStage(s, w, c, n, sum), StageReads(s, w, c, n, sum));
    }
    AdvanceInduction(s, CallHandled(a, mets), w, cursor, remaining, sum);
  }

  ghost function SessionHandled(a: Aim, mets: nat -> seq<Entry> -> bool): SessionClaim {
    (w: World, c: Cursor, limits: seq<nat>, sum: Summary, x: (World, Result), looked: seq<Read>) =>
      OnBook(a, w) && Allowed(a, w.pending) ==>
        Handled(a, mets, w, c, sum, (x.0, x.1.sum), looked, PastResult(x.1, a.place))
  }

  /** A call's own counts, seen from totals that it is added to. */
  lemma HandledFrom(a: Aim, mets: nat -> seq<Entry> -> bool, w: World, c: Cursor, w2: World, counted: Summary,
                    looked: seq<Read>,
                    passed: bool, sum: Summary)
    requires Handled(a, mets, w, c, EMPTY_SUMMARY, (w2, counted), looked, passed)
    ensures Handled(a, mets, w, c, sum, (w2, sum.Plus(counted)), looked, passed)
  {
    forall k: nat | a.start <= k <= |w.log| ensures StepSteady(At(a, mets, k), w, sum, (w2, sum.Plus(counted))) {
      assert StepSteady(At(a, mets, k), w, EMPTY_SUMMARY, (w2, counted));
    }
  }

  lemma NothingHandled(s: Keyring, a: Aim, mets: nat -> seq<Entry> -> bool, w: World, c: Cursor, sum: Summary)
    requires Family(s, a, mets) && OnBook(a, w) && Allowed(a, w.pending)
    ensures Handled(a, mets, w, c, sum, (w, sum), [], Past(c, a.place))
  {
    forall k: nat | a.start <= k <= |w.log| ensures StepSteady(At(a, mets, k), w, sum, (w, sum)) {
      assert Sound(s, At(a, mets, k));
    }
  }

  lemma EmptySessionHandled(s: Keyring, a: Aim, mets: nat -> seq<Entry> -> bool, w: World, c: Cursor, sum: Summary)
    requires Family(s, a, mets)
    ensures SessionHandled(a, mets)(w, c, [], sum, (w, Result(sum, false, Some(c))), [])
  {
    if OnBook(a, w) && Allowed(a, w.pending) {
      NothingHandled(s, a, mets, w, c, sum);
      assert PastResult(Result(sum, false, Some(c)), a.place) == Past(c, a.place);
    }
  }

  lemma CallCarries(s: Keyring, a: Aim, mets: nat -> seq<Entry> -> bool, w: World, c: Cursor, limits: seq<nat>,
                    sum: Summary,
                    x: (World, Result), looked: seq<Read>)
    requires Family(s, a, mets) && limits != []
    requires OnBook(a, w) && Allowed(a, w.pending) ==>
               Handled(a, mets, w, c, EMPTY_SUMMARY, (x.0, x.1.sum), looked, PastResult(x.1, a.place))
    ensures Carries(SessionHandled(a, mets), w, c, limits, sum, x, looked)
  {
    var p := SessionHandled(a, mets);
    if OnBook(a, w) && Allowed(a, w.pending) {
      HandledFrom(a, mets, w, c, x.0, x.1.sum, looked, PastResult(x.1, a.place), sum);
      if x.1.cursor.Some? {
        var next, total := x.1.cursor.value, sum.Plus(x.1.sum);
        forall y: (World, Result), more: seq<Read> | p(x.0, next, limits[1..], total, y, more)
          ensures p(w, c, limits, sum, y, looked + more)
        {
          HandledJoin(s, a, mets, w, c, sum, (x.0, total), looked, next, (y.0, y.1.sum), more,
                      PastResult(y.1, a.place));
        }
      }
    }
  }

  lemma SessionCarries(s: Keyring, a: Aim, mets: nat -> seq<Entry> -> bool, w: World, c: Cursor, limits: seq<nat>,
                       sum: Summary,
                       x: (World, Result), looked: seq<Read>)
    requires Lawful(s) && Family(s, a, mets) && KindOf(a.place) != Nothing && limits != [] && limits[0] > 0
    requires x == Advance(s, w, c, limits[0], EMPTY_SUMMARY) && looked == CallReads(s, w, c, limits[0], EMPTY_SUMMARY)
    ensures Carries(SessionHandled(a, mets), w, c, limits, sum, x, looked)
  {
    AdvanceHandled(s, a, mets, w, c, limits[0], EMPTY_SUMMARY);
    CallCarries(s, a, mets, w, c, limits, sum, x, looked);
  }

  lemma SessionIsHandled(s: Keyring, a: Aim, mets: nat -> seq<Entry> -> bool, w: World, c: Cursor, limits: seq<nat>,
                         sum: Summary)
    requires Lawful(s) && Family(s, a, mets) && KindOf(a.place) != Nothing
    requires forall i :: 0 <= i < |limits| ==> limits[i] > 0
    ensures SessionHandled(a, mets)(w, c, limits, sum, Session(s, w, c, limits, sum), SessionReads(s, w, c, limits))
  {
    var p := SessionHandled(a, mets);
    forall w: World, c: Cursor, sum: Summary ensures p(w, c, [], sum, (w, Result(sum, false, Some(c))), []) {
      EmptySessionHandled(s, a, mets, w, c, sum);
    }
    forall w: World, c: Cursor, ls: seq<nat>, sum: Summary | ls != [] && ls[0] > 0
      ensures Carries(p, w, c, ls, sum, Advance(s, w, c, ls[0], EMPTY_SUMMARY),
                      CallReads(s, w, c, ls[0], EMPTY_SUMMARY))
    {
      SessionCarries(s, a, mets, w, c, ls, sum, Advance(s, w, c, ls[0], EMPTY_SUMMARY),
                     CallReads(s, w, c, ls[0], EMPTY_SUMMARY));
    }
    SessionInduction(s, p, w, c, limits, sum);
  }

  /** From the start nothing lies before the cursor, and everything before the end of a completed session. */
  lemma HandledToTheEnd(a: Aim, mets: nat -> seq<Entry> -> bool, w: World, limits: seq<nat>, x: (World, Result),
                        looked: seq<Read>)
    requires OnBook(a, w) && Allowed(a, w.pending) && (x.1.completed <==> x.1.cursor.None?)
    requires SessionHandled(a, mets)(w, START, limits, EMPTY_SUMMARY, x, looked)
    ensures OnBook(a, x.0) && |w.log| <= |x.0.log|
    ensures x.1.completed && Fine(a.strict, EMPTY_SUMMARY, x.1.sum) ==> Followed(a, mets, |w.log|, x.0.log, looked)
  {
    assert !Past(START, a.place);
  }

  /**
   * A completed session covers every place it looks at by one of its reads, and
   * follows the aim from there to its end.
   */
  lemma SessionFollows(s: Keyring, a: Aim, mets: nat -> seq<Entry> -> bool, w: World, limits: seq<nat>,
                       x: (World, Result), looked: seq<Read>)
    requires Lawful(s) && Family(s, a, mets) && KindOf(a.place) != Nothing && OnBook(a, w) && Allowed(a, w.pending)
    requires forall i :: 0 <= i < |limits| ==> limits[i] > 0
    requires x == Session(s, w, START, limits, EMPTY_SUMMARY) && looked == SessionReads(s, w, START, limits)
    ensures OnBook(a, x.0) && |w.log| <= |x.0.log|
    ensures x.1.completed && Fine(a.strict, EMPTY_SUMMARY, x.1.sum) ==> Followed(a, mets, |w.log|, x.0.log, looked)
  {
    SessionIsHandled(s, a, mets, w, START, limits, EMPTY_SUMMARY);
    SessionCompletes(s, w, START, limits, EMPTY_SUMMARY);
    HandledToTheEnd(a, mets, w, limits, x, looked);
  }

  // ---------------------------------------------------------------- each place is read once

  ghost predicate NoneCovers(looked: seq<Read>, p: Place) {
    forall i :: 0 <= i < |looked| ==> !ReadCovers(looked[i], p)
  }

  ghost predicate CoversOnce(looked: seq<Read>, p: Place) {
    forall i, j :: 0 <= i < j < |looked| ==> !ReadCovers(looked[i], p) || !ReadCovers(looked[j], p)
  }

  /** What lies before the cursor is not read, what is read lies before the end, and it is read once. */
  ghost predicate ReadsOnce(c: Cursor, looked: seq<Read>, passed: bool, p: Place) {
    && (Past(c, p) ==> passed && NoneCovers(looked, p))
    && (!passed ==> NoneCovers(looked, p))
    && CoversOnce(looked, p)
  }

  lemma ReadsOnceJoin(c: Cursor, looked: seq<Read>, next: Cursor, more: seq<Read>, passed: bool, p: Place)
    requires ReadsOnce(c, looked, Past(next, p), p) && ReadsOnce(next, more, passed, p)
    ensures ReadsOnce(c, looked + more, passed, p)
  {
    var all := looked + more;
    assert forall i :: 0 <= i < |all| ==> all[i] == if i < |looked| then looked[i] else more[i - |looked|];
  }

  /** A full page ends beyond the cursor it began at. */
  lemma PageEndsBeyond(rows: Rows, stage: TableStage, after: Option<string>, limit: nat, id: Id)
    requires after.Some? && !Less(after.value, id)
    ensures var page := Page(rows, stage, after, limit); page != [] ==> !Less(page[|page| - 1].id, id)
  {
    var page := Page(rows, stage, after, limit);
    var ids := Candidates(rows, stage, after);
    AscendingHas(ids);
    if page != [] {
      var last := page[|page| - 1].id;
      assert last == Ascending(ids)[|page| - 1] && last in ids;
      if Less(last, id) {
        LessTransitive(after.value, last, id);
      }
    }
  }

  lemma PageReadOnce(sum: Summary, rows: Rows, at: nat, c: Cursor, n: nat, page: seq<Listed>, p: Place)
    requires n > 0 && c.stage < TABLE_STAGES && page == Page(rows, c.stage, c.afterId, n)
    ensures ReadsOnce(c, [PageRead(c.stage, c.afterId, n, rows, at)],
                      PastOutcome(ResolveBatch(sum, c, |page|, LastId(page), n), p), p)
  {
    if p.key.Key? && c.afterId.Some? && !Less(c.afterId.value, p.key.id) {
      PageEndsBeyond(rows, c.stage, c.afterId, n, p.key.id);
    }
  }

  lemma TurnReadsOnce(s: Keyring, w: World, c: Cursor, n: nat, sum: Summary, p: Place)
    requires n > 0
    ensures ReadsOnce(c, StageReads(s, w, c, n, sum), PastOutcome(RunStage(s, w, c, n, sum).2, p), p)
  {
    if c.stage < TABLE_STAGES {
      var w1 := Interfere(w);
      var page := Page(w1.rows, c.stage, c.afterId, n);
      var x := ProcessRows(s, w1, sum, c.stage, page);
      BatchEnds(s, w, c, n, sum, w1, page, x);
      PageReadOnce(x.1, w1.rows, |w1.log|, c, n, page, p);
    }
  }

  ghost function CallReadsOnce(p: Place): Claim {
    (w: World, c: Cursor, n: nat, sum: Summary, x: (World, Result), looked: seq<Read>) =>
      ReadsOnce(c, looked, PastResult(x.1, p), p)
  }

  lemma TurnPassesOnce(w: World, c: Cursor, n: nat, sum: Summary, b: (World, nat, BatchOutcome), looked: seq<Read>,
                       p: Place)
    requires b.1 <= n && ReadsOnce(c, looked, PastOutcome(b.2, p), p)
    ensures Passes(CallReadsOnce(p), w, c, n, sum, b, looked)
  {
    if b.2.Continue? {
      forall x: (World, Result), more: seq<Read> | CallReadsOnce(p)(b.0, b.2.cursor, n - b.1, b.2.sum, x, more)
        ensures CallReadsOnce(p)(w, c, n, sum, x, looked + more)
      {
        ReadsOnceJoin(c, looked, b.2.cursor, more, PastResult(x.1, p), p);
      }
    }
  }

  lemma AdvanceReadsOnce(s: Keyring, w: World, c: Cursor, remaining: nat, sum: Summary, p: Place)
    requires remaining > 0
    ensures CallReadsOnce(p)(w, c, remaining, sum, Advance(s, w, c, remaining, sum), CallReads(s, w, c, remaining, sum))
  {
    forall w: World, c: Cursor, n: nat, sum: Summary | n > 0
      ensures Passes(CallReadsOnce(p), w, c, n, sum, RunStage(s, w, c, n, sum), StageReads(s, w, c, n, sum))
    {
      TurnReadsOnce(s, w, c, n, sum, p);
      TurnPassesOnce(w, c, n, sum, RunStage(s, w, c, n, sum), StageReads(s, w, c, n, sum), p);
    }
    AdvanceInduction(s, CallReadsOnce(p), w, c, remaining, sum);
  }

  ghost function SessionReadsOnce(p: Place): SessionClaim {
    (w: World, c: Cursor, limits: seq<nat>, sum: Summary, x: (World, Result), looked: seq<Read>) =>
      ReadsOnce(c, looked, PastResult(x.1, p), p)
  }

  lemma CallCarriesOnce(w: World, c: Cursor, limits: seq<nat>, sum: Summary, x: (World, Result), looked: seq<Read>,
                        p: Place)
    requires limits != [] && ReadsOnce(c, looked, PastResult(x.1, p), p)
    ensures Carries(SessionReadsOnce(p), w, c, limits, sum, x, looked)
  {
    if x.1.cursor.Some? {
      var next := x.1.cursor.value;
      forall y: (World, Result), more: seq<Read> |
        SessionReadsOnce(p)(x.0, next, limits[1..], sum.Plus(x.1.sum), y, more)
        ensures SessionReadsOnce(p)(w, c, limits, sum, y, looked + more)
      {
        ReadsOnceJoin(c, looked, next, more, PastResult(y.1, p), p);
      }
    }
  }

  /** No session reads a place twice, whatever its limits and whatever other sessions do meanwhile. */
  lemma EachPlaceReadOnce(s: Keyring, w: World, c: Cursor, limits: seq<nat>, p: Place)
    requires forall i :: 0 <= i < |limits| ==> limits[i] > 0
    ensures CoversOnce(SessionReads(s, w, c, limits), p)
  {
    var q := SessionReadsOnce(p);
    forall w: World, c: Cursor, sum: Summary ensures q(w, c, [], sum, (w, Result(sum, false, Some(c))), []) {
      assert ReadsOnce(c, [], Past(c, p), p);
    }
    forall w: World, c: Cursor, ls: seq<nat>, sum: Summary | ls != [] && ls[0] > 0
      ensures Carries(q, w, c, ls, sum, Advance(s, w, c, ls[0], EMPTY_SUMMARY),
                      CallReads(s, w, c, ls[0], EMPTY_SUMMARY))
    {
      AdvanceReadsOnce(s, w, c, ls[0], EMPTY_SUMMARY, p);
      CallCarriesOnce(w, c, ls, sum, Advance(s, w, c, ls[0], EMPTY_SUMMARY), CallReads(s, w, c, ls[0], EMPTY_SUMMARY),
                      p);
    }
    SessionInduction(s, q, w, c, limits, EMPTY_SUMMARY);
  }
}
