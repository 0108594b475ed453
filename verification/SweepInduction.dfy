/**
 * Induction over the calls and sessions of the sweep. The loops are taken
 * around any step and any call, so that no proof about a whole run has to look
 * into the stages again. A run is followed together with its reads.
 */
module SweepInduction {
  import opened Strings
  import opened Envelopes
  import opened SweepModel

  // ---------------------------------------------------------------- what a run reads

  /** A page or a setting as the sweep read it: the rows and the length of the log at that moment. */
  datatype Read =
    | PageRead(stage: TableStage, afterId: Option<string>, limit: nat, rows: Rows, at: nat)
    | SettingRead(key: Key, rows: Rows, at: nat)

  function ReadSetting(w: World, key: Key): Read {
    SettingRead(key, Interfere(w).rows, |Interfere(w).log|)
  }

  /** The reads of one turn of the loop. */
  function StageReads(s: Keyring, w: World, cursor: Cursor, remaining: nat, sum: Summary): seq<Read> {
    if cursor.stage < TABLE_STAGES then
      [PageRead(cursor.stage, cursor.afterId, remaining, Interfere(w).rows, |Interfere(w).log|)]
    else if cursor.stage == 15 then [ReadSetting(w, AuthProviders)]
    else if cursor.stage == 16 then [ReadSetting(w, Email)]
    else if cursor.stage == 17 then [ReadSetting(w, AlertWebhook)]
    else [ReadSetting(w, PanelIdentity), ReadSetting(SweepSealedSetting(s, w, sum, PanelIdentity).0, AcmeAccount)]
  }

  type Look = (World, Cursor, nat, Summary) -> seq<Read>

  function LookOf(s: Keyring): Look {
    (w: World, c: Cursor, n: nat, sum: Summary) => StageReads(s, w, c, n, sum)
  }

  function DriveReads(step: Step, look: Look, w: World, cursor: Cursor, remaining: nat, sum: Summary): seq<Read>
    requires remaining > 0
    decreases STAGE_COUNT - cursor.stage
  {
    var b := step(w, cursor, remaining, sum);
    assert MovesAt(cursor, remaining, b);
    match b.2
    case Done(_) => look(w, cursor, remaining, sum)
    case Continue(next, sum1) =>
      look(w, cursor, remaining, sum) + DriveReads(step, look, b.0, next, remaining - b.1, sum1)
  }

  /** The reads of one call. */
  function CallReads(s: Keyring, w: World, cursor: Cursor, remaining: nat, sum: Summary): seq<Read>
    requires remaining > 0
  {
    DriveReads(StepOf(s), LookOf(s), w, cursor, remaining, sum)
  }

  type CallLook = (World, Cursor, nat) -> seq<Read>

  function CallLookOf(s: Keyring): CallLook {
    (w: World, c: Cursor, limit: nat) => if limit > 0 then CallReads(s, w, c, limit, EMPTY_SUMMARY) else []
  }

  function ChainReads(call: (World, Cursor, nat) -> (World, Result), look: CallLook, w: World, cursor: Cursor,
                      limits: seq<nat>): seq<Read>
    decreases |limits|
  {
    if limits == [] then []
    else
      var x := call(w, cursor, limits[0]);
      match x.1.cursor
      case None => look(w, cursor, limits[0])
      case Some(next) => look(w, cursor, limits[0]) + ChainReads(call, look, x.0, next, limits[1..])
  }

  /** The reads of a session. */
  function SessionReads(s: Keyring, w: World, cursor: Cursor, limits: seq<nat>): seq<Read> {
    ChainReads(CallOf(s), CallLookOf(s), w, cursor, limits)
  }

  // ---------------------------------------------------------------- calls

  /** A statement about a call: from world, cursor, budget and counts to its end and its reads. */
  type Claim = (World, Cursor, nat, Summary, (World, Result), seq<Read>) -> bool

  /** One turn of the loop makes the claim true at once, or passes it on from the rest of the call. */
  ghost predicate Passes(p: Claim, w: World, c: Cursor, n: nat, sum: Summary, b: (World, nat, BatchOutcome),
                         looked: seq<Read>)
    requires b.1 <= n
  {
    && (b.2.Done? ==> p(w, c, n, sum, (b.0, b.2.result), looked))
    && (b.2.Continue? ==>
          forall x: (World, Result), more: seq<Read> ::
            p(b.0, b.2.cursor, n - b.1, b.2.sum, x, more) ==> p(w, c, n, sum, x, looked + more))
  }

  lemma {:induction false} DriveInduction(step: Step, look: Look, p: Claim, w: World, cursor: Cursor, remaining: nat,
                                          sum: Summary)
    requires remaining > 0
    requires forall w: World, c: Cursor, n: nat, sum: Summary ::
               n > 0 ==>
                 MovesAt(c, n, step(w, c, n, sum))
                 && Passes(p, w, c, n, sum, step(w, c, n, sum), look(w, c, n, sum))
    ensures p(w, cursor, remaining, sum, Drive(step, w, cursor, remaining, sum),
              DriveReads(step, look, w, cursor, remaining, sum))
    decreases STAGE_COUNT - cursor.stage
  {
    var b := step(w, cursor, remaining, sum);
    assert MovesAt(cursor, remaining, b);
    if b.2.Continue? {
      DriveInduction(step, look, p, b.0, b.2.cursor, remaining - b.1, b.2.sum);
    }
  }

  /** What every turn passes on holds of every call. */
  lemma AdvanceInduction(s: Keyring, p: Claim, w: World, cursor: Cursor, remaining: nat, sum: Summary)
    requires remaining > 0
    requires forall w: World, c: Cursor, n: nat, sum: Summary ::
               n > 0 ==> Passes(p, w, c, n, sum, RunStage(s, w, c, n, sum), StageReads(s, w, c, n, sum))
    ensures p(w, cursor, remaining, sum, Advance(s, w, cursor, remaining, sum), CallReads(s, w, cursor, remaining, sum))
  {
    var step, look := StepOf(s), LookOf(s);
    forall w: World, c: Cursor, n: nat, sum: Summary | n > 0
      ensures MovesAt(c, n, step(w, c, n, sum)) && Passes(p, w, c, n, sum, step(w, c, n, sum), look(w, c, n, sum))
    {
      assert step(w, c, n, sum) == RunStage(s, w, c, n, sum) && look(w, c, n, sum) == StageReads(s, w, c, n, sum);
    }
    DriveInduction(step, look, p, w, cursor, remaining, sum);
  }

  // ---------------------------------------------------------------- sessions

  type SessionClaim = (World, Cursor, seq<nat>, Summary, (World, Result), seq<Read>) -> bool

  /** One call makes the claim about a session true at once, or passes it on from the calls after it. */
  ghost predicate Carries(p: SessionClaim, w: World, c: Cursor, limits: seq<nat>, sum: Summary, x: (World, Result),
                          looked: seq<Read>)
    requires limits != []
  {
    && (x.1.cursor.None? ==> p(w, c, limits, sum, (x.0, After(sum, x.1)), looked))
    && (x.1.cursor.Some? ==>
          forall y: (World, Result), more: seq<Read> ::
            p(x.0, x.1.cursor.value, limits[1..], sum.Plus(x.1.sum), y, more) ==>
              p(w, c, limits, sum, y, looked + more))
  }

  lemma {:induction false} ChainInduction(call: (World, Cursor, nat) -> (World, Result), look: CallLook,
                                          p: SessionClaim,
                                          w: World, cursor: Cursor, limits: seq<nat>, sum: Summary)
    requires forall i :: 0 <= i < |limits| ==> limits[i] > 0
    requires forall w: World, c: Cursor, sum: Summary :: p(w, c, [], sum, (w, Result(sum, false, Some(c))), [])
    requires forall w: World, c: Cursor, ls: seq<nat>, sum: Summary ::
               ls != [] && ls[0] > 0 ==> Carries(p, w, c, ls, sum, call(w, c, ls[0]), look(w, c, ls[0]))
    ensures p(w, cursor, limits, sum, Chain(call, w, cursor, limits, sum), ChainReads(call, look, w, cursor, limits))
    decreases |limits|
  {
    if limits != [] {
      var x := call(w, cursor, limits[0]);
      assert Carries(p, w, cursor, limits, sum, x, look(w, cursor, limits[0]));
      if x.1.cursor.Some? {
        ChainInduction(call, look, p, x.0, x.1.cursor.value, limits[1..], sum.Plus(x.1.sum));
      }
    }
  }

  /** What every call passes on holds of every session. */
  lemma SessionInduction(s: Keyring, p: SessionClaim, w: World, cursor: Cursor, limits: seq<nat>, sum: Summary)
    requires forall i :: 0 <= i < |limits| ==> limits[i] > 0
    requires forall w: World, c: Cursor, sum: Summary :: p(w, c, [], sum, (w, Result(sum, false, Some(c))), [])
    requires forall w: World, c: Cursor, ls: seq<nat>, sum: Summary ::
               ls != [] && ls[0] > 0 ==>
                 Carries(p, w, c, ls, sum, Advance(s, w, c, ls[0], EMPTY_SUMMARY),
                         CallReads(s, w, c, ls[0], EMPTY_SUMMARY))
    ensures p(w, cursor, limits, sum, Session(s, w, cursor, limits, sum), SessionReads(s, w, cursor, limits))
  {
    var call, look := CallOf(s), CallLookOf(s);
    forall w: World, c: Cursor, ls: seq<nat>, sum: Summary | ls != [] && ls[0] > 0
      ensures Carries(p, w, c, ls, sum, call(w, c, ls[0]), look(w, c, ls[0]))
    {
      assert call(w, c, ls[0]) == Advance(s, w, c, ls[0], EMPTY_SUMMARY);
      assert look(w, c, ls[0]) == CallReads(s, w, c, ls[0], EMPTY_SUMMARY);
    }
    ChainInduction(call, look, p, w, cursor, limits, sum);
  }

  // ---------------------------------------------------------------- every end is a completion or a cursor

  function EndsWell(): Claim {
    (w: World, c: Cursor, n: nat, sum: Summary, x: (World, Result), looked: seq<Read>) =>
      x.1.completed <==> x.1.cursor.None?
  }

  lemma StageEndsWell(s: Keyring, w: World, c: Cursor, n: nat, sum: Summary)
    requires n > 0
    ensures Passes(EndsWell(), w, c, n, sum, RunStage(s, w, c, n, sum), StageReads(s, w, c, n, sum))
  {
  }

  /** A call has either completed, or returned a cursor to resume from. */
  lemma CompletedOrResumable(s: Keyring, w: World, cursor: Cursor, remaining: nat, sum: Summary)
    requires remaining > 0
    ensures var r := Advance(s, w, cursor, remaining, sum).1; r.completed <==> r.cursor.None?
  {
    forall w: World, c: Cursor, n: nat, sum: Summary | n > 0
      ensures Passes(EndsWell(), w, c, n, sum, RunStage(s, w, c, n, sum), StageReads(s, w, c, n, sum))
    {
      StageEndsWell(s, w, c, n, sum);
    }
    AdvanceInduction(s, EndsWell(), w, cursor, remaining, sum);
  }

  function SessionEndsWell(): SessionClaim {
    (w: World, c: Cursor, limits: seq<nat>, sum: Summary, x: (World, Result), looked: seq<Read>) =>
      x.1.completed <==> x.1.cursor.None?
  }

  lemma CallEndsWell(w: World, c: Cursor, limits: seq<nat>, sum: Summary, x: (World, Result), looked: seq<Read>)
    requires limits != [] && (x.1.completed <==> x.1.cursor.None?)
    ensures Carries(SessionEndsWell(), w, c, limits, sum, x, looked)
  {
  }

  lemma SessionCompletes(s: Keyring, w: World, cursor: Cursor, limits: seq<nat>, sum: Summary)
    requires forall i :: 0 <= i < |limits| ==> limits[i] > 0
    ensures var r := Session(s, w, cursor, limits, sum).1; r.completed <==> r.cursor.None?
  {
    var p := SessionEndsWell();
    forall w: World, c: Cursor, ls: seq<nat>, sum: Summary | ls != [] && ls[0] > 0
      ensures Carries(p, w, c, ls, sum, Advance(s, w, c, ls[0], EMPTY_SUMMARY),
                      CallReads(s, w, c, ls[0], EMPTY_SUMMARY))
    {
      CompletedOrResumable(s, w, c, ls[0], EMPTY_SUMMARY);
      CallEndsWell(w, c, ls, sum, Advance(s, w, c, ls[0], EMPTY_SUMMARY), CallReads(s, w, c, ls[0], EMPTY_SUMMARY));
    }
    SessionInduction(s, p, w, cursor, limits, sum);
  }
}
