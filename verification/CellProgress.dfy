/** The step plan of a command's progress report. */
module CellProgress {
  import opened Strings
  import opened CellJson

  const MAX_STEP_ID_CHARS := 64
  const MAX_LABEL_CHARS := 60
  const MAX_DETAIL_CHARS := 200

  const RUNNING: string := "running"
  const STATES: set<string> := {"ready", "pending", "running", "done", "failed", "skipped"}

  /** One element of `steps`: not an object, or an object with these fields. */
  datatype Step =
    | NotRecord
    | Step(id: Field, title: Field, state: Field, detail: Field, startedAt: Field, finishedAt: Field)

  datatype Fault =
    | InvalidStep | InvalidState | UnknownState
    | InvalidId | LongId | InvalidLabel | LongLabel | InvalidDetail | LongDetail
    | InvalidStartedAt | InvalidFinishedAt

  datatype Issue =
    | BadStep(index: nat, fault: Fault)
    | DuplicateId(index: nat)
    | SecondRunning(index: nat)
    | WrongCurrent

  function Or(a: Option<Fault>, b: Option<Fault>): Option<Fault> {
    if a.Some? then a else b
  }

  function BoundedText(f: Field, max: nat, invalid: Fault, long: Fault): Option<Fault> {
    if !IsText(f) || |f.value.s| == 0 then Some(invalid)
    else if |f.value.s| > max then Some(long)
    else None
  }

  function OptionalText(f: Field, max: nat, invalid: Fault, long: Fault): Option<Fault> {
    if f.None? then None
    else if !IsText(f) then Some(invalid)
    else if |f.value.s| > max then Some(long)
    else None
  }

  function OptionalTime(f: Field, isTime: string -> bool, invalid: Fault): Option<Fault> {
    if f.None? then None else if IsText(f) && isTime(f.value.s) then None else Some(invalid)
  }

  /** `validateCommandProgressStep` */
  function ValidateStep(step: Step, isTime: string -> bool): Option<Fault> {
    if step.NotRecord? then Some(InvalidStep)
    else if !IsText(step.state) then Some(InvalidState)
    else if step.state.value.s !in STATES then Some(UnknownState)
    else
      Or(BoundedText(step.id, MAX_STEP_ID_CHARS, InvalidId, LongId),
      Or(BoundedText(step.title, MAX_LABEL_CHARS, InvalidLabel, LongLabel),
      Or(OptionalText(step.detail, MAX_DETAIL_CHARS, InvalidDetail, LongDetail),
      Or(OptionalTime(step.startedAt, isTime, InvalidStartedAt),
         OptionalTime(step.finishedAt, isTime, InvalidFinishedAt)))))
  }

  /** What makes a step well formed, field by field. */
  predicate WellFormedStep(step: Step, isTime: string -> bool) {
    && step.Step?
    && IsText(step.id) && 1 <= |step.id.value.s| <= MAX_STEP_ID_CHARS
    && IsText(step.title) && 1 <= |step.title.value.s| <= MAX_LABEL_CHARS
    && IsText(step.state) && step.state.value.s in STATES
    && (step.detail.None? || (IsText(step.detail) && |step.detail.value.s| <= MAX_DETAIL_CHARS))
    && (step.startedAt.None? || (IsText(step.startedAt) && isTime(step.startedAt.value.s)))
    && (step.finishedAt.None? || (IsText(step.finishedAt) && isTime(step.finishedAt.value.s)))
  }

  lemma StepAccepted(step: Step, isTime: string -> bool)
    ensures ValidateStep(step, isTime).None? <==> WellFormedStep(step, isTime)
  {
  }

  /**
   * A state that only a newer daemon knows is told apart from every other fault,
   * before the other fields are looked at: the report is ignored, not refused.
   */
  lemma UnknownStateFirst(step: Step, isTime: string -> bool)
    ensures ValidateStep(step, isTime) == Some(UnknownState) <==>
              step.Step? && IsText(step.state)
              && step.state.value.s !in {"ready", "pending", "running", "done", "failed", "skipped"}
  {
  }

  // ---------------------------------------------------------------- plans

  /** How one step is read: its own check, its id, and whether it runs. */
  datatype Rules = Rules(check: Step -> Option<Fault>, id: Step -> string, runs: Step -> bool)

  function IdOf(step: Step): string {
    if step.Step? && IsText(step.id) then step.id.value.s else ""
  }

  predicate Runs(step: Step) {
    step.Step? && step.state == Some(Str(RUNNING))
  }

  function StepRules(isTime: string -> bool): Rules {
    Rules(step => ValidateStep(step, isTime), step => IdOf(step), step => Runs(step))
  }

  ghost predicate AllPass(r: Rules, steps: seq<Step>) {
    forall i :: 0 <= i < |steps| ==> r.check(steps[i]).None?
  }

  ghost predicate DistinctIds(r: Rules, steps: seq<Step>) {
    forall i, j :: 0 <= i < j < |steps| ==> r.id(steps[i]) != r.id(steps[j])
  }

  ghost predicate AtMostOneRuns(r: Rules, steps: seq<Step>) {
    forall i, j :: 0 <= i < j < |steps| ==> !(r.runs(steps[i]) && r.runs(steps[j]))
  }

  ghost predicate NoneRuns(r: Rules, steps: seq<Step>) {
    forall i :: 0 <= i < |steps| ==> !r.runs(steps[i])
  }

  ghost predicate RunsAs(r: Rules, steps: seq<Step>, id: string) {
    exists i :: 0 <= i < |steps| && r.runs(steps[i]) && r.id(steps[i]) == id
  }

  /** Null when nothing runs, else the id of a running step. */
  ghost predicate NamesRunning(r: Rules, steps: seq<Step>, current: Field) {
    || (current == Some(Null) && NoneRuns(r, steps))
    || (IsText(current) && RunsAs(r, steps, current.value.s))
  }

  /** A prefix the loop passes. */
  ghost predicate Passes(r: Rules, steps: seq<Step>) {
    AllPass(r, steps) && DistinctIds(r, steps) && AtMostOneRuns(r, steps)
  }

  ghost predicate ValidPlan(r: Rules, steps: seq<Step>, current: Field) {
    Passes(r, steps) && NamesRunning(r, steps, current)
  }

  ghost predicate HasId(r: Rules, steps: seq<Step>, id: string) {
    exists i :: 0 <= i < |steps| && r.id(steps[i]) == id
  }

  /** What an issue says about the plan: it names the first step that cannot be passed, and why. */
  ghost predicate Explains(r: Rules, steps: seq<Step>, current: Field, issue: Issue) {
    match issue
    case BadStep(index, fault) =>
      index < |steps| && Passes(r, steps[..index]) && r.check(steps[index]) == Some(fault)
    case DuplicateId(index) =>
      && index < |steps| && Passes(r, steps[..index]) && r.check(steps[index]).None?
      && HasId(r, steps[..index], r.id(steps[index]))
    case SecondRunning(index) =>
      && index < |steps| && Passes(r, steps[..index]) && r.check(steps[index]).None?
      && !HasId(r, steps[..index], r.id(steps[index])) && r.runs(steps[index]) && !NoneRuns(r, steps[..index])
    case WrongCurrent => Passes(r, steps) && !NamesRunning(r, steps, current)
  }

  /** The ids passed so far, and the running one. */
  ghost predicate Tracks(r: Rules, steps: seq<Step>, ids: set<string>, running: Option<string>) {
    && (forall s :: s in ids <==> HasId(r, steps, s))
    && (running.None? <==> NoneRuns(r, steps))
    && (running.Some? ==> RunsAs(r, steps, running.value))
  }

  lemma HasIdSnoc(r: Rules, front: seq<Step>, step: Step, id: string)
    ensures HasId(r, front + [step], id) <==> HasId(r, front, id) || r.id(step) == id
  {
    var all := front + [step];
    assert all[|front|] == step;
    if HasId(r, front, id) {
      var i :| 0 <= i < |front| && r.id(front[i]) == id;
      assert all[i] == front[i];
    }
  }

  lemma RunsSnoc(r: Rules, front: seq<Step>, step: Step, id: string)
    ensures NoneRuns(r, front + [step]) <==> NoneRuns(r, front) && !r.runs(step)
    ensures RunsAs(r, front + [step], id) <==> RunsAs(r, front, id) || (r.runs(step) && r.id(step) == id)
  {
    var all := front + [step];
    assert all[|front|] == step;
    assert forall i :: 0 <= i < |front| ==> all[i] == front[i];
    if RunsAs(r, front, id) {
      var i :| 0 <= i < |front| && r.runs(front[i]) && r.id(front[i]) == id;
      assert all[i] == front[i];
    }
  }

  lemma TracksSnoc(r: Rules, front: seq<Step>, step: Step, ids: set<string>, running: Option<string>)
    requires Tracks(r, front, ids, running) && (r.runs(step) ==> running.None?)
    ensures Tracks(r, front + [step], ids + {r.id(step)}, if r.runs(step) then Some(r.id(step)) else running)
  {
    forall s ensures s in ids + {r.id(step)} <==> HasId(r, front + [step], s) {
      HasIdSnoc(r, front, step, s);
    }
    RunsSnoc(r, front, step, if r.runs(step) then r.id(step) else if running.Some? then running.value else "");
  }

  /** One more step that passes its check and has a new id. */
  lemma PassesSnoc(r: Rules, front: seq<Step>, step: Step)
    requires Passes(r, front) && r.check(step).None? && !HasId(r, front, r.id(step))
    requires r.runs(step) ==> NoneRuns(r, front)
    ensures Passes(r, front + [step])
  {
    var all := front + [step];
    assert forall i :: 0 <= i < |front| ==> all[i] == front[i];
  }

  /** Any plan that goes on from a failing prefix is invalid. */
  lemma BadStepFound(r: Rules, steps: seq<Step>, index: nat, current: Field)
    requires index < |steps| && r.check(steps[index]).Some?
    ensures !ValidPlan(r, steps, current)
  {
  }

  lemma DuplicateFound(r: Rules, steps: seq<Step>, index: nat, current: Field)
    requires index < |steps| && HasId(r, steps[..index], r.id(steps[index]))
    ensures !ValidPlan(r, steps, current)
  {
    var i :| 0 <= i < index && r.id(steps[..index][i]) == r.id(steps[index]);
    assert r.id(steps[i]) == r.id(steps[index]);
  }

  lemma SecondFound(r: Rules, steps: seq<Step>, index: nat, current: Field)
    requires index < |steps| && r.runs(steps[index]) && !NoneRuns(r, steps[..index])
    ensures !ValidPlan(r, steps, current)
  {
    var i :| 0 <= i < index && r.runs(steps[..index][i]);
    assert r.runs(steps[i]);
  }

  function CurrentFor(running: Option<string>): Field {
    if running.None? then Some(Null) else Some(Str(running.value))
  }

  /** At the end `current` is compared with the running id. */
  lemma CurrentDecides(r: Rules, steps: seq<Step>, current: Field, ids: set<string>, running: Option<string>)
    requires Passes(r, steps) && Tracks(r, steps, ids, running)
    ensures NamesRunning(r, steps, current) <==> current == CurrentFor(running)
  {
    if running.Some? {
      var k :| 0 <= k < |steps| && r.runs(steps[k]) && r.id(steps[k]) == running.value;
      forall i | 0 <= i < |steps| && r.runs(steps[i]) ensures i == k {
      }
    }
  }

  /** The loop, for any reading of a step: the running id is the only state besides the ids. */
  method CheckPlan(r: Rules, steps: seq<Step>, current: Field) returns (issue: Option<Issue>)
    ensures issue.None? <==> ValidPlan(r, steps, current)
    ensures issue.Some? ==> Explains(r, steps, current, issue.value)
  {
    var ids: set<string> := {};
    var running: Option<string> := None;
    var index := 0;
    while index < |steps|
      invariant 0 <= index <= |steps|
      invariant Passes(r, steps[..index]) && Tracks(r, steps[..index], ids, running)
    {
      var step := steps[index];
      var fault := r.check(step);
      if fault.Some? {
        BadStepFound(r, steps, index, current);
        return Some(BadStep(index, fault.value));
      }
      var id := r.id(step);
      if id in ids {
        DuplicateFound(r, steps, index, current);
        return Some(DuplicateId(index));
      }
      if r.runs(step) && running.Some? {
        SecondFound(r, steps, index, current);
        return Some(SecondRunning(index));
      }
      PassesSnoc(r, steps[..index], step);
      TracksSnoc(r, steps[..index], step, ids, running);
      assert steps[..index + 1] == steps[..index] + [step];
      ids := ids + {id};
      if r.runs(step) {
        running := Some(id);
      }
      index := index + 1;
    }
    assert steps[..index] == steps;
    CurrentDecides(r, steps, current, ids, running);
    if current != CurrentFor(running) {
      return Some(WrongCurrent);
    }
    issue := None;
  }

  ghost predicate OnlyRuns(steps: seq<Step>, k: nat) {
    k < |steps| && Runs(steps[k]) && forall i :: 0 <= i < |steps| && i != k ==> !Runs(steps[i])
  }

  /** The plan in plain terms. */
  ghost predicate GoodPlan(steps: seq<Step>, current: Field, isTime: string -> bool) {
    && (forall i :: 0 <= i < |steps| ==> WellFormedStep(steps[i], isTime))
    && (forall i, j :: 0 <= i < j < |steps| ==> IdOf(steps[i]) != IdOf(steps[j]))
    && (|| ((forall i :: 0 <= i < |steps| ==> !Runs(steps[i])) && current == Some(Null))
        || (exists k :: 0 <= k < |steps| && OnlyRuns(steps, k) && current == Some(Str(IdOf(steps[k])))))
  }

  lemma PlanMeaning(steps: seq<Step>, current: Field, isTime: string -> bool)
    ensures ValidPlan(StepRules(isTime), steps, current) <==> GoodPlan(steps, current, isTime)
  {
    var r := StepRules(isTime);
    forall i | 0 <= i < |steps|
      ensures r.check(steps[i]).None? <==> WellFormedStep(steps[i], isTime)
      ensures r.id(steps[i]) == IdOf(steps[i]) && r.runs(steps[i]) == Runs(steps[i])
    {
      StepAccepted(steps[i], isTime);
    }
    if ValidPlan(r, steps, current) && current != Some(Null) {
      var k :| 0 <= k < |steps| && r.runs(steps[k]) && r.id(steps[k]) == current.value.s;
      assert OnlyRuns(steps, k) && current == Some(Str(IdOf(steps[k])));
    }
    if GoodPlan(steps, current, isTime) && current != Some(Null) {
      var k :| 0 <= k < |steps| && OnlyRuns(steps, k) && current == Some(Str(IdOf(steps[k])));
      assert r.runs(steps[k]) && r.id(steps[k]) == current.value.s;
    }
  }

  /** `validateCommandProgressSteps` accepts exactly the good plans, and otherwise explains the first fault. */
  method ValidateCommandProgressSteps(steps: seq<Step>, current: Field,
                                      isTime: string -> bool) returns (issue: Option<Issue>)
    ensures issue.None? <==> GoodPlan(steps, current, isTime)
    ensures issue.Some? ==> Explains(StepRules(isTime), steps, current, issue.value)
  {
    PlanMeaning(steps, current, isTime);
    issue := CheckPlan(StepRules(isTime), steps, current);
  }

  // ---------------------------------------------------------------- the whole payload

  const MAX_STEPS := 24
  const MAX_PROGRESS_BYTES := 8 * 1024

  /** A progress payload: not an object, or these fields; `steps` is `None` when it is no array. */
  datatype Payload =
    | NotAnObject
    | Payload(version: Field, updatedAt: Field, current: Field, runningSince: Field, steps: Option<seq<Step>>)

  predicate IsTime(f: Field, isTime: string -> bool) {
    IsText(f) && isTime(f.value.s)
  }

  /** `validateCommandProgress`, the checks in the order of the code; `bytes` is the size of the payload as JSON. */
  method ValidateCommandProgress(value: Payload, bytes: nat, isTime: string -> bool) returns (ok: bool)
    ensures ok <==>
      && value.Payload? && value.version == Some(Num(1.0)) && IsTime(value.updatedAt, isTime)
      && (value.current == Some(Null) || BoundedId(value.current))
      && (value.runningSince.None? || value.runningSince == Some(Null) || IsTime(value.runningSince, isTime))
      && value.steps.Some? && |value.steps.value| <= MAX_STEPS && GoodPlan(value.steps.value, value.current, isTime)
      && bytes <= MAX_PROGRESS_BYTES
  {
    if value.NotAnObject? || value.version != Some(Num(1.0)) || !IsTime(value.updatedAt, isTime) {
      return false;
    }
    if value.current != Some(Null) && !BoundedId(value.current) {
      return false;
    }
    if value.runningSince != Some(Null) && value.runningSince.Some? && !IsTime(value.runningSince, isTime) {
      return false;
    }
    if value.steps.None? || |value.steps.value| > MAX_STEPS {
      return false;
    }
    var issue := ValidateCommandProgressSteps(value.steps.value, value.current, isTime);
    ok := issue.None? && bytes <= MAX_PROGRESS_BYTES;
  }
}
