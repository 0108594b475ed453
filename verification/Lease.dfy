/**
 * The durable sweep lease: one row that sweeps insert, steal after expiry and
 * delete. Each database statement of a call is one atomic step; between any
 * two of them other calls may take steps, and time may pass.
 */
module Lease {
  import opened Strings

  const LEASE_MS: nat := 120000

  /** A random UUID drawn by one call. */
  type Owner = nat

  /** The row for the sweep lock; the unique index on name and organization allows one. */
  datatype LeaseRow = LeaseRow(owner: Owner, expiresAt: int)

  /** Where a call stands; `now` is the time it read when it began. */
  datatype Phase =
    | Inserting(owner: Owner, now: int)
    | Reading(owner: Owner, now: int)
    | Stealing(owner: Owner, now: int, seen: LeaseRow)
    | Holding(owner: Owner, since: int, expiresAt: int, from: Option<Owner>)
    | Released(owner: Owner, from: Option<Owner>)
    | Refused(owner: Owner)

  type Pid = nat

  /** `drawn` and `robbed` are history: the owner ids used so far, and the owners whose row was stolen. */
  datatype State = State(clock: int, row: Option<LeaseRow>, calls: map<Pid, Phase>, drawn: set<Owner>,
                         robbed: set<Owner>)

  datatype Action =
    | Tick(ms: nat)
    | Begin(pid: Pid, owner: Owner)
    | Insert(pid: Pid)
    | Read(pid: Pid)
    | Steal(pid: Pid)
    | Release(pid: Pid)

  predicate Expired(expiresAt: int, now: int) {
    expiresAt <= now
  }

  predicate Enabled(s: State, a: Action) {
    match a
    case Tick(_) => true
    case Begin(pid, owner) => pid !in s.calls && owner !in s.drawn
    case Insert(pid) => pid in s.calls && s.calls[pid].Inserting?
    case Read(pid) => pid in s.calls && s.calls[pid].Reading?
    case Steal(pid) => pid in s.calls && s.calls[pid].Stealing?
    case Release(pid) => pid in s.calls && s.calls[pid].Holding?
  }

  function Enter(s: State, pid: Pid, phase: Phase): State {
    s.(calls := s.calls[pid := phase])
  }

  /** The call's row is written and the lock is its own from this moment. */
  function Grant(s: State, pid: Pid, owner: Owner, now: int, from: Option<Owner>): State {
    Enter(s, pid, Holding(owner, s.clock, now + LEASE_MS, from)).(row := Some(LeaseRow(owner, now + LEASE_MS)))
  }

  function Step(s: State, a: Action): State
    requires Enabled(s, a)
  {
    match a
    case Tick(ms) => s.(clock := s.clock + ms)
    case Begin(pid, owner) => Enter(s, pid, Inserting(owner, s.clock)).(drawn := s.drawn + {owner})
    case Insert(pid) =>
      var c := s.calls[pid];
      if s.row.None? then Grant(s, pid, c.owner, c.now, None) else Enter(s, pid, Reading(c.owner, c.now))
    case Read(pid) =>
      var c := s.calls[pid];
      if s.row.None? || !Expired(s.row.value.expiresAt, c.now) then Enter(s, pid, Refused(c.owner))
      else Enter(s, pid, Stealing(c.owner, c.now, s.row.value))
    case Steal(pid) =>
      var c := s.calls[pid];
      if s.row == Some(c.seen)
      then Grant(s, pid, c.owner, c.now, Some(c.seen.owner)).(robbed := s.robbed + {c.seen.owner})
      else Enter(s, pid, Refused(c.owner))
    case Release(pid) =>
      var c := s.calls[pid];
      var s1 := Enter(s, pid, Released(c.owner, c.from));
      if s.row.Some? && s.row.value.owner == c.owner then s1.(row := None) else s1
  }

  predicate Runs(s: State, actions: seq<Action>)
    decreases |actions|
  {
    actions == [] || (Enabled(s, actions[0]) && Runs(Step(s, actions[0]), actions[1..]))
  }

  function After(s: State, actions: seq<Action>): State
    requires Runs(s, actions)
    decreases |actions|
  {
    if actions == [] then s else After(Step(s, actions[0]), actions[1..])
  }

  function Initial(clock: int): State {
    State(clock, None, map[], {}, {})
  }

  // ---------------------------------------------------------------- what every step keeps

  /** Calls whose lock was granted, released or not. */
  predicate Won(p: Phase) {
    p.Holding? || p.Released?
  }

  predicate Current(s: State, p: Phase) {
    s.row.Some? && s.row.value.owner == p.owner
  }

  predicate TimesKept(s: State, p: Phase) {
    match p
    case Inserting(_, now) => now <= s.clock
    case Reading(_, now) => now <= s.clock
    case Stealing(_, now, seen) => now <= s.clock && seen.expiresAt <= now
    case Holding(_, since, expiresAt, _) =>
      && since <= s.clock && expiresAt <= since + LEASE_MS
      && (Current(s, p) ==> s.row.value.expiresAt == expiresAt)
      && (!Current(s, p) ==> expiresAt <= s.clock)
    case _ => true
  }

  predicate Timely(s: State) {
    forall p :: p in s.calls ==> s.calls[p].owner in s.drawn && TimesKept(s, s.calls[p])
  }

  predicate OwnersDiffer(s: State) {
    forall p, q :: p in s.calls && q in s.calls && p != q ==> s.calls[p].owner != s.calls[q].owner
  }

  predicate Holds(s: State, p: Pid) {
    p in s.calls && s.calls[p].Holding? && Current(s, s.calls[p])
  }

  /** The row belongs to a call that holds the lock and has not been robbed. */
  ghost predicate RowHeld(s: State) {
    s.row.Some? ==> s.row.value.owner !in s.robbed && exists p :: Holds(s, p)
  }

  /** Every theft is on record, and nobody still on the way to the lock has been robbed. */
  predicate Recorded(s: State) {
    forall p :: p in s.calls ==>
      && (Won(s.calls[p]) && s.calls[p].from.Some? ==> s.calls[p].from.value in s.robbed)
      && (!Won(s.calls[p]) ==> s.calls[p].owner !in s.robbed)
  }

  /** No two calls stole from the same owner. */
  predicate OneThief(s: State) {
    forall p, q :: p in s.calls && q in s.calls && p != q && Won(s.calls[p]) && Won(s.calls[q]) && s.calls[p].from.Some?
      ==> s.calls[p].from != s.calls[q].from
  }

  /** Two unreleased locks were never valid at once: one had expired when the other was granted. */
  predicate Disjoint(p: Phase, q: Phase) {
    p.Holding? && q.Holding? ==> p.expiresAt <= q.since || q.expiresAt <= p.since
  }

  predicate WindowsApart(s: State) {
    forall p, q :: p in s.calls && q in s.calls && p != q ==> Disjoint(s.calls[p], s.calls[q])
  }

  ghost predicate Inv(s: State) {
    Timely(s) && OwnersDiffer(s) && RowHeld(s) && Recorded(s) && OneThief(s) && WindowsApart(s)
  }

  lemma BeginKeeps(s: State, pid: Pid, owner: Owner)
    requires Inv(s) && Enabled(s, Begin(pid, owner)) && s.robbed <= s.drawn
    ensures Inv(Step(s, Begin(pid, owner)))
  {
    var s2 := Step(s, Begin(pid, owner));
    if s2.row.Some? {
      var p :| Holds(s, p);
      assert Holds(s2, p);
    }
  }

  /** A call moving on without touching the row. */
  lemma MoveKeeps(s: State, pid: Pid, phase: Phase)
    requires Inv(s) && pid in s.calls && !Won(s.calls[pid]) && !Won(phase)
    requires phase.owner == s.calls[pid].owner && TimesKept(s, phase)
    ensures Inv(Enter(s, pid, phase))
  {
    var s2 := Enter(s, pid, phase);
    if s2.row.Some? {
      var p :| Holds(s, p);
      assert Holds(s2, p);
    }
  }

  /** A grant when every earlier lock has run out. */
  lemma GrantKeeps(s: State, pid: Pid, now: int, from: Option<Owner>, robbed: set<Owner>)
    requires Inv(s) && pid in s.calls && !Won(s.calls[pid]) && now <= s.clock
    requires forall p :: p in s.calls && s.calls[p].Holding? ==> s.calls[p].expiresAt <= s.clock
    requires robbed == s.robbed + (if from.Some? then {from.value} else {})
    requires from.Some? ==>
               from.value !in s.robbed && exists p :: p in s.calls && Won(s.calls[p]) && s.calls[p].owner == from.value
    ensures Inv(Grant(s, pid, s.calls[pid].owner, now, from).(robbed := robbed))
  {
    var s2 := Grant(s, pid, s.calls[pid].owner, now, from).(robbed := robbed);
    assert Holds(s2, pid);
    assert Timely(s2) && OwnersDiffer(s2);
    if from.Some? {
      var v :| v in s.calls && Won(s.calls[v]) && s.calls[v].owner == from.value;
      assert v != pid;
      assert forall p :: p in s.calls && !Won(s.calls[p]) ==> s.calls[p].owner != from.value;
    }
  }

  lemma InsertKeeps(s: State, pid: Pid)
    requires Inv(s) && Enabled(s, Insert(pid))
    ensures Inv(Step(s, Insert(pid)))
  {
    var c := s.calls[pid];
    assert TimesKept(s, c);
    if s.row.None? {
      assert forall p :: p in s.calls ==> TimesKept(s, s.calls[p]);
      GrantKeeps(s, pid, c.now, None, s.robbed);
    } else {
      MoveKeeps(s, pid, Reading(c.owner, c.now));
    }
  }

  lemma ReadKeeps(s: State, pid: Pid)
    requires Inv(s) && Enabled(s, Read(pid))
    ensures Inv(Step(s, Read(pid)))
  {
    var c := s.calls[pid];
    assert TimesKept(s, c);
    if s.row.None? || !Expired(s.row.value.expiresAt, c.now) {
      MoveKeeps(s, pid, Refused(c.owner));
    } else {
      MoveKeeps(s, pid, Stealing(c.owner, c.now, s.row.value));
    }
  }

  lemma StealKeeps(s: State, pid: Pid)
    requires Inv(s) && Enabled(s, Steal(pid))
    ensures Inv(Step(s, Steal(pid)))
  {
    var c := s.calls[pid];
    assert TimesKept(s, c);
    if s.row == Some(c.seen) {
      forall p | p in s.calls && s.calls[p].Holding? ensures s.calls[p].expiresAt <= s.clock {
        assert TimesKept(s, s.calls[p]);
      }
      var v :| Holds(s, v);
      GrantKeeps(s, pid, c.now, Some(c.seen.owner), s.robbed + {c.seen.owner});
    } else {
      MoveKeeps(s, pid, Refused(c.owner));
    }
  }

  lemma ReleaseTimely(s: State, pid: Pid)
    requires Inv(s) && Enabled(s, Release(pid))
    ensures Timely(Step(s, Release(pid))) && OwnersDiffer(Step(s, Release(pid)))
  {
    var s2 := Step(s, Release(pid));
    forall p | p in s2.calls ensures TimesKept(s2, s2.calls[p]) {
      assert TimesKept(s, s.calls[p]);
    }
  }

  lemma ReleaseRecorded(s: State, pid: Pid)
    requires Inv(s) && Enabled(s, Release(pid))
    ensures Recorded(Step(s, Release(pid))) && OneThief(Step(s, Release(pid))) && WindowsApart(Step(s, Release(pid)))
  {
  }

  lemma ReleaseKeeps(s: State, pid: Pid)
    requires Inv(s) && Enabled(s, Release(pid))
    ensures Inv(Step(s, Release(pid)))
  {
    ReleaseTimely(s, pid);
    ReleaseRecorded(s, pid);
    var s2 := Step(s, Release(pid));
    if s2.row.Some? {
      var p :| Holds(s, p);
      assert Holds(s2, p);
    }
  }

  lemma TickKeeps(s: State, ms: nat)
    requires Inv(s)
    ensures Inv(Step(s, Tick(ms)))
  {
    var s2 := Step(s, Tick(ms));
    forall p | p in s2.calls ensures TimesKept(s2, s2.calls[p]) {
      assert TimesKept(s, s.calls[p]);
    }
    if s2.row.Some? {
      var p :| Holds(s, p);
      assert Holds(s2, p);
    }
  }

  lemma StepKeeps(s: State, a: Action)
    requires Inv(s) && s.robbed <= s.drawn && Enabled(s, a)
    ensures Inv(Step(s, a)) && Step(s, a).robbed <= Step(s, a).drawn
  {
    match a
    case Tick(ms) => TickKeeps(s, ms);
    case Begin(pid, owner) => BeginKeeps(s, pid, owner);
    case Insert(pid) => InsertKeeps(s, pid);
    case Read(pid) => ReadKeeps(s, pid);
    case Steal(pid) =>
      StealKeeps(s, pid);
      if s.row == Some(s.calls[pid].seen) {
        var v :| Holds(s, v);
      }
    case Release(pid) => ReleaseKeeps(s, pid);
  }

  lemma {:induction false} RunKeeps(s: State, actions: seq<Action>)
    requires Inv(s) && s.robbed <= s.drawn && Runs(s, actions)
    ensures Inv(After(s, actions)) && After(s, actions).robbed <= After(s, actions).drawn
    decreases |actions|
  {
    if actions != [] {
      StepKeeps(s, actions[0]);
      RunKeeps(Step(s, actions[0]), actions[1..]);
    }
  }

  // ---------------------------------------------------------------- over every run

  predicate Live(s: State, p: Pid) {
    p in s.calls && s.calls[p].Holding? && s.clock < s.calls[p].expiresAt
  }

  /**
   * Whatever the interleaving: the validity windows of unreleased locks never
   * overlap, at most one lock is live, and of all calls that saw the same
   * expired row at most one stole it.
   */
  lemma LeaseIsExclusive(clock: int, actions: seq<Action>)
    requires Runs(Initial(clock), actions)
    ensures var s := After(Initial(clock), actions);
            && WindowsApart(s) && OneThief(s)
            && (forall p, q :: Live(s, p) && Live(s, q) ==> p == q)
  {
    RunKeeps(Initial(clock), actions);
    var s := After(Initial(clock), actions);
    forall p, q | Live(s, p) && Live(s, q) ensures p == q {
      assert TimesKept(s, s.calls[p]) && TimesKept(s, s.calls[q]);
    }
  }

  /** Releasing removes the caller's own row and nothing else: a displaced owner's release spares its successor. */
  lemma ReleaseSparesSuccessor(clock: int, actions: seq<Action>, pid: Pid)
    requires Runs(Initial(clock), actions) && Enabled(After(Initial(clock), actions), Release(pid))
    ensures var s := After(Initial(clock), actions);
            var s2 := Step(s, Release(pid));
            && (Holds(s, pid) <==> s.row.Some? && s2.row.None?)
            && (forall q :: q != pid && Holds(s, q) ==> s2.row == s.row && Holds(s2, q))
  {
    RunKeeps(Initial(clock), actions);
  }

  // ---------------------------------------------------------------- windows counted from the clock reading

  /** The windows from the time each call read, one lease long, do not overlap. */
  predicate ClockApart(p: Phase, q: Phase) {
    p.Holding? && q.Holding? ==> p.expiresAt <= q.expiresAt - LEASE_MS || q.expiresAt <= p.expiresAt - LEASE_MS
  }

  predicate ClockWindowsApart(s: State) {
    forall p, q :: p in s.calls && q in s.calls && p != q ==> ClockApart(s.calls[p], s.calls[q])
  }

  /** The step gives the lock to a call that read the time as `now`. */
  predicate Grants(s: State, a: Action, pid: Pid, now: int) {
    && Enabled(s, a)
    && match a
       case Insert(p) => p == pid && s.row.None? && s.calls[p].now == now
       case Steal(p) => p == pid && s.row == Some(s.calls[p].seen) && s.calls[p].now == now
       case _ => false
  }

  /** Every unreleased lock ends by `now`, or belongs to a call that read the time a whole lease later. */
  predicate Clear(s: State, now: int) {
    forall q :: q in s.calls && s.calls[q].Holding? ==>
      s.calls[q].expiresAt <= now || now + LEASE_MS <= s.calls[q].expiresAt - LEASE_MS
  }

  /** Only grants can make such windows overlap, and a grant does so exactly when it is not clear. */
  lemma GrantApartExactly(s: State, a: Action, pid: Pid, now: int)
    requires Grants(s, a, pid, now) && ClockWindowsApart(s)
    ensures ClockWindowsApart(Step(s, a)) <==> Clear(s, now)
  {
    var s2 := Step(s, a);
    assert s2.calls[pid].Holding? && s2.calls[pid].expiresAt == now + LEASE_MS;
    if ClockWindowsApart(s2) {
      forall q | q in s.calls && s.calls[q].Holding?
        ensures s.calls[q].expiresAt <= now || now + LEASE_MS <= s.calls[q].expiresAt - LEASE_MS
      {
        assert q != pid && s2.calls[q] == s.calls[q] && ClockApart(s2.calls[q], s2.calls[pid]);
      }
    }
  }

  lemma OtherStepsApart(s: State, a: Action)
    requires Enabled(s, a) && ClockWindowsApart(s) && forall pid, now :: !Grants(s, a, pid, now)
    ensures ClockWindowsApart(Step(s, a))
  {
    match a
    case Insert(pid) => assert !Grants(s, a, pid, s.calls[pid].now);
    case Steal(pid) => assert !Grants(s, a, pid, s.calls[pid].now);
    case _ =>
  }

  /** A winning steal is clear of the lock it displaces. */
  lemma StealClearsDisplaced(s: State, pid: Pid, q: Pid)
    requires Inv(s) && Enabled(s, Steal(pid)) && s.row == Some(s.calls[pid].seen) && Holds(s, q)
    ensures s.calls[q].expiresAt <= s.calls[pid].now
  {
    assert TimesKept(s, s.calls[pid]) && TimesKept(s, s.calls[q]);
  }

  /** A grant at the very time the call read is always clear. */
  lemma PromptGrantClear(s: State, a: Action, pid: Pid)
    requires Inv(s) && Grants(s, a, pid, s.clock)
    ensures Clear(s, s.clock)
  {
    forall q | q in s.calls && s.calls[q].Holding? ensures s.calls[q].expiresAt <= s.clock {
      assert TimesKept(s, s.calls[q]);
      if Current(s, s.calls[q]) {
        StealClearsDisplaced(s, pid, q);
      }
    }
  }

  /** No time passes between a call's reading of the clock and its grant. */
  predicate Prompt(s: State, actions: seq<Action>)
    requires Runs(s, actions)
    decreases |actions|
  {
    actions == [] ||
    (GrantedNow(s, actions[0]) && Prompt(Step(s, actions[0]), actions[1..]))
  }

  predicate GrantedNow(s: State, a: Action)
    requires Enabled(s, a)
  {
    match a
    case Insert(pid) => s.row.None? ==> s.calls[pid].now == s.clock
    case Steal(pid) => s.row == Some(s.calls[pid].seen) ==> s.calls[pid].now == s.clock
    case _ => true
  }

  lemma PromptStepApart(s: State, a: Action)
    requires Inv(s) && Enabled(s, a) && GrantedNow(s, a) && ClockWindowsApart(s)
    ensures ClockWindowsApart(Step(s, a))
  {
    if pid, now :| Grants(s, a, pid, now) {
      PromptGrantClear(s, a, pid);
      GrantApartExactly(s, a, pid, now);
    } else {
      OtherStepsApart(s, a);
    }
  }

  /** Over every run with prompt grants the windows counted from the clock reading never overlap. */
  lemma {:induction false} PromptRunsApart(s: State, actions: seq<Action>)
    requires Inv(s) && s.robbed <= s.drawn && Runs(s, actions) && Prompt(s, actions) && ClockWindowsApart(s)
    ensures ClockWindowsApart(After(s, actions))
    decreases |actions|
  {
    if actions != [] {
      PromptStepApart(s, actions[0]);
      StepKeeps(s, actions[0]);
      PromptRunsApart(Step(s, actions[0]), actions[1..]);
    }
  }

  // ---------------------------------------------------------------- exactly which runs keep them apart

  /** When each call began, kept alongside a run. */
  function Began(times: map<Pid, int>, s: State, a: Action): map<Pid, int> {
    if a.Begin? then times[a.pid := s.clock] else times
  }

  /** Two calls began at least a lease apart. */
  predicate Spaced(times: map<Pid, int>, p: Pid, q: Pid) {
    p in times && q in times ==> times[p] + LEASE_MS <= times[q] || times[q] + LEASE_MS <= times[p]
  }

  /** If the action gives a call the lock, every call with an unreleased lock began at least a lease before or after. */
  predicate SpacedGrant(s: State, times: map<Pid, int>, a: Action)
    requires Enabled(s, a)
  {
    (a.Insert? && s.row.None?) || (a.Steal? && s.row == Some(s.calls[a.pid].seen)) ==>
      forall q :: q in s.calls && s.calls[q].Holding? ==> Spaced(times, a.pid, q)
  }

  predicate SpacedGrants(s: State, times: map<Pid, int>, actions: seq<Action>)
    requires Runs(s, actions)
    decreases |actions|
  {
    actions == [] ||
    (SpacedGrant(s, times, actions[0]) && SpacedGrants(Step(s, actions[0]), Began(times, s, actions[0]), actions[1..]))
  }

  /** At every moment of the run the windows counted from the clock reading are apart. */
  predicate AlwaysApart(s: State, actions: seq<Action>)
    requires Runs(s, actions)
    decreases |actions|
  {
    ClockWindowsApart(s) && (actions == [] || AlwaysApart(Step(s, actions[0]), actions[1..]))
  }

  /** A call's reading of the clock, and the end of its lock, go back to the moment it began. */
  predicate Dates(p: Phase, time: int) {
    match p
    case Inserting(_, now) => now == time
    case Reading(_, now) => now == time
    case Stealing(_, now, _) => now == time
    case Holding(_, _, expiresAt, _) => expiresAt == time + LEASE_MS
    case _ => true
  }

  predicate Dated(s: State, times: map<Pid, int>) {
    forall p :: p in s.calls ==> p in times && Dates(s.calls[p], times[p])
  }

  lemma StepDated(s: State, times: map<Pid, int>, a: Action)
    requires Dated(s, times) && Enabled(s, a)
    ensures Dated(Step(s, a), Began(times, s, a))
  {
  }

  lemma StepApartExactly(s: State, times: map<Pid, int>, a: Action)
    requires Dated(s, times) && Enabled(s, a) && ClockWindowsApart(s)
    ensures ClockWindowsApart(Step(s, a)) <==> SpacedGrant(s, times, a)
  {
    if pid, now :| Grants(s, a, pid, now) {
      GrantApartExactly(s, a, pid, now);
      assert Dates(s.calls[pid], times[pid]);
    } else {
      OtherStepsApart(s, a);
      if a.Insert? || a.Steal? {
        assert !Grants(s, a, a.pid, s.calls[a.pid].now);
      }
    }
  }

  lemma {:induction false} RunsApart(s: State, times: map<Pid, int>, actions: seq<Action>)
    requires Dated(s, times) && Runs(s, actions) && ClockWindowsApart(s)
    ensures AlwaysApart(s, actions) <==> SpacedGrants(s, times, actions)
    decreases |actions|
  {
    if actions != [] {
      StepApartExactly(s, times, actions[0]);
      StepDated(s, times, actions[0]);
      if ClockWindowsApart(Step(s, actions[0])) {
        RunsApart(Step(s, actions[0]), Began(times, s, actions[0]), actions[1..]);
      }
    }
  }

  /**
   * Over every run: the windows counted from the clock reading never overlap
   * if and only if no call gets the lock while another call that began less
   * than a lease before or after it has not released its own.
   */
  lemma RunApartExactly(clock: int, actions: seq<Action>)
    requires Runs(Initial(clock), actions)
    ensures AlwaysApart(Initial(clock), actions) <==> SpacedGrants(Initial(clock), map[], actions)
  {
    RunsApart(Initial(clock), map[], actions);
  }

  lemma Goes(start: State, history: seq<Action>, s: State, a: Action) returns (more: seq<Action>, next: State)
    requires Runs(start, history) && After(start, history) == s && Enabled(s, a)
    ensures more == history + [a] && next == Step(s, a) && Runs(start, more) && After(start, more) == next
  {
    more, next := history + [a], Step(s, a);
    RunsOne(s, a);
    RunsAppend(start, history, [a]);
  }

  /**
   * A call that pauses between reading the clock and inserting can be granted a
   * window that overlaps an unreleased one: call 0 holds to 120000, and call 1,
   * which read 100000, gets the lock at 125000 after call 2 stole and released it.
   */
  lemma PausedInsertOverlaps() returns (actions: seq<Action>)
    ensures Runs(Initial(0), actions) && !ClockWindowsApart(After(Initial(0), actions))
  {
    var s0 := Initial(0);
    var h, s := [], s0;
    h, s := Goes(s0, h, s, Begin(0, 0));
    h, s := Goes(s0, h, s, Insert(0));
    h, s := Goes(s0, h, s, Tick(100000));
    h, s := Goes(s0, h, s, Begin(1, 1));
    h, s := Goes(s0, h, s, Tick(25000));
    h, s := Goes(s0, h, s, Begin(2, 2));
    h, s := Goes(s0, h, s, Insert(2));
    h, s := Goes(s0, h, s, Read(2));
    h, s := Goes(s0, h, s, Steal(2));
    h, s := Goes(s0, h, s, Release(2));
    h, s := Goes(s0, h, s, Insert(1));
    actions := h;
    assert !ClockApart(s.calls[0], s.calls[1]);
  }

  /**
   * Past windows do not overlap later ones: call 1, which read 0, is granted at
   * 250000 while call 0 holds 130000 to 250000.
   */
  lemma StaleInsertApart() returns (actions: seq<Action>, s: State)
    ensures Runs(Initial(0), actions) && s == After(Initial(0), actions)
    ensures 0 in s.calls && 1 in s.calls && s.calls[0].Holding? && s.calls[1].Holding?
    ensures ClockApart(s.calls[0], s.calls[1])
    ensures s.calls[0].expiresAt == 250000 && s.calls[1].expiresAt == LEASE_MS
  {
    var s0 := Initial(0);
    var h: seq<Action>;
    h, s := [], s0;
    h, s := Goes(s0, h, s, Begin(1, 1));
    h, s := Goes(s0, h, s, Tick(130000));
    h, s := Goes(s0, h, s, Begin(0, 0));
    h, s := Goes(s0, h, s, Insert(0));
    h, s := Goes(s0, h, s, Tick(120000));
    h, s := Goes(s0, h, s, Begin(2, 2));
    h, s := Goes(s0, h, s, Insert(2));
    h, s := Goes(s0, h, s, Read(2));
    h, s := Goes(s0, h, s, Steal(2));
    h, s := Goes(s0, h, s, Release(2));
    h, s := Goes(s0, h, s, Insert(1));
    actions := h;
  }

  // ---------------------------------------------------------------- one call

  lemma {:induction false} RunsAppend(s: State, a: seq<Action>, b: seq<Action>)
    requires Runs(s, a) && Runs(After(s, a), b)
    ensures Runs(s, a + b) && After(s, a + b) == After(After(s, a), b)
    decreases |a|
  {
    if a == [] {
      assert a + b == b;
    } else {
      RunsAppend(Step(s, a[0]), a[1..], b);
      assert (a + b)[1..] == a[1..] + b;
    }
  }

  lemma RunsOne(s: State, a: Action)
    requires Enabled(s, a)
    ensures Runs(s, [a]) && After(s, [a]) == Step(s, a)
  {
  }

  /** Other calls leave this call where it is. */
  predicate Spares(actions: seq<Action>, pid: Pid) {
    forall i :: 0 <= i < |actions| ==> actions[i].Tick? || actions[i].pid != pid
  }

  lemma {:induction false} OthersSpare(s: State, actions: seq<Action>, pid: Pid)
    requires Runs(s, actions) && Spares(actions, pid) && pid in s.calls
    ensures var s2 := After(s, actions); pid in s2.calls && s2.calls[pid] == s.calls[pid]
    decreases |actions|
  {
    if actions != [] {
      assert actions[0].Tick? || actions[0].pid != pid;
      OthersSpare(Step(s, actions[0]), actions[1..], pid);
    }
  }

  /** The lease table, with the calls of other sessions running in between. */
  class LeaseTable {
    var state: State
    ghost var history: seq<Action>

    constructor (clock: int)
      ensures state == Initial(clock) && history == []
    {
      state, history := Initial(clock), [];
    }

    method Do(a: Action)
      requires Enabled(state, a)
      modifies this
      ensures state == Step(old(state), a) && history == old(history) + [a]
    {
      state := Step(state, a);
      history := history + [a];
    }

    method Others(actions: seq<Action>)
      requires Runs(state, actions)
      modifies this
      ensures state == After(old(state), actions) && history == old(history) + actions
    {
      var i := 0;
      while i < |actions|
        invariant 0 <= i <= |actions|
        invariant Runs(state, actions[i..]) && After(state, actions[i..]) == After(old(state), actions)
        invariant history == old(history) + actions[..i]
      {
        assert actions[i..][1..] == actions[i + 1..];
        Do(actions[i]);
        i := i + 1;
      }
    }

    /**
     * `tryBeginReencryptSweep`: clock, insert, read, conditional update. `first`,
     * `second` and `third` choose what other calls do before each statement.
     */
    method TryBegin(pid: Pid, owner: Owner, first: State -> seq<Action>, second: State -> seq<Action>,
                    third: State -> seq<Action>)
      returns (granted: bool)
      requires Enabled(state, Begin(pid, owner))
      requires forall s :: Runs(s, first(s)) && Spares(first(s), pid)
      requires forall s :: Runs(s, second(s)) && Spares(second(s), pid)
      requires forall s :: Runs(s, third(s)) && Spares(third(s), pid)
      modifies this
      ensures old(history) <= history
      ensures Runs(old(state), history[|old(history)|..]) && state == After(old(state), history[|old(history)|..])
      ensures pid in state.calls && state.calls[pid].owner == owner
      ensures granted ==> state.calls[pid].Holding? && Current(state, state.calls[pid])
      ensures !granted ==> state.calls[pid].Refused?
    {
      ghost var s0, h0 := state, history;
      Do(Begin(pid, owner));
      RunsOne(s0, Begin(pid, owner));
      assert history[|h0|..] == [Begin(pid, owner)];
      TrackAll(s0, h0, first(state));
      OthersSpare(state, first(state), pid);
      Others(first(state));
      Track(s0, h0, Insert(pid));
      Do(Insert(pid));
      if state.calls[pid].Holding? {
        return true;
      }
      TrackAll(s0, h0, second(state));
      OthersSpare(state, second(state), pid);
      Others(second(state));
      Track(s0, h0, Read(pid));
      Do(Read(pid));
      if state.calls[pid].Refused? {
        return false;
      }
      TrackAll(s0, h0, third(state));
      OthersSpare(state, third(state), pid);
      Others(third(state));
      Track(s0, h0, Steal(pid));
      Do(Steal(pid));
      granted := state.calls[pid].Holding?;
    }

    lemma TrackAll(s0: State, h0: seq<Action>, more: seq<Action>)
      requires h0 <= history && Runs(s0, history[|h0|..]) && state == After(s0, history[|h0|..]) && Runs(state, more)
      ensures var h := history + more; h0 <= h && Runs(s0, h[|h0|..]) && After(state, more) == After(s0, h[|h0|..])
    {
      RunsAppend(s0, history[|h0|..], more);
      assert (history + more)[|h0|..] == history[|h0|..] + more;
    }

    lemma Track(s0: State, h0: seq<Action>, a: Action)
      requires h0 <= history && Runs(s0, history[|h0|..]) && state == After(s0, history[|h0|..]) && Enabled(state, a)
      ensures var h := history + [a]; h0 <= h && Runs(s0, h[|h0|..]) && Step(state, a) == After(s0, h[|h0|..])
    {
      RunsOne(state, a);
      TrackAll(s0, h0, [a]);
    }

    /** `endReencryptSweep`. */
    method End(pid: Pid)
      requires Enabled(state, Release(pid))
      modifies this
      ensures state == Step(old(state), Release(pid)) && history == old(history) + [Release(pid)]
      ensures state.row == if old(Current(state, state.calls[pid])) then None else old(state.row)
    {
      Do(Release(pid));
    }
  }

  /** Undisturbed, a call gets the lock exactly when there is no row or the row has expired by now. */
  lemma UndisturbedBegin(s: State, pid: Pid, owner: Owner)
    requires Enabled(s, Begin(pid, owner))
    ensures var s1 := Step(Step(s, Begin(pid, owner)), Insert(pid));
            var s2 := if Enabled(s1, Read(pid)) then Step(s1, Read(pid)) else s1;
            var s3 := if Enabled(s2, Steal(pid)) then Step(s2, Steal(pid)) else s2;
            s3.calls[pid].Holding? <==> s.row.None? || s.row.value.expiresAt <= s.clock
  {
  }
}
