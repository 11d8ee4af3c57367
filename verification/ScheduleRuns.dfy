/** Any number of schedule workers on one row, interleaved statement by statement and crashing. */
module ScheduleRuns {
  import opened Common
  import opened Calendar
  import opened Schedules

  type Pid = nat

  /** Where a worker handling one listed schedule stands; it carries the copy it read. */
  datatype Pc =
    | Listed(sch: Schedule)
    | Claimed(sch: Schedule)
    | Fired(sch: Schedule)
    | Refused(sch: Schedule)

  /** `fired` records the occurrence of every transfer successfully initiated, in order. */
  datatype State = State(row: Schedule, procs: map<Pid, Pc>, clock: Time, fired: seq<Time>, holder: Option<Pid>)

  datatype Step =
    | Tick(now: Time)
    | ListDue(p: Pid)
    | TryClaim(p: Pid)
    | Initiate(p: Pid, ok: bool)
    | WriteBack(p: Pid)
    | Crash(p: Pid)

  /** What the environment is allowed to do: a worker that won the claim may stop, or have its write fail. */
  datatype Env = Env(holdersMayStop: bool)

  predicate Holding(pc: Pc) {
    pc.Claimed? || pc.Fired? || pc.Refused?
  }

  function Drop(procs: map<Pid, Pc>, p: Pid): map<Pid, Pc> {
    procs - {p}
  }

  /** One atomic step, or None where it is not enabled. */
  function Do(env: Env, s: State, step: Step): Option<State> {
    match step
    case Tick(now) => if !After(s.clock, now) then Some(s.(clock := now)) else None
    case ListDue(p) =>
      if p !in s.procs && Due(s.row, s.clock) then Some(s.(procs := s.procs[p := Listed(s.row)])) else None
    case TryClaim(p) =>
      if p in s.procs && s.procs[p].Listed? then
        match Claim(s.row, s.procs[p].sch.nextRunAt)
        case Some(row) => Some(s.(row := row, procs := s.procs[p := Claimed(s.procs[p].sch)], holder := Some(p)))
        case None => Some(s.(procs := Drop(s.procs, p)))
      else None
    case Initiate(p, ok) =>
      if p in s.procs && s.procs[p].Claimed? then
        var sch := s.procs[p].sch;
        if ok then Some(s.(procs := s.procs[p := Fired(sch)], fired := s.fired + [sch.nextRunAt]))
        else Some(s.(procs := s.procs[p := Refused(sch)]))
      else None
    case WriteBack(p) =>
      if p in s.procs && s.procs[p].Fired? then
        Some(s.(row := Advanced(s.procs[p].sch), procs := Drop(s.procs, p)))
      else if p in s.procs && s.procs[p].Refused? then
        Some(s.(row := s.procs[p].sch.(status := Failed), procs := Drop(s.procs, p)))
      else None
    case Crash(p) =>
      if p !in s.procs || (Holding(s.procs[p]) && !env.holdersMayStop) then None
      else Some(s.(procs := Drop(s.procs, p)))
  }

  function Run(env: Env, s: State, steps: seq<Step>): Option<State> {
    if steps == [] then Some(s)
    else match Run(env, s, steps[..|steps| - 1])
         case None => None
         case Some(m) => Do(env, m, steps[|steps| - 1])
  }

  ghost predicate ReachableFrom(env: Env, s0: State, s: State) {
    exists steps :: Run(env, s0, steps) == Some(s)
  }

  predicate Initial(s: State) {
    s.procs == map[] && s.fired == [] && s.holder == None
  }

  predicate NotPast(t: Time, endAt: Option<Time>) {
    endAt.None? || !After(t, endAt.value)
  }

  /** The row's next run is the first occurrence not yet fired, and inside the end date unless first. */
  ghost predicate Current(first: Schedule, fired: seq<Time>, sch: Schedule) {
    && sch.frequency == first.frequency && sch.endAt == first.endAt
    && sch.nextRunAt == Occurrence(first.nextRunAt, first.frequency, |fired|)
    && (fired != [] ==> NotPast(sch.nextRunAt, first.endAt))
  }

  ghost predicate ProcInv(first: Schedule, s: State, p: Pid)
    requires p in s.procs
  {
    var pc := s.procs[p];
    && pc.sch.frequency == first.frequency && pc.sch.endAt == first.endAt && !After(pc.sch.nextRunAt, s.clock)
    && (Holding(pc) ==> s.holder == Some(p) && s.row.status == Processing)
    && (pc.Claimed? || pc.Refused? ==> Current(first, s.fired, pc.sch))
    && (pc.Fired? ==> s.fired != [] && pc.sch.nextRunAt == s.fired[|s.fired| - 1])
  }

  ghost predicate Inv(first: Schedule, s: State) {
    && (forall p | p in s.procs :: ProcInv(first, s, p))
    && (s.row.status == Active ==> Current(first, s.fired, s.row))
    && (forall i | 0 <= i < |s.fired| :: Occurs(first, s, i))
  }

  /** The i-th initiated transfer is the i-th occurrence, was due, and is inside the end date. */
  ghost predicate Occurs(first: Schedule, s: State, i: nat)
    requires i < |s.fired|
  {
    && s.fired[i] == Occurrence(first.nextRunAt, first.frequency, i)
    && !After(s.fired[i], s.clock)
    && (i > 0 ==> NotPast(s.fired[i], first.endAt))
  }

  lemma InitiateKeepsInv(env: Env, first: Schedule, s: State, p: Pid, ok: bool)
    requires Inv(first, s) && Do(env, s, Initiate(p, ok)).Some?
    ensures Inv(first, Do(env, s, Initiate(p, ok)).value)
  {
    hide Occurrence, AddInterval, After, NotPast;
    var s' := Do(env, s, Initiate(p, ok)).value;
    assert ProcInv(first, s, p);
    forall q | q in s'.procs ensures ProcInv(first, s', q) {
      assert ProcInv(first, s, q);
      if q != p { assert !Holding(s.procs[q]); }
    }
    assert forall i | 0 <= i < |s.fired| :: Occurs(first, s, i) ==> Occurs(first, s', i);
  }

  lemma WriteBackKeepsInv(env: Env, first: Schedule, s: State, p: Pid)
    requires Inv(first, s) && Do(env, s, WriteBack(p)).Some?
    ensures Inv(first, Do(env, s, WriteBack(p)).value)
  {
    var s' := Do(env, s, WriteBack(p)).value;
    assert ProcInv(first, s, p);
    if s.procs[p].Fired? { assert Occurs(first, s, |s.fired| - 1); }
    forall q | q in s'.procs ensures ProcInv(first, s', q) { assert ProcInv(first, s, q); }
    assert forall i | 0 <= i < |s.fired| :: Occurs(first, s, i) ==> Occurs(first, s', i);
  }

  lemma StepKeepsInv(env: Env, first: Schedule, s: State, step: Step)
    requires Inv(first, s) && Do(env, s, step).Some?
    ensures Inv(first, Do(env, s, step).value)
  {
    match step
    case Initiate(p, ok) => InitiateKeepsInv(env, first, s, p, ok);
    case WriteBack(p) => WriteBackKeepsInv(env, first, s, p);
    case Tick(_) | ListDue(_) | TryClaim(_) | Crash(_) =>
      var s' := Do(env, s, step).value;
      forall q | q in s'.procs ensures ProcInv(first, s', q) { assert q in s.procs ==> ProcInv(first, s, q); }
      assert forall i | 0 <= i < |s.fired| :: Occurs(first, s, i) ==> Occurs(first, s', i);
  }

  lemma {:induction false} RunKeepsInv(env: Env, s0: State, steps: seq<Step>)
    requires Initial(s0) && Run(env, s0, steps).Some?
    ensures Inv(s0.row, Run(env, s0, steps).value)
    decreases |steps|
  {
    if steps != [] {
      RunKeepsInv(env, s0, steps[..|steps| - 1]);
      StepKeepsInv(env, s0.row, Run(env, s0, steps[..|steps| - 1]).value, steps[|steps| - 1]);
    }
  }

  /** However workers interleave and crash, the transfers initiated are a prefix of the occurrences,
      each already due, and none after the first is past the end date. */
  lemma InitiatedAreAPrefix(env: Env, s0: State, steps: seq<Step>)
    requires Initial(s0) && Run(env, s0, steps).Some?
    ensures var s := Run(env, s0, steps).value; forall i | 0 <= i < |s.fired| :: Occurs(s0.row, s, i)
  {
    RunKeepsInv(env, s0, steps);
  }

  /** With a known frequency no occurrence is initiated twice. */
  lemma NoOccurrenceTwice(env: Env, s0: State, steps: seq<Step>, i: nat, j: nat)
    requires Initial(s0) && Run(env, s0, steps).Some? && !s0.row.frequency.Unknown?
    requires i < j < |Run(env, s0, steps).value.fired|
    ensures After(Run(env, s0, steps).value.fired[j], Run(env, s0, steps).value.fired[i])
  {
    RunKeepsInv(env, s0, steps);
    var s := Run(env, s0, steps).value;
    assert Occurs(s0.row, s, i) && Occurs(s0.row, s, j);
    OccurrencesIncrease(s0.row.nextRunAt, s0.row.frequency, i, j);
  }

  /** A schedule ends only when it is past its end: whoever marks an active schedule completed has initiated
      transfers up to an occurrence whose successor lies after the end date. */
  lemma {:induction false} CompletedIsPastEnd(env: Env, s0: State, steps: seq<Step>)
    requires Initial(s0) && s0.row.status == Active && Run(env, s0, steps).Some?
    requires Run(env, s0, steps).value.row.status == Completed
    ensures var s := Run(env, s0, steps).value;
            && s.fired != [] && s0.row.endAt.Some?
            && After(Occurrence(s0.row.nextRunAt, s0.row.frequency, |s.fired|), s0.row.endAt.value)
    decreases |steps|
  {
    var init, step := steps[..|steps| - 1], steps[|steps| - 1];
    var m := Run(env, s0, init).value;
    RunKeepsInv(env, s0, init);
    if m.row.status == Completed {
      CompletedIsPastEnd(env, s0, init);
      CompletedStays(env, s0.row, m, step);
    } else {
      EndsPastEnd(env, s0.row, m, step);
    }
  }

  /** Nobody holds a completed schedule. */
  lemma CompletedStays(env: Env, first: Schedule, s: State, step: Step)
    requires Inv(first, s) && s.row.status == Completed && Do(env, s, step).Some?
    ensures Do(env, s, step).value.fired == s.fired
  {
    forall p | p in s.procs ensures !Holding(s.procs[p]) { assert ProcInv(first, s, p); }
  }

  lemma EndsPastEnd(env: Env, first: Schedule, s: State, step: Step)
    requires Inv(first, s) && s.row.status != Completed && Do(env, s, step).Some?
    requires Do(env, s, step).value.row.status == Completed
    ensures var s' := Do(env, s, step).value;
            && s'.fired != [] && first.endAt.Some?
            && After(Occurrence(first.nextRunAt, first.frequency, |s'.fired|), first.endAt.value)
  {
    hide After;
    assert step.WriteBack? && s.procs[step.p].Fired?;
    assert ProcInv(first, s, step.p);
    assert Occurs(first, s, |s.fired| - 1);
  }

  // ---- schedules that stop ----

  /** Some continuation, with any workers, initiates another transfer. */
  ghost predicate FiresAgain(env: Env, s: State) {
    exists steps :: Run(env, s, steps).Some? && |Run(env, s, steps).value.fired| > |s.fired|
  }

  /** The interval after the schedule's next run does not lead past its end. */
  predicate HasMore(sch: Schedule) {
    sch.endAt.None? || !After(AddInterval(sch.nextRunAt, sch.frequency), sch.endAt.value)
  }

  /** The row can be claimed, or somebody has claimed it and not yet initiated a transfer, or has and the next run
      is inside the end date. */
  predicate GoesOn(s: State) {
    || s.row.status == Active
    || exists p | p in s.procs :: s.procs[p].Claimed? || (s.procs[p].Fired? && HasMore(s.procs[p].sch))
  }

  lemma StopsFor(env: Env, s: State, step: Step)
    requires !GoesOn(s) && Do(env, s, step).Some?
    ensures !GoesOn(Do(env, s, step).value) && Do(env, s, step).value.fired == s.fired
  {
    var s' := Do(env, s, step).value;
    forall p | p in s'.procs
      ensures !s'.procs[p].Claimed? && (s'.procs[p].Fired? ==> !HasMore(s'.procs[p].sch))
    {
      assert p in s.procs;
    }
  }

  lemma {:induction false} StopsForGood(env: Env, s: State, steps: seq<Step>)
    requires !GoesOn(s) && Run(env, s, steps).Some?
    ensures !GoesOn(Run(env, s, steps).value) && Run(env, s, steps).value.fired == s.fired
    decreases |steps|
  {
    if steps != [] {
      var init := steps[..|steps| - 1];
      StopsForGood(env, s, init);
      StopsFor(env, Run(env, s, init).value, steps[|steps| - 1]);
    }
  }

  lemma {:induction false} RunAfter(env: Env, s: State, step: Step, steps: seq<Step>)
    requires Do(env, s, step).Some?
    ensures Run(env, s, [step] + steps) == Run(env, Do(env, s, step).value, steps)
    decreases |steps|
  {
    if steps == [] {
      assert [step] + steps == [step] && [step][..0] == [];
    } else {
      RunAfter(env, s, step, steps[..|steps| - 1]);
      assert ([step] + steps)[..|steps|] == [step] + steps[..|steps| - 1];
    }
  }

  /** One step on the way to another transfer. */
  lemma FiresAfter(env: Env, s: State, step: Step)
    requires Do(env, s, step).Some?
    requires |Do(env, s, step).value.fired| > |s.fired|
             || (Do(env, s, step).value.fired == s.fired && FiresAgain(env, Do(env, s, step).value))
    ensures FiresAgain(env, s)
  {
    var s' := Do(env, s, step).value;
    var steps := [];
    assert Run(env, s', []) == Some(s');
    if |s'.fired| == |s.fired| { steps :| Run(env, s', steps).Some? && |Run(env, s', steps).value.fired| > |s'.fired|; }
    RunAfter(env, s, step, steps);
  }

  lemma ActiveFires(env: Env, s: State)
    requires s.row.status == Active
    ensures FiresAgain(env, s)
  {
    hide FiresAgain;
    var p := Unused(s.procs.Keys);
    var t := if After(s.clock, s.row.nextRunAt) then s.clock else s.row.nextRunAt;
    var s1 := Do(env, s, Tick(t)).value;
    var s2 := Do(env, s1, ListDue(p)).value;
    var s3 := Do(env, s2, TryClaim(p)).value;
    FiresAfter(env, s3, Initiate(p, true));
    FiresAfter(env, s2, TryClaim(p));
    FiresAfter(env, s1, ListDue(p));
    FiresAfter(env, s, Tick(t));
  }

  /** A schedule can still initiate a transfer exactly if its row can be claimed or whoever claimed it goes on. */
  lemma FiresAgainIff(env: Env, s: State)
    ensures FiresAgain(env, s) <==> GoesOn(s)
  {
    if s.row.status == Active {
      ActiveFires(env, s);
    } else if p :| p in s.procs && s.procs[p].Claimed? {
      FiresAfter(env, s, Initiate(p, true));
    } else if p :| p in s.procs && s.procs[p].Fired? && HasMore(s.procs[p].sch) {
      ActiveFires(env, Do(env, s, WriteBack(p)).value);
      FiresAfter(env, s, WriteBack(p));
    } else {
      forall steps | Run(env, s, steps).Some? ensures Run(env, s, steps).value.fired == s.fired {
        StopsForGood(env, s, steps);
      }
    }
  }

  /** Claimed, and nobody is there to give it back. */
  predicate Stuck(s: State) {
    s.row.status == Processing && forall p | p in s.procs :: !Holding(s.procs[p])
  }

  predicate HolderThere(s: State) {
    s.row.status == Processing ==>
      s.holder.Some? && s.holder.value in s.procs && Holding(s.procs[s.holder.value])
  }

  lemma {:induction false} RunKeepsHolder(env: Env, s0: State, steps: seq<Step>)
    requires !env.holdersMayStop && Initial(s0) && s0.row.status != Processing && Run(env, s0, steps).Some?
    ensures HolderThere(Run(env, s0, steps).value)
    decreases |steps|
  {
    if steps != [] {
      RunKeepsHolder(env, s0, steps[..|steps| - 1]);
    }
  }

  /** The first due occurrence is claimed, and the claimant stops. */
  lemma ClaimantStops(env: Env, s0: State) returns (s: State)
    requires env.holdersMayStop && Initial(s0) && s0.row.status == Active
    ensures ReachableFrom(env, s0, s) && Stuck(s) && s.fired == [] && Due(s0.row, s.clock)
  {
    var t := if After(s0.clock, s0.row.nextRunAt) then s0.clock else s0.row.nextRunAt;
    s := Do(env, s0, Tick(t)).value;
    s := Do(env, s, ListDue(0)).value;
    s := Do(env, s, TryClaim(0)).value;
    s := Do(env, s, Crash(0)).value;
    assert Run(env, s, []) == Some(s);
    RunAfter(env, Do(env, Do(env, Do(env, s0, Tick(t)).value, ListDue(0)).value, TryClaim(0)).value, Crash(0), []);
    RunAfter(env, Do(env, Do(env, s0, Tick(t)).value, ListDue(0)).value, TryClaim(0), [Crash(0)]);
    RunAfter(env, Do(env, s0, Tick(t)).value, ListDue(0), [TryClaim(0), Crash(0)]);
    RunAfter(env, s0, Tick(t), [ListDue(0), TryClaim(0), Crash(0)]);
    assert [TryClaim(0)] + [Crash(0)] == [TryClaim(0), Crash(0)];
    assert [ListDue(0)] + [TryClaim(0), Crash(0)] == [ListDue(0), TryClaim(0), Crash(0)];
    assert Run(env, s0, [Tick(t)] + [ListDue(0), TryClaim(0), Crash(0)]) == Some(s);
  }

  /** An active schedule never gets stuck exactly if no worker stops, or fails to write, while it holds the claim. */
  lemma NeverStuckIff(env: Env, s0: State)
    requires Initial(s0) && s0.row.status == Active
    ensures (forall s | ReachableFrom(env, s0, s) :: !Stuck(s)) <==> !env.holdersMayStop
  {
    if env.holdersMayStop {
      var s := ClaimantStops(env, s0);
    } else {
      forall s | ReachableFrom(env, s0, s) ensures !Stuck(s) {
        var steps :| Run(env, s0, steps) == Some(s);
        RunKeepsHolder(env, s0, steps);
      }
    }
  }

  /** And stuck it stays: no transfer is ever initiated again. */
  lemma StuckForGood(env: Env, s: State)
    requires Stuck(s)
    ensures !FiresAgain(env, s)
  {
    FiresAgainIff(env, s);
  }
}
