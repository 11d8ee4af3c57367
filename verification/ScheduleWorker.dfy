/** The worker's code, on one schedule, with the other workers running between its statements. */
module ScheduleWorker {
  import opened Common
  import opened Calendar
  import opened Schedules
  import opened ScheduleRuns

  /** What the environment answers during one runOne: database, transfer service, database. */
  datatype Answers = Answers(claimErrs: bool, initiateErrs: bool, updateErrs: bool)

  function Actor(step: Step): Option<Pid> {
    match step
    case Tick(_) => None
    case ListDue(p) => Some(p)
    case TryClaim(p) => Some(p)
    case Initiate(p, _) => Some(p)
    case WriteBack(p) => Some(p)
    case Crash(p) => Some(p)
  }

  ghost predicate Foreign(o: Interleaving<Step>, p: Pid) {
    forall k: nat, i | 0 <= i < |o(k)| :: Actor(o(k)[i]) != Some(p)
  }

  lemma OthersLeaveMe(env: Env, s: State, step: Step, p: Pid)
    requires Actor(step) != Some(p) && Do(env, s, step).Some?
    ensures var s' := Do(env, s, step).value;
            && (p in s'.procs <==> p in s.procs) && (p in s.procs ==> s'.procs[p] == s.procs[p])
            && s.fired <= s'.fired
  {
  }

  lemma StepReaches(env: Env, s0: State, s: State, step: Step)
    requires ReachableFrom(env, s0, s) && Do(env, s, step).Some?
    ensures ReachableFrom(env, s0, Do(env, s, step).value)
  {
    var steps :| Run(env, s0, steps) == Some(s);
    var all := steps + [step];
    assert all[..|all| - 1] == steps;
    assert Run(env, s0, all).Some?;
  }

  datatype Outcome =
    | NotDue | NotClaimed
    | Refusal(saved: bool)     // the transfer was refused; the schedule is failed, if that write succeeded
    | Initiated(saved: bool)   // the transfer was initiated; the schedule is advanced, if that write succeeded

  /** The schedule one interval on: active unless that leads past its end date, and completed otherwise; an
      occurrence exactly on the end date is still to come. */
  predicate MovedOn(sch: Schedule, next: Schedule) {
    && next.nextRunAt == AddInterval(sch.nextRunAt, sch.frequency)
    && next.frequency == sch.frequency && next.endAt == sch.endAt
    && next.status in {Active, Completed}
    && (next.status == Active <==> sch.endAt.None? || !After(next.nextRunAt, sch.endAt.value))
  }

  /** What a run leaves behind, however many others run: an initiated transfer is on record for the listed
      occurrence, and a row that was written back is the listed one, advanced or failed. */
  ghost predicate Left(before: State, after: State, sch: Schedule, r: Outcome) {
    && before.fired <= after.fired
    && (r.Initiated? ==> |before.fired| < |after.fired| && sch.nextRunAt in after.fired[|before.fired|..])
    && (r == Initiated(true) ==> MovedOn(sch, after.row))
    && (r == Refusal(true) ==> after.row == sch.(status := Failed))
  }

  /** What an undisturbed runOne makes of the row. */
  function RowAfter(row: Schedule, sch: Schedule, a: Answers): Schedule {
    if a.claimErrs || Claim(row, sch.nextRunAt).None? then row
    else if a.updateErrs then row.(status := Processing)
    else if a.initiateErrs then sch.(status := Failed)
    else Advanced(sch)
  }

  /** Nothing in the code keeps a worker from stopping anywhere. */
  const ENV: Env := Env(true)

  class Worker {
    const id: string
    const repo: ScheduleRepo
    const s0: State
    /** The rest of the world: the other workers, the clock, and the history the theorems are about. The
        program's own code reads the store and what Clock answers, never this. */
    var s: State

    constructor (id: string, repo: ScheduleRepo, now: Time)
      requires id in repo.rows
      ensures Good() && this.id == id && this.repo == repo && s == s0 && s.row == repo.rows[id] && s.clock == now
    {
      this.id, this.repo := id, repo;
      s0 := State(repo.rows[id], map[], now, [], None);
      s := State(repo.rows[id], map[], now, [], None);
      new;
      assert Run(ENV, s0, []) == Some(s);
    }

    /** The stored row is the row of some run of the step system. */
    ghost predicate Good()
      reads this, repo
    {
      Initial(s0) && ReachableFrom(ENV, s0, s) && id in repo.rows && repo.rows[id] == s.row
    }

    method Did(step: Step)
      requires ReachableFrom(ENV, s0, s) && Do(ENV, s, step).Some?
      modifies this`s
      ensures ReachableFrom(ENV, s0, s) && Some(s) == Do(ENV, old(s), step)
    {
      StepReaches(ENV, s0, s, step);
      s := Do(ENV, s, step).value;
    }

    method Others(p: Pid, steps: seq<Step>)
      requires Good() && forall i | 0 <= i < |steps| :: Actor(steps[i]) != Some(p)
      modifies this`s, repo
      ensures Good()
      ensures (p in s.procs <==> p in old(s).procs) && (p in s.procs ==> s.procs[p] == old(s).procs[p])
      ensures old(s).fired <= s.fired
      ensures steps == [] ==> s == old(s)
    {
      hide ReachableFrom;
      for i := 0 to |steps|
        invariant Good()
        invariant (p in s.procs <==> p in old(s).procs) && (p in s.procs ==> s.procs[p] == old(s).procs[p])
        invariant old(s).fired <= s.fired
        invariant steps == [] ==> s == old(s)
      {
        if Do(ENV, s, steps[i]).Some? {
          OthersLeaveMe(ENV, s, steps[i], p);
          Did(steps[i]);
          repo.rows := repo.rows[id := s.row];
        }
      }
    }

    method Clock() returns (now: Time)
      ensures now == s.clock
    {
      now := s.clock;
    }

    /** One pass over the due list, as far as this schedule is concerned. */
    method HandleRunSchedules(p: Pid, a: Answers, o: Interleaving<Step>) returns (r: Outcome)
      requires Good() && p !in s.procs && Foreign(o, p)
      modifies this`s, repo
      ensures Good() && p !in s.procs
      ensures r == NotDue <==> old(s).row.status != Active || After(old(s).row.nextRunAt, old(s).clock)
      ensures Left(old(s), s, old(s).row, r)
      ensures Quiet(o) ==>
                && s.row == (if Due(old(s).row, old(s).clock) then RowAfter(old(s).row, old(s).row, a) else old(s).row)
                && s.fired == old(s).fired + (if Due(old(s).row, old(s).clock) && !a.claimErrs && !a.initiateErrs
                                              then [old(s).row.nextRunAt] else [])
    {
      hide ReachableFrom;
      var now := Clock();
      var due := repo.ListDue(now);
      if id !in due { return NotDue; }
      var sch := due[id];
      Did(ListDue(p));
      r := RunOne(p, sch, a, o);
    }

    /** Claims the row as it was read, initiates the transfer, and writes the copy back, advanced or failed. */
    method RunOne(p: Pid, sch: Schedule, a: Answers, o: Interleaving<Step>) returns (r: Outcome)
      requires Good() && p in s.procs && s.procs[p] == Listed(sch) && Foreign(o, p)
      modifies this`s, repo
      ensures Good() && p !in s.procs
      ensures r != NotDue && Left(old(s), s, sch, r)
      ensures Quiet(o) ==>
                var claimed := old(s).row.status == Active && old(s).row.nextRunAt == sch.nextRunAt && !a.claimErrs;
                && r == (if !claimed then NotClaimed else if a.initiateErrs then Refusal(!a.updateErrs) else Initiated(!a.updateErrs))
                && s.row == RowAfter(old(s).row, sch, a)
                && (if !claimed then s.row == old(s).row
                    else if a.updateErrs then s.row == old(s).row.(status := Processing)
                    else if a.initiateErrs then s.row == sch.(status := Failed)
                    else MovedOn(sch, s.row))
                && s.fired == old(s).fired + (if Claim(old(s).row, sch.nextRunAt).Some? && !a.claimErrs && !a.initiateErrs
                                              then [sch.nextRunAt] else [])
    {
      hide ReachableFrom;
      Others(p, o(0));
      if a.claimErrs {
        Did(Crash(p));
        return NotClaimed;
      }
      var claimed := repo.TryClaim(id, sch.nextRunAt);
      Did(TryClaim(p));
      if !claimed { return NotClaimed; }
      r := Fire(p, sch, a, o);
    }

    /** What the winner of the claim does. */
    method Fire(p: Pid, sch: Schedule, a: Answers, o: Interleaving<Step>) returns (r: Outcome)
      requires Good() && p in s.procs && s.procs[p] == Claimed(sch) && Foreign(o, p)
      modifies this`s, repo
      ensures Good() && p !in s.procs
      ensures r == if a.initiateErrs then Refusal(!a.updateErrs) else Initiated(!a.updateErrs)
      ensures Left(old(s), s, sch, r)
      ensures Quiet(o) ==>
                && s.row == (if a.updateErrs then old(s).row else if a.initiateErrs then sch.(status := Failed) else Advanced(sch))
                && s.fired == old(s).fired + (if a.initiateErrs then [] else [sch.nextRunAt])
    {
      hide ReachableFrom;
      Others(p, o(1));
      Did(Initiate(p, !a.initiateErrs));
      ghost var fired := s.fired;
      WriteBack(p, sch, a, o(2));
      r := if a.initiateErrs then Refusal(!a.updateErrs) else Initiated(!a.updateErrs);
      assert !a.initiateErrs ==> fired[|fired| - 1] == sch.nextRunAt && s.fired[|fired| - 1] == sch.nextRunAt;
    }

    method WriteBack(p: Pid, sch: Schedule, a: Answers, others: seq<Step>)
      requires Good() && p in s.procs && s.procs[p] == if a.initiateErrs then Refused(sch) else Fired(sch)
      requires forall i | 0 <= i < |others| :: Actor(others[i]) != Some(p)
      modifies this`s, repo
      ensures Good() && p !in s.procs
      ensures old(s).fired <= s.fired
      ensures !a.updateErrs ==> s.row == if a.initiateErrs then sch.(status := Failed) else Advanced(sch)
      ensures others == [] ==> s.fired == old(s).fired && (a.updateErrs ==> s.row == old(s).row)
    {
      hide ReachableFrom;
      Others(p, others);
      if a.updateErrs {
        Did(Crash(p));
        return;
      }
      var next := sch;
      if a.initiateErrs {
        next := next.(status := Failed);
      } else {
        next := next.(nextRunAt := AddInterval(next.nextRunAt, next.frequency), status := Active);
        if next.endAt.Some? && After(next.nextRunAt, next.endAt.value) {
          next := next.(status := Completed);
        }
      }
      repo.Save(id, next);
      Did(ScheduleRuns.WriteBack(p));
    }
  }
}
