/** Recurring payouts: stored rows, the guarded statements on them, and rolling a row forward. */
module Schedules {
  import opened Common
  import opened Calendar

  datatype Status = Active | Processing | Failed | Paused | Cancelled | Completed

  datatype Schedule = Schedule(frequency: Frequency, nextRunAt: Time, endAt: Option<Time>, status: Status)

  // ---- occurrences ----

  /** The k-th occurrence from a start. */
  function Occurrence(start: Time, f: Frequency, k: nat): Time {
    if k == 0 then start else AddInterval(Occurrence(start, f, k - 1), f)
  }

  lemma OccurrenceAdvances(start: Time, f: Frequency, k: nat)
    requires k > 0
    ensures Occurrence(start, f, k - 1).day <= Occurrence(start, f, k).day
    ensures f.Unknown? ==> Occurrence(start, f, k - 1) == Occurrence(start, f, k)
    ensures !f.Unknown? ==> Occurrence(start, f, k - 1).day < Occurrence(start, f, k).day
  {
    IntervalLength(Occurrence(start, f, k - 1), f);
  }

  /** The k-th occurrence is at least k - j days after the j-th. */
  ghost predicate Apart(start: Time, f: Frequency, j: nat, k: nat) {
    Occurrence(start, f, j).day + (k - j) <= Occurrence(start, f, k).day
  }

  lemma ApartStep(start: Time, f: Frequency, j: nat, k: nat)
    requires !f.Unknown? && Apart(start, f, j, k)
    ensures Apart(start, f, j, k + 1)
  {
    OccurrenceAdvances(start, f, k + 1);
  }

  lemma OccurrencesIncrease(start: Time, f: Frequency, j: nat, k: nat)
    requires j <= k && !f.Unknown?
    ensures Apart(start, f, j, k)
  {
    for i := j to k
      invariant Apart(start, f, j, i)
    {
      ApartStep(start, f, j, i);
    }
  }

  lemma {:induction false} UnknownNeverAdvances(start: Time, k: nat)
    ensures Occurrence(start, Unknown, k) == start
  {
    if k > 0 { UnknownNeverAdvances(start, k - 1); }
  }

  /** Rolling forward reaches the future iff the frequency is a known one or nothing is overdue. */
  lemma RollForwardTerminatesIff(start: Time, f: Frequency, now: Time)
    ensures (exists k: nat :: After(Occurrence(start, f, k), now)) <==> (!f.Unknown? || After(start, now))
  {
    if f.Unknown? {
      assert After(start, now) ==> After(Occurrence(start, f, 0), now);
      forall k: nat ensures Occurrence(start, f, k) == start { UnknownNeverAdvances(start, k); }
    } else {
      var k: nat := if start.day > now.day then 0 else now.day - start.day + 1;
      OccurrencesIncrease(start, f, 0, k);
      assert Occurrence(start, f, 0) == start && Apart(start, f, 0, k);
      assert After(Occurrence(start, f, k), now);
    }
  }

  datatype Edit = Edit(status: Option<Status>, frequency: Option<Frequency>, endAt: Option<Time>)

  /** The row a valid edit leaves: only resuming moves the next run, to the first one in the future. */
  ghost predicate Edited(sch: Schedule, edit: Edit, now: Time, r: Schedule) {
    && r.frequency == (if edit.frequency.Some? then edit.frequency.value else sch.frequency)
    && r.endAt == (if edit.endAt.Some? then edit.endAt else sch.endAt)
    && r.status == (if edit.status.Some? then edit.status.value else sch.status)
    && if edit.status == Some(Active) then FirstAfter(sch.nextRunAt, r.frequency, now, r.nextRunAt)
       else r.nextRunAt == sch.nextRunAt
  }

  /** `t` is the least occurrence from `start` strictly after `now`. */
  ghost predicate FirstAfter(start: Time, f: Frequency, now: Time, t: Time) {
    After(t, now) && exists k: nat :: Reached(start, f, now, k, t)
  }

  /** `t` is the k-th occurrence from `start`, and no earlier one lies after `now`. */
  ghost predicate Reached(start: Time, f: Frequency, now: Time, k: nat, t: Time) {
    && t == Occurrence(start, f, k)
    && forall j: nat | j < k :: !After(Occurrence(start, f, j), now)
  }

  lemma ReachNext(start: Time, f: Frequency, now: Time, k: nat, t: Time)
    requires Reached(start, f, now, k, t) && !After(t, now)
    ensures Reached(start, f, now, k + 1, AddInterval(t, f))
    ensures f.Unknown? || AddInterval(t, f).day > t.day
  {
    IntervalLength(t, f);
  }

  /** The resume loop: step until the next run is in the future. */
  method RollForward(start: Time, f: Frequency, now: Time) returns (t: Time)
    requires !f.Unknown? || After(start, now)
    ensures FirstAfter(start, f, now, t)
  {
    t := start;
    ghost var k: nat := 0;
    while !After(t, now)
      invariant Reached(start, f, now, k, t)
      invariant !f.Unknown? || After(t, now)
      decreases now.day - t.day
    {
      ReachNext(start, f, now, k, t);
      t := AddInterval(t, f);
      k := k + 1;
    }
  }

  /** Service.Update on a loaded row; the frequency is one the API accepts unless nothing is overdue. */
  method Update(sch0: Schedule, edit: Edit, now: Time) returns (sch: Schedule)
    requires edit.status == Some(Active) ==>
               || !(if edit.frequency.Some? then edit.frequency.value else sch0.frequency).Unknown?
               || After(sch0.nextRunAt, now)
    ensures Edited(sch0, edit, now, sch)
  {
    sch := sch0;
    if edit.frequency.Some? { sch := sch.(frequency := edit.frequency.value); }
    if edit.endAt.Some? { sch := sch.(endAt := edit.endAt); }
    if edit.status.Some? {
      sch := sch.(status := edit.status.value);
      if edit.status.value == Active {
        var next := RollForward(sch.nextRunAt, sch.frequency, now);
        sch := sch.(nextRunAt := next);
      }
    }
  }

  // ---- guarded statements ----

  predicate Due(row: Schedule, now: Time) {
    row.status == Active && !After(row.nextRunAt, now)
  }

  /** Compare-and-swap on (status, next_run_at); None when no row is affected. */
  function Claim(row: Schedule, expected: Time): Option<Schedule> {
    if row.status == Active && row.nextRunAt == expected then Some(row.(status := Processing)) else None
  }

  /** What the worker writes back after a successful initiation. */
  function Advanced(sch: Schedule): Schedule {
    var next := AddInterval(sch.nextRunAt, sch.frequency);
    sch.(nextRunAt := next, status := if sch.endAt.Some? && After(next, sch.endAt.value) then Completed else Active)
  }

  class ScheduleRepo {
    var rows: map<string, Schedule>

    constructor ()
      ensures rows == map[]
    {
      rows := map[];
    }

    /** Exactly the active schedules whose next run is not in the future; their claim at that run would win. */
    method ListDue(now: Time) returns (due: map<string, Schedule>)
      ensures forall id :: id in due <==>
                && id in rows && rows[id].status == Active && !After(rows[id].nextRunAt, now)
      ensures forall id | id in due :: due[id] == rows[id] && Claim(rows[id], rows[id].nextRunAt).Some?
    {
      due := map[];
      var left := rows.Keys;
      while left != {}
        invariant left <= rows.Keys
        invariant forall id :: id in due <==> id in rows && id !in left && Due(rows[id], now)
        invariant forall id | id in due :: due[id] == rows[id]
      {
        var id :| id in left;
        if rows[id].status == Active && !After(rows[id].nextRunAt, now) { due := due[id := rows[id]]; }
        left := left - {id};
      }
    }

    method TryClaim(id: string, expected: Time) returns (claimed: bool)
      modifies this
      ensures claimed <==> id in old(rows) && old(rows)[id].status == Active && old(rows)[id].nextRunAt == expected
      ensures rows == if claimed then old(rows)[id := old(rows)[id].(status := Processing)] else old(rows)
    {
      claimed := id in rows && rows[id].status == Active && rows[id].nextRunAt == expected;
      if claimed { rows := rows[id := rows[id].(status := Processing)]; }
    }

    method Save(id: string, sch: Schedule)
      modifies this
      ensures rows == if id in old(rows) then old(rows)[id := sch] else old(rows)
    {
      if id in rows { rows := rows[id := sch]; }
    }
  }
}
