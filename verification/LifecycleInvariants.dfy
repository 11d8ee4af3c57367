/** What holds in every reachable state, whatever the environment does. */
module LifecycleInvariants {
  import opened Common
  import opened Transactions
  import opened Lifecycle

  /** Past any hold: the row is not held, and if it was, its review was approved. */
  predicate Live(s: State) {
    && s.row.Some? && s.row.value.status != ComplianceHold
    && (s.held ==> s.review == Some(Approved))
  }

  predicate Opening(pc: Pc) {
    pc.Created? || pc.Releasing? || pc == Decided(true)
  }

  /** What each process knows at each point of its program. */
  ghost predicate ProcOk(s: State, p: Pid, pc: Pc) {
    && s.row.Some?
    && (Opening(pc) ==> s.opener == Some(p) && s.firstTasks == 0)
    && match pc
       case Created => !s.held
       case HoldCreated => s.held
       case Loaded | Won | Built(_) | Ambiguous(_) => Live(s)
       case Sending(h, n) => Live(s) && (n > 0 ==> h in s.payable)
       case Denied(h, doubt) => Live(s) && (doubt ==> h in s.payable)
       case Accepted(h) => Live(s) && h in s.applied
       case Checking(_) | FoundFailed(_) | Auditing | Listed(_) | Requeuing => Live(s)
       case FoundApplied(h) => Live(s) && h in s.applied
       case Counted(n) => Live(s) && 1 <= n <= s.row.value.requeues && n !in s.requeued
       case Deciding(_) => s.held
       case Decided(a) =>
         && s.held && s.review == Some(if a then Approved else Rejected)
         && s.row.value.status == ComplianceHold && s.opener == Some(p)
       case Releasing => s.held && s.review == Some(Approved) && Live(s)
  }

  ghost predicate CountsDistinct(s: State) {
    forall p, q | p in s.procs && q in s.procs && p != q && s.procs[p].Counted? :: s.procs[p] != s.procs[q]
  }

  /** Nothing has touched the row before it exists. */
  predicate Untouched(s: State) {
    && s.procs == map[] && s.review == None && !s.held && s.sent == {} && s.payable == {} && s.applied == {}
    && s.dead == {} && s.rejected == {}
    && s.claims == 0 && s.resets == 0 && s.firstTasks == 0 && s.requeued == [] && s.decisions == 0
  }

  /** A confirmed row carries a hash the network applied. */
  predicate ConfirmedOk(s: State) {
    s.row.Some? && s.row.value.status == Confirmed ==> s.row.value.hash.Some? && s.row.value.hash.value in s.applied
  }

  /** Every claim used up the first pending state or one given back by a reset. */
  predicate ClaimsOk(s: State) {
    s.row.Some? ==>
      s.claims + (if s.row.value.status in {Pending, ComplianceHold} then 1 else 0) <= 1 + s.resets
  }

  /** Every task of stuck recovery has a count of its own, at most three. */
  predicate RequeuesOk(s: State) {
    && (forall n | n in s.requeued :: 1 <= n <= MAX_REQUEUES && s.row.Some? && n <= s.row.value.requeues)
    && (forall i, j | 0 <= i < j < |s.requeued| :: s.requeued[i] != s.requeued[j])
    && s.firstTasks <= 1
  }

  /** Until a held transfer is approved nothing is enqueued or claimed, and only a rejection moves it. */
  predicate HeldOk(s: State) {
    && (s.review.Some? ==> s.held)
    && (s.row.Some? && s.row.value.status == ComplianceHold ==> s.held && s.claims == 0 && Tasks(s) == 0)
    && (s.row.Some? && s.held && s.review != Some(Approved) ==>
          && s.claims == 0 && Tasks(s) == 0 && s.sent == {}
          && (s.row.value.status == ComplianceHold || (s.row.value.status == Failed && s.review == Some(Rejected))))
  }

  predicate DecisionsOk(s: State) {
    s.decisions == if s.review in {Some(Approved), Some(Rejected)} then 1 else 0
  }

  ghost predicate Inv(s: State) {
    && (s.row.None? ==> Untouched(s))
    && (forall p | p in s.procs :: ProcOk(s, p, s.procs[p]))
    && CountsDistinct(s)
    && ConfirmedOk(s) && ClaimsOk(s) && RequeuesOk(s) && HeldOk(s) && DecisionsOk(s)
    && s.applied <= s.payable <= s.sent && s.applied !! s.dead
  }

  // ---- every step keeps it ----

  /** A process may stop, or move on to a point whose knowledge it has. */
  lemma Leave(s: State, p: Pid)
    requires Inv(s)
    ensures Inv(Gone(s, p))
  {
  }

  lemma MoveOn(s: State, p: Pid, pc: Pc)
    requires Inv(s) && s.row.Some? && ProcOk(s, p, pc) && !pc.Counted?
    ensures Inv(At(s, p, pc))
  {
    hide ProcOk;
    var s' := At(s, p, pc);
    SameKnowledge(s, s', p, pc);
    forall q | q in s'.procs ensures ProcOk(s', q, s'.procs[q]) {
      if q != p { SameKnowledge(s, s', q, s'.procs[q]); }
    }
  }

  /** What a process knows does not depend on where the others stand. */
  lemma SameKnowledge(s: State, s': State, q: Pid, pc: Pc)
    requires s' == s.(procs := s'.procs) && ProcOk(s, q, pc)
    ensures ProcOk(s', q, pc)
  {
  }

  /** A write to a row past any hold, that claims nothing and confirms only what was applied. */
  lemma Write(s: State, row: Row)
    requires Inv(s) && Live(s) && row.requeues == s.row.value.requeues
    requires row.status != ComplianceHold && (row.status == Pending ==> s.row.value.status == Pending)
    requires row.status == Confirmed ==> row.hash.Some? && row.hash.value in s.applied
    ensures Inv(WithRow(s, row))
  {
  }

  lemma KeepCreate(s: State, p: Pid, hold: bool)
    requires Inv(s) && DoCreate(s, p, hold).Some?
    ensures Inv(DoCreate(s, p, hold).value)
  {
  }

  lemma KeepRecordHold(s: State, p: Pid)
    requires Inv(s) && DoRecordHold(s, p).Some?
    ensures Inv(DoRecordHold(s, p).value)
  {
  }

  lemma KeepEnqueueFirst(s: State, p: Pid, ok: bool)
    requires Inv(s) && DoEnqueueFirst(s, p, ok).Some?
    ensures Inv(DoEnqueueFirst(s, p, ok).value)
  {
  }

  lemma KeepLoad(s: State, p: Pid)
    requires Inv(s) && DoLoad(s, p).Some?
    ensures Inv(DoLoad(s, p).value)
  {
    MoveOn(s, p, Loaded);
  }

  lemma Win(s: State, p: Pid)
    requires Inv(s) && Live(s) && s.row.value.status == Pending
    ensures Inv(WithRow(s, s.row.value.(status := Submitted)).(claims := s.claims + 1, owner := Some(p)))
  {
  }

  lemma KeepClaim(s: State, p: Pid)
    requires Inv(s) && DoClaim(s, p).Some?
    ensures Inv(DoClaim(s, p).value)
  {
    var r := Claimed(s.row.value);
    if r.Some? {
      Win(s, p);
      MoveOn(WithRow(s, r.value).(claims := s.claims + 1, owner := Some(p)), p, Won);
    } else {
      Leave(s, p);
    }
  }

  lemma KeepRejectPayout(s: State, p: Pid)
    requires Inv(s) && DoRejectPayout(s, p).Some?
    ensures Inv(DoRejectPayout(s, p).value)
  {
    var row := WithStatus(s.row.value, Failed, None);
    Write(s, row);
    Leave(WithRow(s, row), p);
  }

  lemma KeepBuild(s: State, p: Pid, h: Hash)
    requires Inv(s) && DoBuild(s, p, h).Some?
    ensures Inv(DoBuild(s, p, h).value)
  {
    MoveOn(s, p, Built(h));
  }

  lemma KeepRecordHash(s: State, p: Pid)
    requires Inv(s) && DoRecordHash(s, p).Some?
    ensures Inv(DoRecordHash(s, p).value)
  {
    var row := WithStatus(s.row.value, Submitted, Some(s.procs[p].h));
    Write(s, row);
    MoveOn(WithRow(s, row), p, Sending(s.procs[p].h, 0));
  }

  lemma KeepSkipRecord(env: Env, s: State, p: Pid)
    requires Inv(s) && DoSkipRecord(env, s, p).Some?
    ensures Inv(DoSkipRecord(env, s, p).value)
  {
    MoveOn(s, p, Sending(s.procs[p].h, 0));
  }

  lemma Hand(s: State, h: Hash, doubt: bool, rejected: set<Hash>)
    requires Inv(s) && Live(s)
    ensures Inv(s.(sent := s.sent + {h}, payable := if doubt then s.payable + {h} else s.payable, rejected := rejected))
  {
  }

  /** The ledger says that an envelope failed. */
  lemma Rule(s: State, h: Hash)
    requires Inv(s) && s.row.Some? && h !in s.applied
    ensures Inv(s.(dead := s.dead + {h}))
  {
  }

  lemma KeepSend(env: Env, s: State, p: Pid, r: Response)
    requires Inv(s) && DoSend(env, s, p, r).Some?
    ensures Inv(DoSend(env, s, p, r).value)
  {
    hide Inv;
    Working(s, p);
    var h, n := s.procs[p].h, s.procs[p].tries;
    var rejected := if r.Definite? && n == 0 then s.rejected + {h} else s.rejected;
    var s1 := s.(sent := s.sent + {h}, payable := if r.Definite? then s.payable else s.payable + {h}, rejected := rejected);
    Hand(s, h, !r.Definite?, rejected);
    match r
    case Success =>
      KeepNetworkApplies(s1, h);
      MoveOn(s1.(applied := s.applied + {h}), p, Accepted(h));
    case Retryable => MoveOn(s1, p, if n + 1 == MAX_TRIES then Ambiguous(h) else Sending(h, n + 1));
    case Definite => MoveOn(s1, p, Denied(h, n > 0));
    case Misread => MoveOn(s1, p, Denied(h, true));
  }

  lemma KeepGiveUp(s: State, p: Pid)
    requires Inv(s) && DoGiveUp(s, p).Some?
    ensures Inv(DoGiveUp(s, p).value)
  {
    MoveOn(s, p, Ambiguous(s.procs[p].h));
  }

  lemma KeepLookUp(s: State, p: Pid, v: Verdict)
    requires Inv(s) && DoLookUp(s, p, v).Some?
    ensures Inv(DoLookUp(s, p, v).value)
  {
    var h := s.procs[p].h;
    match v
    case Applied => MoveOn(s, p, Accepted(h));
    case OnLedgerFailed =>
      Rule(s, h);
      MoveOn(s.(dead := s.dead + {h}), p, Denied(h, false));
    case Unknown => Leave(s, p);
  }

  lemma KeepMarkConfirmed(s: State, p: Pid)
    requires Inv(s) && DoMarkConfirmed(s, p).Some?
    ensures Inv(DoMarkConfirmed(s, p).value)
  {
    var row := WithStatus(s.row.value, Confirmed, Some(s.procs[p].h));
    Write(s, row);
    Leave(WithRow(s, row), p);
  }

  lemma KeepMarkFailed(s: State, p: Pid)
    requires Inv(s) && DoMarkFailed(s, p).Some?
    ensures Inv(DoMarkFailed(s, p).value)
  {
    var row := WithStatus(s.row.value, Failed, Some(s.procs[p].h));
    Write(s, row);
    Leave(WithRow(s, row), p);
  }

  lemma KeepListAwaiting(s: State, p: Pid)
    requires Inv(s) && DoListAwaiting(s, p).Some?
    ensures Inv(DoListAwaiting(s, p).value)
  {
    MoveOn(s, p, Checking(s.row.value.hash.value));
  }

  lemma KeepLookUpListed(s: State, p: Pid, v: Verdict)
    requires Inv(s) && DoLookUpListed(s, p, v).Some?
    ensures Inv(DoLookUpListed(s, p, v).value)
  {
    match v
    case Applied => MoveOn(s, p, FoundApplied(s.procs[p].h));
    case OnLedgerFailed =>
      Rule(s, s.procs[p].h);
      MoveOn(s.(dead := s.dead + {s.procs[p].h}), p, FoundFailed(s.procs[p].h));
    case Unknown => Leave(s, p);
  }

  lemma KeepCorrectConfirmed(s: State, p: Pid)
    requires Inv(s) && DoCorrectConfirmed(s, p).Some?
    ensures Inv(DoCorrectConfirmed(s, p).value)
  {
    var r := AsConfirmed(s.row.value, s.procs[p].h);
    if r.Some? { Write(s, r.value); }
    Leave(if r.Some? then WithRow(s, r.value) else s, p);
  }

  lemma KeepCorrectFailed(s: State, p: Pid)
    requires Inv(s) && DoCorrectFailed(s, p).Some?
    ensures Inv(DoCorrectFailed(s, p).value)
  {
    var r := AsFailed(s.row.value);
    if r.Some? { Write(s, r.value); }
    Leave(if r.Some? then WithRow(s, r.value) else s, p);
  }

  lemma KeepListConfirmed(s: State, p: Pid)
    requires Inv(s) && DoListConfirmed(s, p).Some?
    ensures Inv(DoListConfirmed(s, p).value)
  {
    MoveOn(s, p, Auditing);
  }

  lemma KeepFlagMismatch(s: State, p: Pid)
    requires Inv(s) && DoFlagMismatch(s, p).Some?
    ensures Inv(DoFlagMismatch(s, p).value)
  {
    var row := Overwritten(s.row.value, ReconciliationFailed);
    Write(s, row);
    Leave(WithRow(s, row), p);
  }

  lemma KeepListStuck(s: State, p: Pid)
    requires Inv(s) && DoListStuck(s, p).Some?
    ensures Inv(DoListStuck(s, p).value)
  {
    MoveOn(s, p, Listed(s.row.value.status == Submitted));
  }

  lemma GiveBack(s: State)
    requires Inv(s) && Live(s) && s.row.value.status == Submitted
    ensures Inv(WithRow(s, s.row.value.(status := Pending)).(resets := s.resets + 1))
  {
  }

  lemma KeepReset(env: Env, s: State, p: Pid, aged: bool)
    requires Inv(s) && DoReset(env, s, p, aged).Some?
    ensures Inv(DoReset(env, s, p, aged).value)
  {
    if !s.procs[p].wasSubmitted {
      MoveOn(s, p, Requeuing);
    } else if ResetToPending(s.row.value, aged).Some? {
      GiveBack(s);
      MoveOn(WithRow(s, s.row.value.(status := Pending)).(resets := s.resets + 1), p, Requeuing);
    } else {
      Leave(s, p);
    }
  }

  lemma Working(s: State, p: Pid)
    requires Inv(s) && p in s.procs && (s.procs[p].Requeuing? || s.procs[p].Sending?)
    ensures Live(s) && (s.procs[p].Sending? && s.procs[p].tries > 0 ==> s.procs[p].h in s.payable)
  {
  }

  predicate Fresh(s: State, n: nat) {
    && n !in s.requeued
    && forall q | q in s.procs :: s.procs[q] != Counted(n)
  }

  /** The increment gives a count nobody had. */
  lemma CountUp(s: State)
    requires Inv(s) && Live(s)
    ensures var n := s.row.value.requeues + 1;
            Inv(WithRow(s, s.row.value.(requeues := n))) && Fresh(s, n)
  {
  }

  lemma TakeCount(s: State, p: Pid, n: nat)
    requires Inv(s) && Live(s) && n == s.row.value.requeues && n >= 1 && Fresh(s, n)
    ensures Inv(At(s, p, Counted(n)))
  {
  }

  lemma KeepIncrement(s: State, p: Pid)
    requires Inv(s) && DoIncrement(s, p).Some?
    ensures Inv(DoIncrement(s, p).value)
  {
    hide Inv;
    Working(s, p);
    CountUp(s);
    var n := s.row.value.requeues + 1;
    TakeCount(WithRow(s, s.row.value.(requeues := n)), p, n);
  }

  lemma KeepMarkExhausted(env: Env, s: State, p: Pid)
    requires Inv(s) && DoMarkExhausted(env, s, p).Some?
    ensures Inv(DoMarkExhausted(env, s, p).value)
  {
    var row := Overwritten(s.row.value, Failed);
    Write(s, row);
    Leave(WithRow(s, row), p);
  }

  lemma KeepRequeue(s: State, p: Pid, ok: bool)
    requires Inv(s) && DoRequeue(s, p, ok).Some?
    ensures Inv(DoRequeue(s, p, ok).value)
  {
  }

  lemma KeepOpenReview(s: State, p: Pid, approve: bool)
    requires Inv(s) && DoOpenReview(s, p, approve).Some?
    ensures Inv(DoOpenReview(s, p, approve).value)
  {
    MoveOn(s, p, Deciding(approve));
  }

  function Judged(s: State, p: Pid, approve: bool): State {
    s.(review := Some(if approve then Approved else Rejected), opener := Some(p), decisions := s.decisions + 1)
  }

  lemma Judge(s: State, p: Pid, approve: bool)
    requires Inv(s) && s.review == Some(ReviewPending)
    ensures Inv(Judged(s, p, approve))
    ensures s.held && s.row.Some? && s.row.value.status == ComplianceHold && s.firstTasks == 0
  {
  }

  lemma KeepDecide(s: State, p: Pid)
    requires Inv(s) && DoDecide(s, p).Some?
    ensures Inv(DoDecide(s, p).value)
  {
    if s.review == Some(ReviewPending) {
      var approve := s.procs[p].approve;
      Judge(s, p, approve);
      MoveOn(Judged(s, p, approve), p, Decided(approve));
    } else {
      Leave(s, p);
    }
  }

  lemma KeepRelease(s: State, p: Pid)
    requires Inv(s) && DoRelease(s, p).Some?
    ensures Inv(DoRelease(s, p).value)
  {
  }

  lemma KeepRejectTransfer(s: State, p: Pid)
    requires Inv(s) && DoRejectTransfer(s, p).Some?
    ensures Inv(DoRejectTransfer(s, p).value)
  {
  }

  lemma KeepStop(s: State, p: Pid)
    requires Inv(s) && DoStop(s, p).Some?
    ensures Inv(DoStop(s, p).value)
  {
    Leave(s, p);
  }

  lemma KeepNetworkApplies(s: State, h: Hash)
    requires Inv(s) && DoNetworkApplies(s, h).Some?
    ensures Inv(DoNetworkApplies(s, h).value)
  {
  }

  lemma StepKeepsInv(env: Env, s: State, step: Step)
    requires Inv(s) && Do(env, s, step).Some?
    ensures Inv(Do(env, s, step).value)
  {
    hide Inv;
    var p := step.p;
    match step.act
    case Create(hold) => KeepCreate(s, p, hold);
    case RecordHold => KeepRecordHold(s, p);
    case EnqueueFirst(ok) => KeepEnqueueFirst(s, p, ok);
    case Load => KeepLoad(s, p);
    case Claim => KeepClaim(s, p);
    case RejectPayout => KeepRejectPayout(s, p);
    case Build(h) => KeepBuild(s, p, h);
    case RecordHash => KeepRecordHash(s, p);
    case SkipRecord => KeepSkipRecord(env, s, p);
    case Send(r) => KeepSend(env, s, p, r);
    case GiveUp => KeepGiveUp(s, p);
    case LookUp(v) => KeepLookUp(s, p, v);
    case MarkConfirmed => KeepMarkConfirmed(s, p);
    case MarkFailed => KeepMarkFailed(s, p);
    case ListAwaiting => KeepListAwaiting(s, p);
    case LookUpListed(v) => KeepLookUpListed(s, p, v);
    case CorrectConfirmed => KeepCorrectConfirmed(s, p);
    case CorrectFailed => KeepCorrectFailed(s, p);
    case ListConfirmed => KeepListConfirmed(s, p);
    case FlagMismatch => KeepFlagMismatch(s, p);
    case ListStuck => KeepListStuck(s, p);
    case Reset(aged) => KeepReset(env, s, p, aged);
    case Increment => KeepIncrement(s, p);
    case MarkExhausted => KeepMarkExhausted(env, s, p);
    case Requeue(ok) => KeepRequeue(s, p, ok);
    case OpenReview(approve) => KeepOpenReview(s, p, approve);
    case Decide => KeepDecide(s, p);
    case Release => KeepRelease(s, p);
    case RejectTransfer => KeepRejectTransfer(s, p);
    case Stop => KeepStop(s, p);
    case NetworkApplies(h) => KeepNetworkApplies(s, h);
  }

  lemma {:induction false} RunKeepsInv(env: Env, steps: seq<Step>)
    requires Run(env, Initial(), steps).Some?
    ensures Inv(Run(env, Initial(), steps).value)
    decreases |steps|
  {
    if steps != [] {
      RunKeepsInv(env, steps[..|steps| - 1]);
      StepKeepsInv(env, Run(env, Initial(), steps[..|steps| - 1]).value, steps[|steps| - 1]);
    }
  }

  lemma ReachableKeepsInv(env: Env, s: State)
    requires Reachable(env, s)
    ensures Inv(s)
  {
    var steps :| Run(env, Initial(), steps) == Some(s);
    RunKeepsInv(env, steps);
  }

  // ---- what that means ----

  /** A confirmed row carries a hash that the network applied. */
  lemma ConfirmedMeansApplied(env: Env, s: State)
    requires Reachable(env, s) && s.row.Some? && s.row.value.status == Confirmed
    ensures s.row.value.hash.Some? && s.row.value.hash.value in s.applied
  {
    ReachableKeepsInv(env, s);
  }

  /** Claims never exceed one plus the resets that gave the row back. */
  lemma ClaimsBounded(env: Env, s: State)
    requires Reachable(env, s)
    ensures s.claims <= 1 + s.resets
  {
    ReachableKeepsInv(env, s);
  }

  /** Distinct numbers from 1 to 3: three of them at most. */
  lemma UpToThree(ns: seq<nat>)
    requires forall n | n in ns :: 1 <= n <= 3
    requires forall i, j | 0 <= i < j < |ns| :: ns[i] != ns[j]
    ensures |ns| <= 3
  {
    var all: set<nat> := {1, 2, 3};
    var seen := set n | n in ns;
    DistinctSize(ns, seen);
    assert seen <= all;
    SubsetSize(seen, all);
  }

  lemma {:induction false} DistinctSize(ns: seq<nat>, seen: set<nat>)
    requires forall i, j | 0 <= i < j < |ns| :: ns[i] != ns[j]
    requires seen == set n | n in ns
    ensures |seen| == |ns|
    decreases |ns|
  {
    if ns != [] {
      var init, last := ns[..|ns| - 1], ns[|ns| - 1];
      assert ns == init + [last];
      DistinctSize(init, seen - {last});
    }
  }

  lemma {:induction false} SubsetSize(a: set<nat>, b: set<nat>)
    requires a <= b
    ensures |a| <= |b|
    decreases a
  {
    if a != {} {
      var x :| x in a;
      SubsetSize(a - {x}, b - {x});
    }
  }

  /** Stuck recovery creates at most three tasks for a transfer, no two with the same count; initiate and the
      releases together at most one; so at most four tasks ever exist. */
  lemma TasksBounded(env: Env, s: State)
    requires Reachable(env, s)
    ensures |s.requeued| <= 3 && s.firstTasks <= 1 && Tasks(s) <= 4
    ensures forall i, j | 0 <= i < j < |s.requeued| :: s.requeued[i] != s.requeued[j]
  {
    ReachableKeepsInv(env, s);
    UpToThree(s.requeued);
  }

  /** A transfer inserted as held is never enqueued or claimed unless its review is approved, and its
      review leaves pending at most once. */
  lemma HeldUntilApproved(env: Env, s: State)
    requires Reachable(env, s) && s.held
    ensures s.review != Some(Approved) ==>
              s.claims == 0 && Tasks(s) == 0 && s.sent == {}
              && s.row.Some? && s.row.value.status in {ComplianceHold, Failed}
    ensures s.decisions <= 1
    ensures s.decisions == 1 <==> s.review in {Some(Approved), Some(Rejected)}
  {
    ReachableKeepsInv(env, s);
  }

  lemma NoRowNoReview(env: Env, s: State)
    requires Reachable(env, s) && s.row.None?
    ensures s.review.None?
  {
    ReachableKeepsInv(env, s);
  }

  /** Whoever won the decision still finds the row held and the review as decided. */
  lemma DecidedKnows(env: Env, s: State, p: Pid)
    requires Reachable(env, s) && p in s.procs && s.procs[p].Decided?
    ensures s.row.Some? && s.row.value.status == ComplianceHold
    ensures s.review == Some(if s.procs[p].approve then Approved else Rejected)
  {
    ReachableKeepsInv(env, s);
  }

  /** Whoever released the transfer still finds it approved and not enqueued. */
  lemma ReleasingKnows(env: Env, s: State, p: Pid)
    requires Reachable(env, s) && p in s.procs && s.procs[p].Releasing?
    ensures s.row.Some? && s.row.value.status != ComplianceHold && s.review == Some(Approved) && s.firstTasks == 0
  {
    ReachableKeepsInv(env, s);
  }
}
