/** At most one envelope per transfer, and exactly what the environment must promise for it. */
module LifecycleSafety {
  import opened Common
  import opened Transactions
  import opened Lifecycle
  import opened LifecycleInvariants

  /** The hash write before submission succeeds, and a stuck reset hits only a row whose claimant stopped. */
  predicate Promised(env: Env) {
    !env.hashWriteMayFail && !env.resetWhileClaimed
  }

  /** What a process knows about the envelope of the row. */
  predicate EnvelopeKnown(s: State, p: Pid, pc: Pc) {
    && s.row.Some?
    && (Claiming(pc) ==> s.owner == Some(p) && s.row.value.status !in {Pending, ComplianceHold})
    && match pc
       case Won => s.row.value.hash == None
       case Built(_) => s.row.value.hash == None
       case Sending(h, n) => s.row.value.hash == Some(h) && (n == 0 ==> s.sent == {})
       case Ambiguous(h) => s.row.value.hash == Some(h)
       case Accepted(h) => s.row.value.hash == Some(h)
       case Denied(h, doubt) => s.row.value.hash == Some(h) && (!doubt ==> h in s.dead || h in s.rejected)
       case Checking(h) => s.row.value.hash == Some(h)
       case FoundApplied(h) => s.row.value.hash == Some(h)
       case FoundFailed(h) => s.row.value.hash == Some(h) && h in s.dead
       case _ => true
  }

  /** Only the envelope whose hash is on record was ever handed to the network. */
  predicate OnRecord(s: State) {
    forall h | h in s.sent :: s.row.Some? && s.row.value.hash == Some(h)
  }

  /** May still sign an envelope or submit one. */
  predicate MaySubmit(pc: Pc) {
    pc.Won? || pc.Built? || pc.Sending?
  }

  /** A definite answer to the first submission of an envelope ends the matter: it cannot be paid, and nobody
      will sign or submit another. */
  predicate Over(s: State, h: Hash) {
    && s.row.Some? && s.row.value.hash == Some(h) && s.row.value.status !in {Pending, ComplianceHold}
    && h !in s.payable
    && forall p | p in s.procs :: !MaySubmit(s.procs[p])
  }

  ghost predicate Safe(s: State) {
    && Inv(s)
    && (s.row.Some? && s.row.value.status in {Pending, ComplianceHold} ==> s.row.value.hash == None)
    && (forall p | p in s.procs :: EnvelopeKnown(s, p, s.procs[p]))
    && OnRecord(s)
    && (forall h | h in s.rejected :: Over(s, h))
  }

  /** Everything but the row and where the processes stand, except that the ledger may have failed more. */
  predicate SameHistory(s: State, s': State) {
    s'.owner == s.owner && s'.sent == s.sent && s'.payable == s.payable && s'.rejected == s.rejected && s.dead <= s'.dead
  }

  /** Steps that neither write the row nor send. */
  lemma MoveOnSafely(s: State, p: Pid, pc: Pc, s': State)
    requires Safe(s) && Inv(s') && EnvelopeKnown(s', p, pc) && (MaySubmit(pc) ==> s.rejected == {})
    requires s'.row == s.row && SameHistory(s, s') && s'.procs == s.procs[p := pc]
    ensures Safe(s')
  {
  }

  lemma LeaveSafely(s: State, p: Pid, s': State)
    requires Safe(s) && Inv(s')
    requires s'.row == s.row && SameHistory(s, s') && s'.procs == s.procs - {p}
    ensures Safe(s')
  {
  }

  /** A write that keeps the hash and does not make the row pending. */
  lemma WriteSafely(s: State, p: Pid, row: Row, s': State)
    requires Safe(s) && Inv(s') && s.row.Some?
    requires row.hash == s.row.value.hash
    requires row.status in {Pending, ComplianceHold} ==> row.status == s.row.value.status
    requires s'.row == Some(row) && SameHistory(s, s') && s'.procs == s.procs - {p}
    ensures Safe(s')
  {
  }

  // ---- every step keeps it, under the promise ----

  lemma SafeCreate(s: State, p: Pid, hold: bool)
    requires Safe(s) && DoCreate(s, p, hold).Some?
    ensures Safe(DoCreate(s, p, hold).value)
  {
    KeepCreate(s, p, hold);
  }

  lemma SafeClaim(s: State, p: Pid)
    requires Safe(s) && DoClaim(s, p).Some?
    ensures Safe(DoClaim(s, p).value)
  {
    hide Inv;
    KeepClaim(s, p);
  }

  lemma SafeRecordHash(s: State, p: Pid)
    requires Safe(s) && DoRecordHash(s, p).Some?
    ensures Safe(DoRecordHash(s, p).value)
  {
    KeepRecordHash(s, p);
  }

  lemma SafeSend(env: Env, s: State, p: Pid, r: Response)
    requires Safe(s) && DoSend(env, s, p, r).Some?
    ensures Safe(DoSend(env, s, p, r).value)
  {
    hide Inv;
    KeepSend(env, s, p, r);
    NothingPayable(s);
    var h := s.procs[p].h;
    var s' := DoSend(env, s, p, r).value;
    assert MaySubmit(s.procs[p]);
    assert s.rejected == {};
    assert s'.procs == s.procs[p := s'.procs[p]];
    assert forall q | q in s.procs && q != p :: !Claiming(s.procs[q]);
  }

  lemma NothingPayable(s: State)
    requires Inv(s)
    ensures s.payable <= s.sent
  {
  }

  lemma SafeGiveBack(s: State, p: Pid, s': State)
    requires Safe(s) && Inv(s') && s.row.Some? && !ClaimantRunning(s)
    requires s.row.value.hash == None && s'.row == Some(s.row.value.(status := Pending))
    requires SameHistory(s, s') && s'.procs == s.procs[p := Requeuing]
    ensures Safe(s')
  {
    hide Inv;
  }

  lemma SafeReset(env: Env, s: State, p: Pid, aged: bool)
    requires Promised(env) && Safe(s) && DoReset(env, s, p, aged).Some?
    ensures Safe(DoReset(env, s, p, aged).value)
  {
    hide Inv;
    KeepReset(env, s, p, aged);
    var s' := DoReset(env, s, p, aged).value;
    if !s.procs[p].wasSubmitted {
      MoveOnSafely(s, p, Requeuing, s');
    } else if ResetToPending(s.row.value, aged).Some? {
      SafeGiveBack(s, p, s');
    } else {
      LeaveSafely(s, p, s');
    }
  }

  lemma SafeRelease(s: State, p: Pid)
    requires Safe(s) && DoRelease(s, p).Some?
    ensures Safe(DoRelease(s, p).value)
  {
    KeepRelease(s, p);
  }

  lemma SafeDecide(s: State, p: Pid)
    requires Safe(s) && DoDecide(s, p).Some?
    ensures Safe(DoDecide(s, p).value)
  {
    hide Inv;
    KeepDecide(s, p);
    var s' := DoDecide(s, p).value;
    if p in s'.procs { MoveOnSafely(s, p, s'.procs[p], s'); } else { LeaveSafely(s, p, s'); }
  }

  lemma SafeIncrement(s: State, p: Pid)
    requires Safe(s) && DoIncrement(s, p).Some?
    ensures Safe(DoIncrement(s, p).value)
  {
    hide Inv;
    KeepIncrement(s, p);
  }

  lemma SafeStart(env: Env, s: State, step: Step, s': State)
    requires Safe(s) && Inv(s') && Do(env, s, step) == Some(s')
    requires step.act.Load? || step.act.Build?
    ensures Safe(s')
  {
    hide Inv;
    var p := step.p;
    if p in s'.procs { MoveOnSafely(s, p, s'.procs[p], s'); } else { LeaveSafely(s, p, s'); }
  }

  lemma SafeGiveUp(s: State, p: Pid)
    requires Safe(s) && DoGiveUp(s, p).Some? && Inv(DoGiveUp(s, p).value)
    ensures Safe(DoGiveUp(s, p).value)
  {
    hide Inv;
    var s' := DoGiveUp(s, p).value;
    if p in s'.procs { MoveOnSafely(s, p, s'.procs[p], s'); } else { LeaveSafely(s, p, s'); }
  }

  lemma SafeLookUp(s: State, p: Pid, v: Verdict)
    requires Safe(s) && DoLookUp(s, p, v).Some? && Inv(DoLookUp(s, p, v).value)
    ensures Safe(DoLookUp(s, p, v).value)
  {
    hide Inv;
    var s' := DoLookUp(s, p, v).value;
    if p in s'.procs { MoveOnSafely(s, p, s'.procs[p], s'); } else { LeaveSafely(s, p, s'); }
  }

  lemma SafeListAwaiting(s: State, p: Pid)
    requires Safe(s) && DoListAwaiting(s, p).Some? && Inv(DoListAwaiting(s, p).value)
    ensures Safe(DoListAwaiting(s, p).value)
  {
    hide Inv;
    var s' := DoListAwaiting(s, p).value;
    if p in s'.procs { MoveOnSafely(s, p, s'.procs[p], s'); } else { LeaveSafely(s, p, s'); }
  }

  lemma SafeLookUpListed(s: State, p: Pid, v: Verdict)
    requires Safe(s) && DoLookUpListed(s, p, v).Some? && Inv(DoLookUpListed(s, p, v).value)
    ensures Safe(DoLookUpListed(s, p, v).value)
  {
    hide Inv;
    var s' := DoLookUpListed(s, p, v).value;
    if p in s'.procs { MoveOnSafely(s, p, s'.procs[p], s'); } else { LeaveSafely(s, p, s'); }
  }

  lemma SafeList(env: Env, s: State, step: Step, s': State)
    requires Safe(s) && Inv(s') && Do(env, s, step) == Some(s')
    requires step.act.ListConfirmed? || step.act.ListStuck? || step.act.OpenReview?
    ensures Safe(s')
  {
    var p := step.p;
    if p in s'.procs { MoveOnSafely(s, p, s'.procs[p], s'); } else { LeaveSafely(s, p, s'); }
  }

  lemma SafeLeave(env: Env, s: State, step: Step, s': State)
    requires Safe(s) && Inv(s') && Do(env, s, step) == Some(s')
    requires step.act.RecordHold? || step.act.EnqueueFirst? || step.act.Requeue? || step.act.Stop?
    ensures Safe(s')
  {
    hide Inv;
    LeaveSafely(s, step.p, s');
  }

  lemma SafeMark(env: Env, s: State, step: Step, s': State)
    requires Safe(s) && Inv(s') && Do(env, s, step) == Some(s')
    requires step.act.MarkConfirmed? || step.act.MarkFailed?
    ensures Safe(s')
  {
    hide Inv;
    WriteSafely(s, step.p, s'.row.value, s');
  }

  lemma SafeReject(env: Env, s: State, step: Step, s': State)
    requires Safe(s) && Inv(s') && Do(env, s, step) == Some(s')
    requires step.act.RejectPayout? || step.act.RejectTransfer?
    ensures Safe(s')
  {
    WriteSafely(s, step.p, s'.row.value, s');
  }

  lemma SafeCorrectConfirmed(s: State, p: Pid)
    requires Safe(s) && DoCorrectConfirmed(s, p).Some? && Inv(DoCorrectConfirmed(s, p).value)
    ensures Safe(DoCorrectConfirmed(s, p).value)
  {
    hide Inv;
    var s' := DoCorrectConfirmed(s, p).value;
    WriteSafely(s, p, s'.row.value, s');
  }

  lemma SafeCorrectFailed(s: State, p: Pid)
    requires Safe(s) && DoCorrectFailed(s, p).Some? && Inv(DoCorrectFailed(s, p).value)
    ensures Safe(DoCorrectFailed(s, p).value)
  {
    hide Inv;
    var s' := DoCorrectFailed(s, p).value;
    WriteSafely(s, p, s'.row.value, s');
  }

  lemma SafeOverwrite(env: Env, s: State, step: Step, s': State)
    requires Safe(s) && Inv(s') && Do(env, s, step) == Some(s')
    requires step.act.FlagMismatch? || step.act.MarkExhausted?
    ensures Safe(s')
  {
    hide Inv;
    WriteSafely(s, step.p, s'.row.value, s');
  }

  lemma SafeNetworkApplies(s: State, h: Hash)
    requires Safe(s) && DoNetworkApplies(s, h).Some?
    ensures Safe(DoNetworkApplies(s, h).value)
  {
    hide Inv;
    KeepNetworkApplies(s, h);
  }

  lemma StepKeepsSafe(env: Env, s: State, step: Step)
    requires Promised(env) && Safe(s) && Do(env, s, step).Some?
    ensures Safe(Do(env, s, step).value)
  {
    hide Inv;
    var p, s' := step.p, Do(env, s, step).value;
    StepKeepsInv(env, s, step);
    match step.act
    case Create(hold) => SafeCreate(s, p, hold);
    case Claim => SafeClaim(s, p);
    case RecordHash => SafeRecordHash(s, p);
    case Send(r) => SafeSend(env, s, p, r);
    case Reset(aged) => SafeReset(env, s, p, aged);
    case Increment => SafeIncrement(s, p);
    case Decide => SafeDecide(s, p);
    case Release => SafeRelease(s, p);
    case NetworkApplies(h) => SafeNetworkApplies(s, h);
    case Load => SafeStart(env, s, step, s');
    case Build(_) => SafeStart(env, s, step, s');
    case GiveUp => SafeGiveUp(s, p);
    case LookUp(v) => SafeLookUp(s, p, v);
    case ListAwaiting => SafeListAwaiting(s, p);
    case LookUpListed(v) => SafeLookUpListed(s, p, v);
    case ListConfirmed => SafeList(env, s, step, s');
    case ListStuck => SafeList(env, s, step, s');
    case OpenReview(_) => SafeList(env, s, step, s');
    case RecordHold => SafeLeave(env, s, step, s');
    case EnqueueFirst(_) => SafeLeave(env, s, step, s');
    case Requeue(_) => SafeLeave(env, s, step, s');
    case Stop => SafeLeave(env, s, step, s');
    case RejectPayout => SafeReject(env, s, step, s');
    case MarkConfirmed => SafeMark(env, s, step, s');
    case MarkFailed => SafeMark(env, s, step, s');
    case RejectTransfer => SafeReject(env, s, step, s');
    case CorrectConfirmed => SafeCorrectConfirmed(s, p);
    case CorrectFailed => SafeCorrectFailed(s, p);
    case FlagMismatch => SafeOverwrite(env, s, step, s');
    case MarkExhausted => SafeOverwrite(env, s, step, s');
  }

  lemma {:induction false} RunKeepsSafe(env: Env, steps: seq<Step>)
    requires Promised(env) && Run(env, Initial(), steps).Some?
    ensures Safe(Run(env, Initial(), steps).value)
    decreases |steps|
  {
    if steps != [] {
      RunKeepsSafe(env, steps[..|steps| - 1]);
      StepKeepsSafe(env, Run(env, Initial(), steps[..|steps| - 1]).value, steps[|steps| - 1]);
    }
  }

  lemma ReachableIsSafe(env: Env, s: State)
    requires Promised(env) && Reachable(env, s)
    ensures Safe(s)
  {
    var steps :| Run(env, Initial(), steps) == Some(s);
    RunKeepsSafe(env, steps);
  }

  /** No two envelopes of one transfer ever reach the network. */
  lemma OneEnvelope(env: Env, s: State)
    requires Promised(env) && Reachable(env, s)
    ensures s.applied <= s.sent
    ensures s.sent == {} || (s.row.Some? && s.row.value.hash.Some? && s.sent == {s.row.value.hash.value})
  {
    ReachableIsSafe(env, s);
    if s.sent != {} {
      var h :| h in s.sent;
      assert s.sent == {h};
    }
  }
}
