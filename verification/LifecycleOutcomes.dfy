/** How a transfer ends: when a payment that was failed or rejected can still have been made. */
module LifecycleOutcomes {
  import opened Common
  import opened Transactions
  import opened Lifecycle
  import opened LifecycleInvariants
  import opened LifecycleSafety
  import opened LifecycleLimits

  // ---- what is final ----

  /** Runs compose. */
  lemma {:induction false} RunOn(env: Env, s: State, before: seq<Step>, steps: seq<Step>)
    requires Run(env, Initial(), before) == Some(s) && Run(env, s, steps).Some?
    ensures Run(env, Initial(), before + steps) == Run(env, s, steps)
    decreases |steps|
  {
    if steps == [] {
      assert before + steps == before;
    } else {
      var init := steps[..|steps| - 1];
      RunOn(env, s, before, init);
      assert (before + steps)[..|before + steps| - 1] == before + init;
    }
  }

  lemma StaysReachable(env: Env, s: State, steps: seq<Step>)
    requires Reachable(env, s) && Run(env, s, steps).Some?
    ensures Reachable(env, Run(env, s, steps).value)
  {
    var before :| Run(env, Initial(), before) == Some(s);
    RunOn(env, s, before, steps);
  }

  lemma KeepsHistory(env: Env, s: State, step: Step)
    requires Do(env, s, step).Some?
    requires !step.act.Send? && !step.act.LookUp? && !step.act.LookUpListed? && !step.act.NetworkApplies?
    ensures var s' := Do(env, s, step).value;
            s.dead == s'.dead && s.rejected == s'.rejected && s.applied == s'.applied
  {
  }

  lemma StepForgetsNothing(env: Env, s: State, step: Step)
    requires Do(env, s, step).Some?
    ensures var s' := Do(env, s, step).value;
            s.dead <= s'.dead && s.rejected <= s'.rejected && s.applied <= s'.applied
  {
    match step.act
    case Send(_) | LookUp(_) | LookUpListed(_) | NetworkApplies(_) =>
    case _ => KeepsHistory(env, s, step);
  }

  lemma {:induction false} RunForgetsNothing(env: Env, s: State, steps: seq<Step>)
    requires Run(env, s, steps).Some?
    ensures var s' := Run(env, s, steps).value;
            s.dead <= s'.dead && s.rejected <= s'.rejected && s.applied <= s'.applied
    decreases |steps|
  {
    if steps != [] {
      var init := steps[..|steps| - 1];
      RunForgetsNothing(env, s, init);
      StepForgetsNothing(env, Run(env, s, init).value, steps[|steps| - 1]);
    }
  }

  /** Some continuation of s, by any steps of anyone, has the network apply h. */
  ghost predicate MayBePaid(env: Env, s: State, h: Hash) {
    exists steps :: Run(env, s, steps).Some? && h in Run(env, s, steps).value.applied
  }

  /** An envelope that failed on the ledger is never applied afterwards, whatever the environment does. */
  lemma DeadIsNeverPaid(env: Env, s: State, h: Hash)
    requires Reachable(env, s) && h in s.dead
    ensures !MayBePaid(env, s, h)
  {
    forall steps | Run(env, s, steps).Some? ensures h !in Run(env, s, steps).value.applied {
      StaysReachable(env, s, steps);
      RunForgetsNothing(env, s, steps);
      ReachableKeepsInv(env, Run(env, s, steps).value);
    }
  }

  /** An envelope whose first submission was definitely rejected is never applied, and nothing else is. */
  lemma RejectedIsNeverPaid(env: Env, s: State, h: Hash)
    requires Promised(env) && Reachable(env, s) && h in s.rejected
    ensures forall h' :: !MayBePaid(env, s, h')
  {
    forall h', steps | Run(env, s, steps).Some? ensures h' !in Run(env, s, steps).value.applied {
      StaysReachable(env, s, steps);
      RunForgetsNothing(env, s, steps);
      NothingPaid(env, Run(env, s, steps).value, h);
    }
  }

  lemma NothingPaid(env: Env, s: State, h: Hash)
    requires Promised(env) && Reachable(env, s) && h in s.rejected
    ensures s.applied == {}
  {
    ReachableIsSafe(env, s);
    assert Over(s, h);
    forall h' ensures h' !in s.applied {
      if h' in s.sent { assert h' == h; }
    }
  }

  // ---- rejected transfers ----

  /** A worker about to mark a transfer failed may fail a payment that was, or still can be, made exactly if
      neither the first answer was a definite rejection nor the ledger has failed the envelope. */
  lemma RejectedIsPaidIff(env: Env, s: State, p: Pid, h: Hash, doubt: bool)
    requires Promised(env) && Reachable(env, s) && p in s.procs && s.procs[p] == Denied(h, doubt)
    ensures MayBePaid(env, s, h) <==> doubt && h !in s.dead
  {
    ReachableIsSafe(env, s);
    if h in s.dead {
      DeadIsNeverPaid(env, s, h);
    } else if !doubt {
      RejectedIsNeverPaid(env, s, h);
    } else {
      MayApply(env, s, h);
    }
  }

  lemma MayApply(env: Env, s: State, h: Hash)
    requires h in s.payable && h !in s.dead
    ensures MayBePaid(env, s, h)
  {
    var pays := [Step(0, NetworkApplies(h))];
    assert pays[..0] == [] && Run(env, s, []) == Some(s);
    assert Run(env, s, pays) == DoNetworkApplies(s, h);
    assert h in Run(env, s, pays).value.applied;
  }

  lemma Doubts(env: Env, s: State, p: Pid, h: Hash) returns (s': State)
    requires Reachable(env, s) && p in s.procs && s.procs[p] == Sending(h, 0) && h !in s.dead
    ensures Reachable(env, s') && h in s'.applied && s'.row == s.row && s'.procs == s.procs[p := Sending(h, 1)]
  {
    hide Reachable;
    s' := Next(env, s, Step(p, Send(Retryable)));
    s' := Next(env, s', Step(p, NetworkApplies(h)));
  }

  /** A submission is left in doubt, the network applies it, the resubmission is rejected, and the engine marks
      the paid transfer failed. */
  lemma RejectedCanBePaid(env: Env) returns (s: State)
    requires env.doubtfulRejections
    ensures Reachable(env, s)
    ensures s.row.Some? && s.row.value.status == Failed && s.row.value.hash == Some(7) && 7 in s.applied
  {
    hide Reachable;
    s := Started(env);
    s := Claims(env, s, 1);
    s := Signs(env, s, 1, 7, true);
    s := Doubts(env, s, 1, 7);
    s := Next(env, s, Step(1, Send(Definite)));
    s := Next(env, s, Step(1, MarkFailed));
  }

  // ---- failed transfers ----

  lemma Lists(env: Env, s: State, p: Pid) returns (s': State)
    requires Reachable(env, s) && s.row.Some? && s.row.value.status == Pending && p !in s.procs
    ensures Reachable(env, s') && s' == At(s, p, Requeuing)
  {
    hide Reachable;
    s' := Next(env, s, Step(p, ListStuck));
    s' := Next(env, s', Step(p, Reset(true)));
    assert s'.procs == s.procs[p := Requeuing];
  }

  /** A pass of stuck recovery counts the row, still pending. */
  lemma Counts(env: Env, s: State, p: Pid) returns (s': State)
    requires Reachable(env, s) && s.row.Some? && s.row.value.status == Pending && p !in s.procs
    ensures Reachable(env, s')
    ensures var n := s.row.value.requeues + 1;
            s'.row == Some(s.row.value.(requeues := n)) && s'.procs == s.procs[p := Counted(n)]
    ensures s'.firstTasks == s.firstTasks && s'.dead == s.dead
  {
    hide Reachable;
    s' := Lists(env, s, p);
    s' := Next(env, s', Step(p, Increment));
  }

  /** Four passes of recovery have counted the row, the last of them exhausting it. */
  lemma Exhausted(env: Env) returns (s: State)
    ensures Reachable(env, s)
    ensures s.row == Some(Row(Pending, None, 4, 0)) && s.firstTasks == 1 && 5 in s.procs && s.procs[5] == Counted(4)
    ensures 1 !in s.procs && s.dead == {}
  {
    hide Reachable;
    s := Started(env);
    s := Counts(env, s, 2);
    s := Counts(env, s, 3);
    s := Counts(env, s, 4);
    s := Counts(env, s, 5);
  }

  /** Process p marks the row confirmed, and process q then marks it failed. */
  lemma GivesUp(env: Env, s: State, p: Pid, q: Pid, h: Hash) returns (s': State)
    requires env.staleGiveUps
    requires Reachable(env, s) && s.row.Some? && s.row.value.status == Submitted
    requires p in s.procs && q in s.procs && p != q && s.procs[p] == Accepted(h) && s.procs[q] == Counted(4)
    ensures Reachable(env, s') && s'.applied == s.applied
    ensures s'.row == Some(s.row.value.(status := Failed, hash := Some(h)))
  {
    hide Reachable;
    s' := Next(env, s, Step(p, MarkConfirmed));
    assert s'.row.value.status == Confirmed;
    s' := Next(env, s', Step(q, MarkExhausted));
  }

  /** A transfer that was paid and confirmed can end as failed: the write that gives up on a stuck row does not
      look at its status. */
  lemma PaidCanEndAsFailed(env: Env) returns (s: State)
    requires env.staleGiveUps
    ensures Reachable(env, s)
    ensures s.row.Some? && s.row.value.status == Failed && s.row.value.hash == Some(7) && 7 in s.applied
  {
    hide Reachable;
    s := Exhausted(env);
    s := Claims(env, s, 1);
    s := Pays(env, s, 1, 7, true);
    s := GivesUp(env, s, 1, 5, 7);
  }

  /** A signed envelope is rejected outright, and the row is marked failed with its hash. */
  lemma Fails(env: Env, s: State, p: Pid, h: Hash) returns (s': State)
    requires Reachable(env, s) && s.row.Some? && s.row.value.status != Confirmed
    requires p in s.procs && s.procs[p] == Sending(h, 0)
    ensures Reachable(env, s') && s'.applied == s.applied && s'.row.Some? && s'.row.value.status == Failed
  {
    hide Reachable;
    s' := Next(env, s, Step(p, Send(Definite)));
    s' := Next(env, s', Step(p, MarkFailed));
  }

  /** An unrecorded envelope is paid, and the one signed after it is rejected. */
  lemma UnrecordedEndsAsFailed(env: Env) returns (s: State)
    requires env.hashWriteMayFail
    ensures Reachable(env, s) && s.row.Some? && s.row.value.status == Failed && s.applied != {}
  {
    hide Reachable;
    s := Started(env);
    s := Claims(env, s, 1);
    s := Pays(env, s, 1, 1, false);
    s := Next(env, s, Step(1, Stop));
    assert s.procs == map[];
    s := GivesBack(env, s, 2);
    s := Claims(env, s, 3);
    s := Signs(env, s, 3, 2, true);
    s := Fails(env, s, 3, 2);
  }

  /** A reset hits a slow claimant, whose envelope is rejected after another's was paid. */
  lemma ResetWhileClaimedEndsAsFailed(env: Env) returns (s: State)
    requires env.resetWhileClaimed
    ensures Reachable(env, s) && s.row.Some? && s.row.value.status == Failed && s.applied != {}
  {
    hide Reachable;
    s := Started(env);
    s := Claims(env, s, 1);
    s := GivesBack(env, s, 2);
    s := Claims(env, s, 3);
    s := Pays(env, s, 3, 2, true);
    s := Signs(env, s, 1, 1, true);
    s := Fails(env, s, 1, 1);
  }

  /** Every promise at once: besides the two, no rejection leaves the outcome in doubt, and recovery gives up
      only on a row that is still stuck. */
  predicate FullyPromised(env: Env) {
    Promised(env) && !env.doubtfulRejections && !env.staleGiveUps
  }

  predicate Unpayable(s: State, h: Hash) {
    h in s.dead || h in s.rejected
  }

  /** What the row failed, or is about to be failed, for can never be paid. */
  predicate FailedOk(s: State) {
    && (s.row.Some? && s.row.value.status == Failed && s.row.value.hash.Some? ==> Unpayable(s, s.row.value.hash.value))
    && (forall p | p in s.procs && s.procs[p].Denied? :: Unpayable(s, s.procs[p].h))
  }

  predicate FailsRow(a: Action) {
    a.MarkFailed? || a.CorrectFailed? || a.RejectPayout? || a.MarkExhausted? || a.RejectTransfer?
  }

  predicate Denies(a: Action) {
    a.Send? || a.LookUp? || a.LookUpListed?
  }

  lemma FailingKeepsFailedOk(env: Env, s: State, step: Step)
    requires FullyPromised(env) && Safe(s) && FailedOk(s) && Do(env, s, step).Some? && FailsRow(step.act)
    ensures FailedOk(Do(env, s, step).value)
  {
    hide Inv, OnRecord, Over;
  }

  lemma DenyingKeepsFailedOk(env: Env, s: State, step: Step)
    requires FullyPromised(env) && FailedOk(s) && Do(env, s, step).Some? && Denies(step.act)
    ensures FailedOk(Do(env, s, step).value)
  {
  }

  /** Neither fails the row nor has a worker deny an envelope. */
  predicate FailsNothing(s: State, s': State) {
    && s'.dead == s.dead && s'.rejected == s.rejected
    && (s'.row.Some? && s'.row.value.status == Failed ==>
          s.row.Some? && s.row.value.status == Failed && s.row.value.hash == s'.row.value.hash)
    && (forall p | p in s'.procs && s'.procs[p].Denied? :: p in s.procs && s.procs[p] == s'.procs[p])
  }

  predicate WritesRow(a: Action) {
    || a.Create? || a.Claim? || a.RecordHash? || a.MarkConfirmed? || a.CorrectConfirmed? || a.FlagMismatch?
    || a.Reset? || a.Increment? || a.Release?
  }

  lemma OtherWritesFailNothing(env: Env, s: State, step: Step)
    requires Do(env, s, step).Some? && WritesRow(step.act)
    ensures FailsNothing(s, Do(env, s, step).value)
  {
  }

  predicate Leaves(a: Action) {
    a.RecordHold? || a.EnqueueFirst? || a.Requeue? || a.Decide? || a.Stop? || a.NetworkApplies?
  }

  lemma LeavingFailsNothing(env: Env, s: State, step: Step)
    requires Do(env, s, step).Some? && Leaves(step.act)
    ensures FailsNothing(s, Do(env, s, step).value)
  {
  }

  lemma OtherStepsFailNothing(env: Env, s: State, step: Step)
    requires Do(env, s, step).Some? && !FailsRow(step.act) && !Denies(step.act) && !WritesRow(step.act) && !Leaves(step.act)
    ensures FailsNothing(s, Do(env, s, step).value)
  {
  }

  lemma StepKeepsFailedOk(env: Env, s: State, step: Step)
    requires FullyPromised(env) && Safe(s) && FailedOk(s) && Do(env, s, step).Some?
    ensures FailedOk(Do(env, s, step).value)
  {
    hide Do, Safe;
    if FailsRow(step.act) {
      FailingKeepsFailedOk(env, s, step);
    } else if Denies(step.act) {
      DenyingKeepsFailedOk(env, s, step);
    } else if WritesRow(step.act) {
      OtherWritesFailNothing(env, s, step);
    } else if Leaves(step.act) {
      LeavingFailsNothing(env, s, step);
    } else {
      OtherStepsFailNothing(env, s, step);
    }
  }

  lemma {:induction false} RunKeepsFailedOk(env: Env, steps: seq<Step>)
    requires FullyPromised(env) && Run(env, Initial(), steps).Some?
    ensures FailedOk(Run(env, Initial(), steps).value)
    decreases |steps|
  {
    if steps != [] {
      var init := steps[..|steps| - 1];
      RunKeepsFailedOk(env, init);
      RunKeepsSafe(env, init);
      StepKeepsFailedOk(env, Run(env, Initial(), init).value, steps[|steps| - 1]);
    }
  }

  lemma FailedIsUnpaid(env: Env, s: State)
    requires FullyPromised(env) && Reachable(env, s) && s.row.Some? && s.row.value.status == Failed
    ensures s.applied == {}
  {
    var steps :| Run(env, Initial(), steps) == Some(s);
    RunKeepsSafe(env, steps);
    RunKeepsFailedOk(env, steps);
    forall h ensures h !in s.applied {
      if h in s.sent { assert s.row.value.hash == Some(h); }
    }
  }

  /** And the envelope it was failed for is applied in no continuation. */
  lemma FailedIsFinal(env: Env, s: State, h: Hash)
    requires FullyPromised(env) && Reachable(env, s)
    requires s.row.Some? && s.row.value.status == Failed && s.row.value.hash == Some(h)
    ensures !MayBePaid(env, s, h)
  {
    var steps :| Run(env, Initial(), steps) == Some(s);
    RunKeepsFailedOk(env, steps);
    if h in s.dead { DeadIsNeverPaid(env, s, h); } else { RejectedIsNeverPaid(env, s, h); }
  }

  ghost predicate FailedIsNeverPaid(env: Env) {
    forall s | Reachable(env, s) && s.row.Some? && s.row.value.status == Failed :: s.applied == {}
  }

  /** The four promises are exactly what it takes that no transfer which ends as failed was paid. */
  lemma FailedNeverPaidIff(env: Env)
    ensures FailedIsNeverPaid(env) <==> FullyPromised(env)
  {
    if FullyPromised(env) {
      forall s | Reachable(env, s) && s.row.Some? && s.row.value.status == Failed ensures s.applied == {} {
        FailedIsUnpaid(env, s);
      }
    } else {
      var s: State;
      if env.hashWriteMayFail {
        s := UnrecordedEndsAsFailed(env);
      } else if env.resetWhileClaimed {
        s := ResetWhileClaimedEndsAsFailed(env);
      } else if env.doubtfulRejections {
        s := RejectedCanBePaid(env);
      } else {
        s := PaidCanEndAsFailed(env);
      }
      assert s.row.value.status == Failed && s.applied != {};
    }
  }
}
