/** The statements processes execute against the stores, the queue and the network, with the other
    processes running in between. */
module World {
  import opened Common
  import opened Transactions
  import opened Lifecycle

  /** The compliance review of the transfer. */
  class ReviewRepo {
    var review: Option<ReviewStatus>

    constructor ()
      ensures review == None
    {
      review := None;
    }

    method CreateReview()
      modifies this
      ensures review == if old(review).None? then Some(ReviewPending) else old(review)
    {
      if review == None { review := Some(ReviewPending); }
    }

    method DecideReview(outcome: ReviewStatus) returns (ok: bool)
      modifies this
      ensures ok <==> old(review) == Some(ReviewPending)
      ensures review == if ok then Some(outcome) else old(review)
    {
      ok := review == Some(ReviewPending);
      if ok { review := Some(outcome); }
    }
  }

  /** The ledger does not lie: it reports an envelope applied only if it was, and failed only if it was not. */
  function Truthful(v: Verdict, applied: bool): Verdict {
    if (v.Applied? && !applied) || (v.OnLedgerFailed? && applied) then Unknown else v
  }

  ghost predicate Foreign(o: Interleaving<Step>, p: Pid) {
    forall k: nat, i | 0 <= i < |o(k)| :: o(k)[i].p != p
  }

  /** What a step of process q may change as far as the others can tell. */
  predicate Mild(s: State, s': State, q: Pid) {
    && s'.procs - {q} == s.procs - {q}
    && (s.row.Some? ==> s'.row.Some?)
    && s.applied <= s'.applied && s.payable <= s'.payable && s.rejected <= s'.rejected && s.dead <= s'.dead
    && s.requeued <= s'.requeued
  }

  lemma WorkerIsMild(env: Env, s: State, step: Step)
    requires Do(env, s, step).Some?
    requires step.act.Load? || step.act.Claim? || step.act.RejectPayout? || step.act.Build? || step.act.RecordHash?
             || step.act.SkipRecord? || step.act.Send? || step.act.GiveUp?
    ensures Mild(s, Do(env, s, step).value, step.p)
  {
  }

  lemma VerdictIsMild(env: Env, s: State, step: Step)
    requires Do(env, s, step).Some?
    requires step.act.LookUp? || step.act.MarkConfirmed? || step.act.MarkFailed? || step.act.ListAwaiting?
             || step.act.LookUpListed? || step.act.CorrectConfirmed? || step.act.CorrectFailed?
    ensures Mild(s, Do(env, s, step).value, step.p)
  {
  }

  lemma RecoveryIsMild(env: Env, s: State, step: Step)
    requires Do(env, s, step).Some?
    requires step.act.ListConfirmed? || step.act.FlagMismatch? || step.act.ListStuck? || step.act.Reset?
             || step.act.Increment? || step.act.MarkExhausted? || step.act.Requeue? || step.act.Stop?
    ensures Mild(s, Do(env, s, step).value, step.p)
  {
  }

  lemma OpeningIsMild(env: Env, s: State, step: Step)
    requires Do(env, s, step).Some?
    requires step.act.Create? || step.act.RecordHold? || step.act.EnqueueFirst? || step.act.OpenReview?
             || step.act.Decide? || step.act.Release? || step.act.RejectTransfer? || step.act.NetworkApplies?
    ensures Mild(s, Do(env, s, step).value, step.p)
  {
  }

  /** Steps of others leave this process where it stands, never delete the row, and never unmake a payment. */
  lemma OthersLeaveMe(env: Env, s: State, step: Step, p: Pid)
    requires step.p != p && Do(env, s, step).Some?
    ensures var s' := Do(env, s, step).value;
            (p in s'.procs <==> p in s.procs) && (p in s.procs ==> s'.procs[p] == s.procs[p])
    ensures s.row.Some? ==> Do(env, s, step).value.row.Some?
    ensures var s' := Do(env, s, step).value;
            s.applied <= s'.applied && s.payable <= s'.payable && s.rejected <= s'.rejected && s.dead <= s'.dead
    ensures s.requeued <= Do(env, s, step).value.requeued
  {
    var s' := Do(env, s, step).value;
    match step.act
    case Load | Claim | RejectPayout | Build(_) | RecordHash | SkipRecord | Send(_) | GiveUp => WorkerIsMild(env, s, step);
    case LookUp(_) | MarkConfirmed | MarkFailed | ListAwaiting | LookUpListed(_) | CorrectConfirmed | CorrectFailed =>
      VerdictIsMild(env, s, step);
    case ListConfirmed | FlagMismatch | ListStuck | Reset(_) | Increment | MarkExhausted | Requeue(_) | Stop =>
      RecoveryIsMild(env, s, step);
    case Create(_) | RecordHold | EnqueueFirst(_) | OpenReview(_) | Decide | Release | RejectTransfer | NetworkApplies(_) =>
      OpeningIsMild(env, s, step);
    assert p in s'.procs <==> p in s'.procs - {step.p};
    assert p in s.procs <==> p in s.procs - {step.p};
    assert p in s.procs ==> (s'.procs - {step.p})[p] == (s.procs - {step.p})[p];
  }

  lemma StepReaches(env: Env, s: State, step: Step)
    requires Reachable(env, s) && Do(env, s, step).Some?
    ensures Reachable(env, Do(env, s, step).value)
  {
    var steps :| Run(env, Initial(), steps) == Some(s);
    var all := steps + [step];
    assert all[..|all| - 1] == steps;
    assert Run(env, Initial(), all).Some?;
  }

  class World {
    const env: Env
    const id: TxId
    const txs: TransactionRepo
    const reviews: ReviewRepo
    /** The rest of the world: the other processes, the network, and the history the theorems are about. The
        program's own code reads the stores and what the network answers, never this. */
    var s: State

    constructor (env: Env, id: TxId, txs: TransactionRepo, reviews: ReviewRepo)
      requires id !in txs.rows && reviews.review == None
      ensures Good() && s == Initial()
      ensures this.env == env && this.id == id && this.txs == txs && this.reviews == reviews
    {
      this.env, this.id, this.txs, this.reviews := env, id, txs, reviews;
      s := Initial();
      new;
      assert Run(env, Initial(), []) == Some(s);
    }

    /** The stores hold what some run of the step system says they hold. */
    ghost predicate Good()
      reads this, txs, reviews
    {
      && Reachable(env, s)
      && s.row == (if id in txs.rows then Some(txs.rows[id]) else None)
      && s.review == reviews.review
    }

    /** Moves the history on by one step; the caller has done the same to the stores. */
    method Did(p: Pid, act: Action)
      requires Reachable(env, s) && Do(env, s, Step(p, act)).Some?
      modifies this
      ensures Reachable(env, s) && Some(s) == Do(env, old(s), Step(p, act))
    {
      StepReaches(env, s, Step(p, act));
      s := Do(env, s, Step(p, act)).value;
    }

    /** What the network answers to a submission, if `r` is what it would like to say: the ledger does not accept
        an envelope that it has failed. */
    method SubmitTransaction(h: Hash, r: Response) returns (heard: Response)
      ensures heard == if r.Success? && h in s.dead then Definite else r
    {
      heard := if r.Success? && h in s.dead then Definite else r;
    }

    /** What the ledger answers about an envelope, if `v` is what it would like to say. */
    method TransactionDetail(h: Hash, v: Verdict) returns (found: Verdict)
      ensures found == Truthful(v, h in s.applied)
    {
      found := Truthful(v, h in s.applied);
    }

    /** The others take these steps; those not enabled are skipped. */
    method Others(p: Pid, steps: seq<Step>)
      requires Good() && forall i | 0 <= i < |steps| :: steps[i].p != p
      modifies this, txs, reviews
      ensures Good()
      ensures (p in s.procs <==> p in old(s).procs) && (p in s.procs ==> s.procs[p] == old(s).procs[p])
      ensures old(s).row.Some? ==> s.row.Some?
      ensures old(s).applied <= s.applied && old(s).payable <= s.payable && old(s).rejected <= s.rejected
      ensures old(s).requeued <= s.requeued && old(s).dead <= s.dead
      ensures steps == [] ==> s == old(s)
      ensures forall other | other in txs.rows && other != id :: other in old(txs.rows) && txs.rows[other] == old(txs.rows)[other]
    {
      for i := 0 to |steps|
        invariant Good()
        invariant (p in s.procs <==> p in old(s).procs) && (p in s.procs ==> s.procs[p] == old(s).procs[p])
        invariant old(s).row.Some? ==> s.row.Some?
        invariant old(s).applied <= s.applied && old(s).payable <= s.payable && old(s).rejected <= s.rejected
        invariant old(s).requeued <= s.requeued && old(s).dead <= s.dead
        invariant steps == [] ==> s == old(s)
        invariant forall other | other in txs.rows && other != id :: other in old(txs.rows) && txs.rows[other] == old(txs.rows)[other]
      {
        var next := Do(env, s, steps[i]);
        if next.Some? {
          OthersLeaveMe(env, s, steps[i], p);
          Did(steps[i].p, steps[i].act);
          if s.row.Some? { txs.rows := txs.rows[id := s.row.value]; }
          reviews.review := s.review;
        }
      }
    }
  }
}
