/** The Stellar settlement engine: what one delivery of a task does, statement by statement. */
module Engine {
  import opened Common
  import opened Transactions
  import opened Lifecycle
  import opened World
  import LifecycleInvariants
  import LifecycleSafety
  import LifecycleOutcomes

  /** What the environment answers during one delivery. */
  datatype Answers = Answers(
    payout: bool,                 // the transfer goes to a raw address
    envelope: Option<Hash>,       // None: some error before the envelope was signed
    hashWriteErrs: bool,
    responses: nat -> Response,   // to each submission attempt
    cancelled: nat -> bool,       // the context ended before this attempt
    lookup: Verdict,              // to the immediate lookup, if the ledger knows nothing of the envelope
    finalWriteErrs: bool)

  datatype Submission = Paid | Refused | NoVerdict

  datatype Outcome =
    | NotClaimed | PayoutRefused | Abandoned
    | Resolved(paid: bool)         // nil to the queue
    | Refusal                      // error to the queue, row marked failed
    | LeftForReconciliation        // error to the queue, row left submitted

  /** What attempts k, k+1, ... lead to, with an envelope that the ledger has failed before or not. */
  function Heard(a: Answers, k: nat, dead: bool): Submission
    decreases MAX_TRIES - k
  {
    if k >= MAX_TRIES || (k > 0 && a.cancelled(k)) then NoVerdict
    else
      match a.responses(k)
      case Success => if dead then Refused else Paid
      case Definite | Misread => Refused
      case Retryable => Heard(a, k + 1, dead)
  }

  /** No error that the engine takes for a rejection leaves the outcome in doubt. */
  predicate Candid(a: Answers) {
    forall k: nat | k < MAX_TRIES :: !Misleads(k, a.responses(k))
  }

  /** The first answer leaves the outcome in doubt. */
  predicate FirstDoubts(a: Answers) {
    a.responses(0).Retryable? || a.responses(0).Misread?
  }

  /** Attempt k is made: every earlier one met a retryable error, and no wait was cut short. */
  ghost predicate Made(a: Answers, k: nat) {
    k < 3 && forall j: nat :: (j < k ==> a.responses(j) == Retryable) && (1 <= j <= k ==> !a.cancelled(j))
  }

  predicate Rejects(r: Response, dead: bool) {
    r.Definite? || r.Misread? || (r.Success? && dead)
  }

  /** Paid exactly if some attempt that was made succeeded, refused exactly if one met what reads as a rejection. */
  lemma {:induction false} HeardIff(a: Answers, k: nat, dead: bool)
    requires k == 0 || (k <= 3 && Made(a, k - 1) && a.responses(k - 1) == Retryable)
    ensures Heard(a, k, dead) == Paid <==> !dead && exists j: nat :: Made(a, j) && a.responses(j) == Success
    ensures Heard(a, k, dead) == Refused <==> exists j: nat :: Made(a, j) && Rejects(a.responses(j), dead)
    decreases MAX_TRIES - k
  {
    if k < MAX_TRIES && !(k > 0 && a.cancelled(k)) {
      assert Made(a, k);
      if a.responses(k) == Retryable { HeardIff(a, k + 1, dead); }
    }
  }

  function Looked(v: Verdict, applied: bool): Outcome {
    match Truthful(v, applied)
    case Applied => Resolved(true)
    case OnLedgerFailed => Resolved(false)
    case Unknown => LeftForReconciliation
  }

  /** What a claimed delivery concludes, if the lookup would find the envelope applied or not, and the ledger has
      failed the envelope before or not. */
  function Conclusion(a: Answers, applied: bool, dead: bool): Outcome {
    if a.payout then PayoutRefused
    else if a.envelope.None? then Abandoned
    else
      match Heard(a, 0, dead)
      case Paid => Resolved(true)
      case Refused => Refusal
      case NoVerdict => Looked(a.lookup, applied)
  }

  /** What a claimed delivery can conclude while the others are at work. */
  predicate Possible(a: Answers, final: Outcome) {
    || final == Conclusion(a, true, true) || final == Conclusion(a, true, false)
    || final == Conclusion(a, false, true) || final == Conclusion(a, false, false)
  }

  /** The row an undisturbed delivery leaves behind. */
  function Settled(a: Answers, row: Row, applied: bool, dead: bool): Row {
    if row.status != Pending then row
    else if a.payout then (if a.finalWriteErrs then row.(status := Submitted) else row.(status := Failed, hash := None))
    else if a.envelope.None? then row.(status := Submitted)
    else
      var h := a.envelope.value;
      var final := Conclusion(a, applied, dead);
      if a.finalWriteErrs || final.LeftForReconciliation? then
        row.(status := Submitted, hash := if a.hashWriteErrs then row.hash else Some(h))
      else row.(status := if final == Resolved(true) then Confirmed else Failed, hash := Some(h))
  }

  /** Nothing changed but where the processes stand, and that these envelopes may now be paid. */
  predicate OnlyMadePayable(s: State, s': State, doubted: set<Hash>) {
    && s'.row == s.row && s'.review == s.review && s'.dead == s.dead && s'.applied == s.applied
    && s'.payable == s.payable + doubted
  }

  lemma SendEffect(env: Env, s: State, p: Pid, h: Hash, n: nat, r: Response)
    requires p in s.procs && s.procs[p] == Sending(h, n) && n < MAX_TRIES && (r.Success? ==> h !in s.dead)
    requires Misleads(n, r) ==> env.doubtfulRejections || h in s.dead
    ensures Do(env, s, Step(p, Send(r))).Some?
    ensures var s' := Do(env, s, Step(p, Send(r))).value;
            && p in s'.procs
            && s'.procs[p] == (match r
                               case Success => Accepted(h)
                               case Definite => Denied(h, n > 0)
                               case Misread => Denied(h, true)
                               case Retryable => if n == MAX_TRIES - 1 then Ambiguous(h) else Sending(h, n + 1))
            && OnlyMadePayable(s.(applied := s'.applied), s', if r == Definite then {} else {h})
            && s'.applied == s.applied + (if r == Success then {h} else {})
            && h in s'.sent && (n == 0 && r == Definite ==> h in s'.rejected)
  {
  }

  /** Failed with this hash; unless somebody confirmed the row in the meantime, which stays. */
  predicate FailedWith(row: Row, h: Hash) {
    row.status == Confirmed || (row.status == Failed && row.hash == Some(h))
  }

  /** What a delivery reports, and leaves behind, in the light of its answers and of what it met and left: `early`
      are the envelopes applied before it, `after` is the state it leaves. */
  ghost predicate Justified(a: Answers, h: Hash, final: Outcome, early: set<Hash>, after: State) {
    && after.row.Some?
    && (final == Resolved(true) ==> h in after.applied && (!a.finalWriteErrs ==> after.row.value.status == Confirmed))
    && (final in {Resolved(false), Refusal} && !a.finalWriteErrs ==> FailedWith(after.row.value, h))
    && (final == Resolved(false) ==> h in after.dead && Undecided(a) && a.lookup == OnLedgerFailed)
    && (final == LeftForReconciliation ==> Undecided(a))
    && (Undecided(a) && a.lookup == OnLedgerFailed ==>
          final == if h in after.applied then LeftForReconciliation else Resolved(false))
    && (Undecided(a) && a.lookup == Unknown ==> final == LeftForReconciliation)
    && (Undecided(a) && a.lookup == Applied ==>
          && final in {LeftForReconciliation, Resolved(true)}
          && (h in early ==> final == Resolved(true)) && (h !in after.applied ==> final == LeftForReconciliation))
  }

  lemma JustifiedSince(a: Answers, h: Hash, final: Outcome, early: set<Hash>, later: set<Hash>, after: State)
    requires Justified(a, h, final, later, after) && early <= later
    ensures Justified(a, h, final, early, after)
  {
  }

  lemma UndecidedIff(a: Answers)
    ensures forall dead :: Undecided(a) <==> Heard(a, 0, dead) == NoVerdict
  {
    forall dead ensures Undecided(a) <==> Heard(a, 0, dead) == NoVerdict {
      HeardIff(a, 0, dead);
      if Heard(a, 0, dead) == NoVerdict {
        forall k: nat | Made(a, k) ensures a.responses(k) == Retryable { assert Rejects(a.responses(k), dead) || a.responses(k) in {Success, Retryable}; }
      }
    }
  }

  lemma AppliedIsNotDead(env: Env, s: State)
    requires Reachable(env, s)
    ensures s.applied !! s.dead
  {
    LifecycleInvariants.ReachableKeepsInv(env, s);
  }

  class Engine {
    const world: World

    constructor (world: World)
      ensures this.world == world
    {
      this.world := world;
    }

    /** One submission of the envelope. */
    method Submit(p: Pid, h: Hash, n: nat, r: Response, others: seq<Step>) returns (heard: Response)
      requires world.Good() && p in world.s.procs && world.s.procs[p] == Sending(h, n) && n < MAX_TRIES && world.s.row.Some?
      requires Misleads(n, r) ==> world.env.doubtfulRejections
      requires forall i | 0 <= i < |others| :: others[i].p != p
      modifies world, world.txs, world.reviews
      ensures world.Good() && p in world.s.procs && world.s.row.Some?
      ensures heard == if r.Success? && h in world.s.dead then Definite else r
      ensures world.s.procs[p] == match heard
                                  case Success => Accepted(h)
                                  case Definite => Denied(h, n > 0)
                                  case Misread => Denied(h, true)
                                  case Retryable => if n == MAX_TRIES - 1 then Ambiguous(h) else Sending(h, n + 1)
      ensures h in world.s.sent && (heard == Success ==> h in world.s.applied)
      ensures n == 0 && heard == Definite ==> h in world.s.rejected
      ensures old(world.s).applied <= world.s.applied
      ensures old(world.s).payable <= world.s.payable && (heard != Definite ==> h in world.s.payable)
      ensures others == [] ==>
                && world.s.row == old(world.s).row && world.s.review == old(world.s).review && world.s.dead == old(world.s).dead
                && (heard != Success ==> OnlyMadePayable(old(world.s), world.s, if heard == Definite then {} else {h}))
    {
      hide Reachable, Do, DoSend;
      world.Others(p, others);
      heard := world.SubmitTransaction(h, r);
      SendEffect(world.env, world.s, p, h, n, heard);
      world.Did(p, Send(heard));
    }

    /** The context ended while waiting for the next attempt. */
    method Cancel(p: Pid, h: Hash, n: nat)
      requires world.Good() && p in world.s.procs && world.s.procs[p] == Sending(h, n) && n > 0
      modifies world
      ensures world.Good() && world.s == At(old(world.s), p, Ambiguous(h))
    {
      hide Reachable;
      world.Did(p, GiveUp);
    }

    /** The same envelope up to three times, until the network gives a verdict. */
    method SubmitWithRetry(p: Pid, h: Hash, a: Answers, o: Interleaving<Step>) returns (v: Submission)
      requires world.Good() && p in world.s.procs && world.s.procs[p] == Sending(h, 0) && world.s.row.Some? && Foreign(o, p)
      requires world.env.doubtfulRejections || Candid(a)
      modifies world, world.txs, world.reviews
      ensures world.Good() && p in world.s.procs && world.s.row.Some?
      ensures v == Heard(a, 0, h in world.s.dead) || v == Heard(a, 0, false)
      ensures world.s.procs[p] == match v
                                  case Paid => Accepted(h)
                                  case Refused => Denied(h, FirstDoubts(a))
                                  case NoVerdict => Ambiguous(h)
      ensures v == Paid ==> h in world.s.applied
      ensures old(world.s).applied <= world.s.applied
      ensures v == Refused ==> h in if FirstDoubts(a) then world.s.payable else world.s.rejected
      ensures Quiet(o) ==>
                && v == Heard(a, 0, h in old(world.s).dead)
                && world.s.row == old(world.s).row && world.s.review == old(world.s).review && world.s.dead == old(world.s).dead
                && (v == Refused ==> OnlyMadePayable(old(world.s), world.s, if FirstDoubts(a) then {h} else {}))
                && (v == NoVerdict ==> OnlyMadePayable(old(world.s), world.s, {h}))
    {
      hide Reachable, Do, DoSend, world.Good;
      var attempt := 0;
      while attempt < 3
        invariant 0 <= attempt <= 3 && world.Good() && p in world.s.procs && world.s.row.Some?
        invariant world.s.procs[p] == if attempt == 3 then Ambiguous(h) else Sending(h, attempt)
        invariant forall dead :: Heard(a, 0, dead) == Heard(a, attempt, dead)
        invariant Quiet(o) ==> OnlyMadePayable(old(world.s), world.s, if attempt > 0 then {h} else {})
        invariant old(world.s).applied <= world.s.applied
        invariant attempt > 0 ==> a.responses(0) == Retryable && h in world.s.payable
      {
        if attempt > 0 && a.cancelled(attempt) {
          Cancel(p, h, attempt);
          return NoVerdict;
        }
        var heard := Submit(p, h, attempt, a.responses(attempt), o(2 + attempt));
        match heard
        case Success => return Paid;
        case Definite => return Refused;
        case Misread => return Refused;
        case Retryable => attempt := attempt + 1;
      }
      v := NoVerdict;
    }

    /** `at` is the state in which the claim runs; so below, the state of the statement. */
    method Claim(p: Pid, others: seq<Step>) returns (ok: bool, ghost at: State)
      requires world.Good() && p !in world.s.procs && world.s.row.Some? && Tasks(world.s) > 0
      requires forall i | 0 <= i < |others| :: others[i].p != p
      modifies world, world.txs, world.reviews
      ensures world.Good() && world.s.row.Some?
      ensures if ok then p in world.s.procs && world.s.procs[p] == Won else p !in world.s.procs
      ensures at.row.Some? && ok == (at.row.value.status == Pending) && old(world.s).applied <= at.applied && world.s.applied == at.applied && world.s.dead == at.dead
      ensures world.s.row.value == if ok then at.row.value.(status := Submitted) else at.row.value
      ensures others == [] ==> at.row == old(world.s).row && at.applied == old(world.s).applied && at.dead == old(world.s).dead
    {
      hide Reachable;
      world.Did(p, Load);
      world.Others(p, others);
      at := world.s;
      ok := world.txs.ClaimForSubmission(world.id);
      world.Did(p, Lifecycle.Claim);
    }

    method RefusePayout(p: Pid, writeErrs: bool, others: seq<Step>) returns (ghost at: State)
      requires world.Good() && p in world.s.procs && world.s.procs[p] == Won && world.s.row.Some?
      requires forall i | 0 <= i < |others| :: others[i].p != p
      modifies world, world.txs, world.reviews
      ensures world.Good() && p !in world.s.procs && world.s.row.Some?
      ensures at.row.Some? && world.s.row.value == if writeErrs then at.row.value else WithStatus(at.row.value, Failed, None)
      ensures others == [] ==> at.row == old(world.s).row
    {
      hide Reachable;
      world.Others(p, others);
      at := world.s;
      if writeErrs {
        world.Did(p, Stop);
      } else {
        world.txs.UpdateStatus(world.id, Failed, None);
        world.Did(p, RejectPayout);
      }
    }

    /** Records the hash before anything is sent; a failing write is only logged. */
    method RecordHash(p: Pid, h: Hash, writeErrs: bool, others: seq<Step>) returns (ghost at: State)
      requires world.Good() && p in world.s.procs && world.s.procs[p] == Won && world.s.row.Some?
      requires writeErrs ==> world.env.hashWriteMayFail
      requires forall i | 0 <= i < |others| :: others[i].p != p
      modifies world, world.txs, world.reviews
      ensures world.Good() && p in world.s.procs && world.s.procs[p] == Sending(h, 0) && world.s.row.Some?
      ensures at.row.Some? && old(world.s).applied <= at.applied && world.s.applied == at.applied && world.s.dead == at.dead
      ensures world.s.row.value == if writeErrs then at.row.value else WithStatus(at.row.value, Submitted, Some(h))
      ensures others == [] ==> at.row == old(world.s).row && at.applied == old(world.s).applied && at.dead == old(world.s).dead
    {
      hide Reachable;
      world.Did(p, Build(h));
      world.Others(p, others);
      at := world.s;
      if writeErrs {
        world.Did(p, SkipRecord);
      } else {
        world.txs.UpdateStatus(world.id, Submitted, Some(h));
        world.Did(p, Lifecycle.RecordHash);
      }
    }

    /** The last write: confirmed or failed, with the hash. */
    method Finish(p: Pid, h: Hash, paid: bool, writeErrs: bool, others: seq<Step>) returns (ghost at: State)
      requires world.Good() && p in world.s.procs && world.s.row.Some?
      requires if paid then world.s.procs[p] == Accepted(h) else world.s.procs[p].Denied? && world.s.procs[p].h == h
      requires forall i | 0 <= i < |others| :: others[i].p != p
      modifies world, world.txs, world.reviews
      ensures world.Good() && p !in world.s.procs && world.s.row.Some? && old(world.s).applied <= world.s.applied
      ensures old(world.s).payable <= world.s.payable && old(world.s).rejected <= world.s.rejected
      ensures old(world.s).dead <= world.s.dead
      ensures at.row.Some?
      ensures world.s.row.value == if writeErrs then at.row.value
                                   else WithStatus(at.row.value, if paid then Confirmed else Failed, Some(h))
      ensures others == [] ==> at.row == old(world.s).row
    {
      hide Reachable;
      world.Others(p, others);
      at := world.s;
      if writeErrs {
        world.Did(p, Stop);
      } else {
        world.txs.UpdateStatus(world.id, if paid then Confirmed else Failed, Some(h));
        world.Did(p, if paid then MarkConfirmed else MarkFailed);
      }
    }

    /** One lookup of the envelope; false if the ledger has no verdict. */
    method LookUp(p: Pid, h: Hash, v: Verdict, others: seq<Step>) returns (found: Verdict)
      requires world.Good() && p in world.s.procs && world.s.procs[p] == Ambiguous(h) && world.s.row.Some?
      requires forall i | 0 <= i < |others| :: others[i].p != p
      modifies world, world.txs, world.reviews
      ensures world.Good() && world.s.row.Some?
      ensures found == Truthful(v, h in world.s.applied)
      ensures match found
              case Applied => p in world.s.procs && world.s.procs[p] == Accepted(h)
              case OnLedgerFailed => p in world.s.procs && world.s.procs[p] == Denied(h, false) && h in world.s.dead
              case Unknown => p !in world.s.procs
      ensures old(world.s).applied <= world.s.applied
      ensures others == [] ==> world.s.row == old(world.s).row && world.s.applied == old(world.s).applied
    {
      hide Reachable;
      world.Others(p, others);
      found := world.TransactionDetail(h, v);
      world.Did(p, Lifecycle.LookUp(found));
    }

    /** One lookup, run in state `at`, after no attempt got a verdict: the row is settled exactly if the ledger has
        one, and left for reconciliation otherwise. */
    method TryResolveAmbiguous(p: Pid, h: Hash, a: Answers, o: Interleaving<Step>) returns (final: Outcome, ghost at: State)
      requires world.Good() && p in world.s.procs && world.s.procs[p] == Ambiguous(h) && world.s.row.Some? && Foreign(o, p)
      modifies world, world.txs, world.reviews
      ensures world.Good() && p !in world.s.procs && world.s.row.Some?
      ensures old(world.s).applied <= at.applied <= world.s.applied
      ensures final == if a.lookup == Applied && h in at.applied then Resolved(true)
                       else if a.lookup == OnLedgerFailed && h !in at.applied then Resolved(false)
                       else LeftForReconciliation
      ensures final == Resolved(true) ==> h in world.s.applied && (!a.finalWriteErrs ==> world.s.row.value.status == Confirmed)
      ensures final == Resolved(false) ==> h in world.s.dead && (!a.finalWriteErrs ==> FailedWith(world.s.row.value, h))
      ensures Quiet(o) ==>
                && at.applied == old(world.s).applied
                && world.s.row.value == if final.LeftForReconciliation? || a.finalWriteErrs then old(world.s).row.value
                                        else WithStatus(old(world.s).row.value, if final.paid then Confirmed else Failed, Some(h))
    {
      hide Reachable;
      var found := LookUp(p, h, a.lookup, o(5));
      at := world.s;
      if found.Unknown? { return LeftForReconciliation, at; }
      ghost var last := Finish(p, h, found.Applied?, a.finalWriteErrs, o(6));
      final := Resolved(found.Applied?);
    }

    /** One delivery of the task. Whatever the others do between its statements, it takes steps of the step
        system only, it reports a payment only if the network applied its envelope, and, in an environment
        that keeps its promises, no second envelope of the transfer exists, and a payment reported as refused
        can still be made exactly if the first answer left it in doubt and the ledger has not failed it. */
    method SubmitTransfer(p: Pid, a: Answers, o: Interleaving<Step>) returns (final: Outcome)
      requires world.Good() && p !in world.s.procs && world.s.row.Some? && Tasks(world.s) > 0
      requires (a.hashWriteErrs ==> world.env.hashWriteMayFail) && (world.env.doubtfulRejections || Candid(a))
      requires Foreign(o, p)
      modifies world, world.txs, world.reviews
      ensures world.Good() && p !in world.s.procs
      ensures final == NotClaimed || Possible(a, final)
      ensures final == Resolved(true) ==> a.envelope.Some? && a.envelope.value in world.s.applied
      ensures LifecycleSafety.Promised(world.env) ==>
                && world.s.applied <= world.s.sent && |world.s.sent| <= 1
                && (final == Resolved(true) ==> world.s.sent == {a.envelope.value})
      ensures LifecycleSafety.Promised(world.env) && final == Refusal ==>
                && a.envelope.Some?
                && (LifecycleOutcomes.MayBePaid(world.env, world.s, a.envelope.value) <==>
                    FirstDoubts(a) && a.envelope.value !in world.s.dead)
      ensures final !in {NotClaimed, PayoutRefused, Abandoned} ==>
                a.envelope.Some? && Justified(a, a.envelope.value, final, old(world.s).applied, world.s)
      ensures final == PayoutRefused ==> a.payout
      ensures final == Abandoned ==> !a.payout && a.envelope.None?
      ensures Quiet(o) ==>
                && (final == NotClaimed <==> old(world.s).row.value.status != Pending)
                && world.s.row == Some(Settled(a, old(world.s).row.value,
                                               a.envelope.Some? && a.envelope.value in old(world.s).applied,
                                               a.envelope.Some? && a.envelope.value in old(world.s).dead))
    {
      hide Reachable;
      final := Deliver(p, a, o);
      if LifecycleSafety.Promised(world.env) {
        LifecycleSafety.OneEnvelope(world.env, world.s);
        if final == Refusal { RefusedIsPaidIff(a.envelope.value, FirstDoubts(a)); }
      }
    }

    lemma RefusedIsPaidIff(h: Hash, doubt: bool)
      requires world.Good() && LifecycleSafety.Promised(world.env) && h in if doubt then world.s.payable else world.s.rejected
      ensures LifecycleOutcomes.MayBePaid(world.env, world.s, h) <==> doubt && h !in world.s.dead
    {
      hide Reachable;
      if h in world.s.dead {
        LifecycleOutcomes.DeadIsNeverPaid(world.env, world.s, h);
      } else if doubt {
        LifecycleOutcomes.MayApply(world.env, world.s, h);
      } else {
        LifecycleOutcomes.RejectedIsNeverPaid(world.env, world.s, h);
      }
    }

    method Deliver(p: Pid, a: Answers, o: Interleaving<Step>) returns (final: Outcome)
      requires world.Good() && p !in world.s.procs && world.s.row.Some? && Tasks(world.s) > 0
      requires (a.hashWriteErrs ==> world.env.hashWriteMayFail) && (world.env.doubtfulRejections || Candid(a))
      requires Foreign(o, p)
      modifies world, world.txs, world.reviews
      ensures world.Good() && p !in world.s.procs
      ensures final == NotClaimed || Possible(a, final)
      ensures final == Resolved(true) ==> a.envelope.Some? && a.envelope.value in world.s.applied
      ensures final == Refusal ==>
                a.envelope.Some? && a.envelope.value in if FirstDoubts(a) then world.s.payable else world.s.rejected
      ensures final !in {NotClaimed, PayoutRefused, Abandoned} ==>
                a.envelope.Some? && Justified(a, a.envelope.value, final, old(world.s).applied, world.s)
      ensures final == PayoutRefused ==> a.payout
      ensures final == Abandoned ==> !a.payout && a.envelope.None?
      ensures Quiet(o) ==>
                && (final == NotClaimed <==> old(world.s).row.value.status != Pending)
                && world.s.row == Some(Settled(a, old(world.s).row.value,
                                               a.envelope.Some? && a.envelope.value in old(world.s).applied,
                                               a.envelope.Some? && a.envelope.value in old(world.s).dead))
    {
      hide Reachable, Do, Justified;
      var claimed;
      ghost var at;
      claimed, at := Claim(p, o(0));
      if !claimed { return NotClaimed; }
      if a.payout {
        at := RefusePayout(p, a.finalWriteErrs, o(1));
        return PayoutRefused;
      }
      if a.envelope.None? {
        Abandon(p);
        return Abandoned;
      }
      var h := a.envelope.value;
      at := RecordHash(p, h, a.hashWriteErrs, o(1));
      ghost var recorded := world.s.applied;
      final := SubmitAndSettle(p, h, a, o);
      JustifiedSince(a, h, final, old(world.s).applied, recorded, world.s);
    }

    /** An error before the envelope was signed: the claimed row stays as it is. */
    method Abandon(p: Pid)
      requires world.Good() && p in world.s.procs && world.s.procs[p] == Won
      modifies world
      ensures world.Good() && p !in world.s.procs && world.s.row == old(world.s).row
    {
      hide Reachable;
      world.Did(p, Stop);
    }

    method SubmitAndSettle(p: Pid, h: Hash, a: Answers, o: Interleaving<Step>) returns (final: Outcome)
      requires world.Good() && p in world.s.procs && world.s.procs[p] == Sending(h, 0) && world.s.row.Some? && Foreign(o, p)
      requires !a.payout && a.envelope == Some(h) && (world.env.doubtfulRejections || Candid(a))
      modifies world, world.txs, world.reviews
      ensures world.Good() && p !in world.s.procs
      ensures Possible(a, final) && final !in {NotClaimed, PayoutRefused, Abandoned}
      ensures Justified(a, h, final, old(world.s).applied, world.s)
      ensures final == Resolved(true) ==> h in world.s.applied
      ensures final == Refusal ==> h in if FirstDoubts(a) then world.s.payable else world.s.rejected
      ensures Quiet(o) ==>
                && final == Conclusion(a, h in old(world.s).applied, h in old(world.s).dead)
                && world.s.row ==
                   Some(if final.LeftForReconciliation? || a.finalWriteErrs then old(world.s).row.value
                        else WithStatus(old(world.s).row.value, if final == Resolved(true) then Confirmed else Failed, Some(h)))
    {
      hide Reachable, Do, Heard, Undecided, world.Good;
      UndecidedIff(a);
      var v := SubmitWithRetry(p, h, a, o);
      match v
      case Paid =>
        ghost var at := Finish(p, h, true, a.finalWriteErrs, o(5));
        final := Resolved(true);
      case NoVerdict =>
        ghost var seen;
        final, seen := TryResolveAmbiguous(p, h, a, o);
        NotBoth();
      case Refused =>
        ghost var at := Finish(p, h, false, a.finalWriteErrs, o(5));
        final := Refusal;
    }

    lemma NotBoth()
      requires world.Good()
      ensures world.s.applied !! world.s.dead
    {
      AppliedIsNotDead(world.env, world.s);
    }
  }

  /** No attempt that was made got a verdict. */
  ghost predicate Undecided(a: Answers) {
    forall k: nat | Made(a, k) :: a.responses(k) == Retryable
  }

  /** Some attempt that was made met a rejection, what reads as one, or a ledger that had failed the envelope. */
  ghost predicate TurnedDown(a: Answers, dead: bool) {
    exists k: nat :: Made(a, k) && (a.responses(k) in {Definite, Misread} || (dead && a.responses(k) == Success))
  }

  /** An undisturbed delivery of a pending row leaves it confirmed exactly if the final write succeeds and
      some attempt was accepted, or no attempt got a verdict and the lookup finds the envelope applied. */
  lemma {:induction false} SettledConfirmedIff(a: Answers, row: Row, applied: bool, dead: bool)
    requires row.status == Pending
    ensures Settled(a, row, applied, dead).status == Confirmed <==>
            && !a.payout && a.envelope.Some? && !a.finalWriteErrs
            && ((!dead && exists k: nat :: Made(a, k) && a.responses(k) == Success)
                || (Undecided(a) && a.lookup == Applied && applied))
  {
    HeardIff(a, 0, dead);
  }

  /** It leaves it failed exactly if the final write succeeds and the transfer goes to a raw address, some attempt
      was turned down, or no attempt got a verdict and the lookup finds that the ledger failed the envelope. */
  lemma {:induction false} SettledFailedIff(a: Answers, row: Row, applied: bool, dead: bool)
    requires row.status == Pending
    ensures Settled(a, row, applied, dead).status == Failed <==>
            && !a.finalWriteErrs
            && (a.payout
                || (a.envelope.Some?
                    && (TurnedDown(a, dead) || (Undecided(a) && a.lookup == OnLedgerFailed && !applied))))
  {
    HeardIff(a, 0, dead);
    assert forall r :: Rejects(r, dead) <==> r in {Definite, Misread} || (dead && r == Success);
  }

  /** And in every other case it leaves it submitted: the final write failed, nothing was signed, or neither the
      network nor the ledger had a verdict. The hash is that of the envelope, except that a refused payout has none,
      and that a submitted row has none if nothing was signed or the hash write failed. */
  lemma {:induction false} SettledSubmittedIff(a: Answers, row: Row, applied: bool, dead: bool)
    requires row.status == Pending
    ensures var r := Settled(a, row, applied, dead);
            && (r.status == Submitted <==>
                  || a.finalWriteErrs
                  || (!a.payout && a.envelope.None?)
                  || (!a.payout && Undecided(a) && !(a.lookup == Applied && applied) && !(a.lookup == OnLedgerFailed && !applied)))
            && r.status in {Submitted, Confirmed, Failed}
            && r == row.(status := r.status, hash := r.hash)
            && r.hash == (if a.payout then (if r.status == Failed then None else row.hash)
                          else if r.status == Submitted && a.hashWriteErrs then row.hash
                          else if a.envelope.Some? then a.envelope else row.hash)
  {
    HeardIff(a, 0, dead);
  }
}
