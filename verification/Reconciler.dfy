/** The reconciler: what one pass does to one transfer, statement by statement. */
module Reconciler {
  import opened Common
  import opened Transactions
  import opened Lifecycle
  import opened World
  import Payments

  const STUCK_THRESHOLD: int := 10

  /** The ledger's answer about a confirmed transfer. */
  datatype Audit = NoAnswer | NotOnLedger | Unsuccessful | Found(ops: seq<Payments.Op>)

  datatype Recovery = Skipped | Requeued(n: nat) | Exhausted(n: nat)

  /** What the environment answers during the recovery of one row. */
  datatype Answers = Answers(resetErrs: bool, incrementErrs: bool, writeErrs: bool, enqueueErrs: bool)

  /** What an undisturbed pass makes of a row. */
  function Recovered(row: Row, now: int, a: Answers): (Row, Recovery) {
    if !Stuck(row) || row.createdAt >= now - STUCK_THRESHOLD || (row.status == Submitted && a.resetErrs) then (row, Skipped)
    else
      var given := row.(status := Pending);
      var n := row.requeues + 1;
      if a.incrementErrs then (given, Skipped)
      else if n > MAX_REQUEUES then (given.(requeues := n, status := if a.writeErrs then Pending else Failed), Exhausted(n))
      else (given.(requeues := n), if a.enqueueErrs then Skipped else Requeued(n))
  }

  /** The row is old, and pending or given back: what recovery goes on with. */
  predicate Recoverable(row: Row, now: int, resetErrs: bool) {
    && row.createdAt < now - 10
    && (row.status == Pending || (row.status == Submitted && row.hash.None? && !resetErrs))
  }

  /** A row that is not recoverable is left alone; otherwise it is pending and counted, enqueued up to three times
      and then failed. */
  lemma RecoveredIff(row: Row, now: int, a: Answers)
    ensures var (after, r) := Recovered(row, now, a);
            var go := Recoverable(row, now, a.resetErrs);
            && (r.Requeued? <==> go && !a.incrementErrs && !a.enqueueErrs && row.requeues < 3)
            && (r.Exhausted? <==> go && !a.incrementErrs && row.requeues >= 3)
            && (r.Requeued? ==> r.n == row.requeues + 1) && (r.Exhausted? ==> r.n == row.requeues + 1)
            && after.requeues == row.requeues + (if go && !a.incrementErrs then 1 else 0)
            && after.status == (if !go then row.status else if r.Exhausted? && !a.writeErrs then Failed else Pending)
            && after.hash == row.hash && after.createdAt == row.createdAt
  {
  }

  /** Since then a task was created, the last one with this count. */
  predicate NewTask(before: State, after: State, n: nat) {
    |before.requeued| < |after.requeued| && after.requeued[|after.requeued| - 1] == n
  }

  /** The ledger does not show the payment the transfer stands for. */
  ghost predicate Disagreement(cfg: Payments.Config, wallets: map<string, string>, tx: Payments.Transfer, a: Audit) {
    match a
    case NoAnswer => false
    case NotOnLedger | Unsuccessful => true
    case Found(ops) =>
      var expected := Payments.BuildExpected(cfg, wallets, tx);
      expected.Ok? && !Payments.Accepted(ops, expected.value)
  }

  lemma FoundIff(cfg: Payments.Config, wallets: map<string, string>, tx: Payments.Transfer, a: Audit)
    ensures a.Found? && Payments.BuildPayments(cfg, wallets, tx).Ok? && Payments.BuildExpected(cfg, wallets, tx).Ok?
            && Payments.EndsKnown(wallets, tx) ==>
              (Disagreement(cfg, wallets, tx, a) <==> !Payments.ShowsBuilt(cfg, wallets, tx, a.ops))
  {
    if a.Found? && Payments.BuildPayments(cfg, wallets, tx).Ok? && Payments.BuildExpected(cfg, wallets, tx).Ok?
       && Payments.EndsKnown(wallets, tx) {
      Payments.AcceptedIff(cfg, wallets, tx, a.ops);
    }
  }

  class Service {
    const world: World

    constructor (world: World)
      ensures this.world == world
    {
      this.world := world;
    }

    /** One row listed as pending or submitted with a hash: look the hash up and correct the row. */
    method CheckPendingTransaction(p: Pid, v: Verdict, staleMiss: bool, writeErrs: bool, o: Interleaving<Step>)
      returns (discrepancy: bool, correction: bool)
      requires world.Good() && p !in world.s.procs && Foreign(o, p)
      requires world.s.row.Some? && world.s.row.value.status in {Pending, Submitted} && world.s.row.value.hash.Some?
      modifies world, world.txs, world.reviews
      ensures world.Good() && p !in world.s.procs && world.s.row.Some?
      ensures correction ==> discrepancy && !writeErrs
      ensures v.Unknown? ==> discrepancy == staleMiss && !correction
      ensures var h := old(world.s).row.value.hash.value;
              (v.Applied? && h in old(world.s).applied) || (v.OnLedgerFailed? && h !in world.s.applied) ==> discrepancy
      ensures correction ==>
                var h := old(world.s).row.value.hash.value;
                || (v.Applied? && h in world.s.applied
                    && world.s.row.value.status == Confirmed && world.s.row.value.hash == Some(h))
                || (v.OnLedgerFailed? && h in world.s.dead && world.s.row.value.status == Failed)
      ensures Quiet(o) ==>
                var row, applied := old(world.s).row.value, old(world.s).row.value.hash.value in old(world.s).applied;
                var paid, failed := v.Applied? && applied, v.OnLedgerFailed? && !applied;
                && discrepancy == (paid || failed || staleMiss)
                && correction == ((paid || failed) && !writeErrs)
                && world.s.row.value == row.(status := if !correction then row.status else if paid then Confirmed else Failed)
    {
      hide Reachable;
      var h := world.txs.rows[world.id].hash.value;
      world.Did(p, ListAwaiting);
      var found := LookUp(p, h, v, o(0));
      if found.Unknown? { return staleMiss, false; }
      world.Others(p, o(1));
      correction := Correct(p, h, found.Applied?, writeErrs);
      discrepancy := true;
    }

    method LookUp(p: Pid, h: Hash, v: Verdict, others: seq<Step>) returns (found: Verdict)
      requires world.Good() && p in world.s.procs && world.s.procs[p] == Checking(h) && world.s.row.Some?
      requires forall i | 0 <= i < |others| :: others[i].p != p
      modifies world, world.txs, world.reviews
      ensures world.Good() && world.s.row.Some?
      ensures found == Truthful(v, h in world.s.applied)
      ensures match found
              case Applied => p in world.s.procs && world.s.procs[p] == FoundApplied(h) && h in world.s.applied
              case OnLedgerFailed => p in world.s.procs && world.s.procs[p] == FoundFailed(h) && h in world.s.dead
              case Unknown => p !in world.s.procs
      ensures old(world.s).applied <= world.s.applied
      ensures others == [] ==> world.s.row == old(world.s).row && world.s.applied == old(world.s).applied
    {
      hide Reachable;
      world.Others(p, others);
      found := world.TransactionDetail(h, v);
      world.Did(p, LookUpListed(found));
    }

    method Correct(p: Pid, h: Hash, paid: bool, writeErrs: bool) returns (ok: bool)
      requires world.Good() && p in world.s.procs && world.s.row.Some?
      requires world.s.procs[p] == if paid then FoundApplied(h) else FoundFailed(h)
      modifies world, world.txs
      ensures world.Good() && p !in world.s.procs && world.s.row.Some? && world.s.applied == old(world.s).applied
      ensures world.s.dead == old(world.s).dead
      ensures ok == (Unsettled(old(world.s).row.value) && !writeErrs)
      ensures world.s.row.value ==
                if !ok then old(world.s).row.value
                else if paid then old(world.s).row.value.(status := Confirmed, hash := Some(h))
                else old(world.s).row.value.(status := Failed)
    {
      hide Reachable;
      if writeErrs {
        world.Did(p, Stop);
        return false;
      }
      if paid {
        ok := world.txs.UpdateTxConfirmed(world.id, h);
        world.Did(p, CorrectConfirmed);
      } else {
        ok := world.txs.UpdateTxFailed(world.id);
        world.Did(p, CorrectFailed);
      }
    }

    /** The audit of one confirmed row, against the payment it should have been. A transfer whose payment cannot
        be rebuilt is left alone, and one that shows what the engine builds is never flagged. */
    method CheckTransaction(p: Pid, cfg: Payments.Config, wallets: map<string, string>, tx: Payments.Transfer, a: Audit,
                            writeErrs: bool, o: Interleaving<Step>)
      returns (flagged: bool)
      requires world.Good() && p !in world.s.procs && Foreign(o, p)
      requires world.s.row.Some? && world.s.row.value.status == Confirmed && world.s.row.value.hash.Some?
      modifies world, world.txs, world.reviews
      ensures world.Good() && p !in world.s.procs && world.s.row.Some?
      ensures flagged <==> !writeErrs && Disagreement(cfg, wallets, tx, a)
      ensures flagged && a.Found? && Payments.BuildPayments(cfg, wallets, tx).Ok? ==>
                a.ops != Payments.ReportedAll(wallets[tx.fromWallet], Payments.BuildPayments(cfg, wallets, tx).value)
      ensures a.NotOnLedger? || a.Unsuccessful? ==> flagged == !writeErrs
      ensures a.NoAnswer? || (a.Found? && Payments.BuildExpected(cfg, wallets, tx).Err?) ==> !flagged
      ensures a.Found? && Payments.BuildPayments(cfg, wallets, tx).Ok? && Payments.BuildExpected(cfg, wallets, tx).Ok?
              && Payments.EndsKnown(wallets, tx) ==>
                flagged == (!writeErrs && !Payments.ShowsBuilt(cfg, wallets, tx, a.ops))
      ensures flagged ==> world.s.row.value.status == ReconciliationFailed
      ensures Quiet(o) ==>
                world.s.row.value == if flagged then old(world.s).row.value.(status := ReconciliationFailed)
                                     else old(world.s).row.value
    {
      hide Reachable;
      var mismatch := Disagrees(cfg, wallets, tx, a);
      FoundIff(cfg, wallets, tx, a);
      world.Did(p, ListConfirmed);
      flagged := mismatch && !writeErrs;
      ghost var at := Conclude(p, flagged, o(0));
    }

    method Disagrees(cfg: Payments.Config, wallets: map<string, string>, tx: Payments.Transfer, a: Audit)
      returns (mismatch: bool)
      ensures mismatch <==> Disagreement(cfg, wallets, tx, a)
      ensures mismatch && a.Found? && Payments.BuildPayments(cfg, wallets, tx).Ok? ==>
                a.ops != Payments.ReportedAll(wallets[tx.fromWallet], Payments.BuildPayments(cfg, wallets, tx).value)
    {
      match a
      case NoAnswer => return false;
      case NotOnLedger => return true;
      case Unsuccessful => return true;
      case Found(ops) =>
        var expected := Payments.BuildExpected(cfg, wallets, tx);
        if expected.Err? { return false; }
        var amountOk, assetOk, feeOk := Payments.VerifyOps(ops, expected.value);
        mismatch := !amountOk || !assetOk || !feeOk;
        if Payments.BuildPayments(cfg, wallets, tx).Ok? { Payments.EngineOpsAccepted(cfg, wallets, tx); }
    }

    method Conclude(p: Pid, flagged: bool, others: seq<Step>) returns (ghost at: State)
      requires world.Good() && p in world.s.procs && world.s.procs[p] == Auditing && world.s.row.Some?
      requires forall i | 0 <= i < |others| :: others[i].p != p
      modifies world, world.txs, world.reviews
      ensures world.Good() && p !in world.s.procs && world.s.row.Some?
      ensures at.row.Some?
      ensures world.s.row.value == if flagged then at.row.value.(status := ReconciliationFailed) else at.row.value
      ensures others == [] ==> at.row == old(world.s).row
    {
      hide Reachable;
      world.Others(p, others);
      at := world.s;
      if flagged {
        world.txs.UpdateReconciliationStatus(world.id, ReconciliationFailed);
        world.Did(p, FlagMismatch);
      } else {
        world.Did(p, Stop);
      }
    }

    /** The recovery of one row, if it is stuck. The age of the row alone decides whether its claim is given
        back, and nothing but the count whether it is given up, so the runs are those of an environment that may
        reset a row still being worked on and give up on one no longer stuck. */
    method RecoverPending(p: Pid, now: int, a: Answers, o: Interleaving<Step>) returns (r: Recovery)
      requires world.Good() && p !in world.s.procs && Foreign(o, p)
      requires world.env.resetWhileClaimed && world.env.staleGiveUps
      modifies world, world.txs, world.reviews
      ensures world.Good() && p !in world.s.procs
      ensures r.Requeued? ==> 1 <= r.n <= 3 && NewTask(old(world.s), world.s, r.n)
      ensures r.Exhausted? ==> r.n > 3 && (!a.writeErrs ==> world.s.row.Some? && world.s.row.value.status == Failed)
      ensures Quiet(o) && old(world.s).row.Some? ==>
                && r == Recovered(old(world.s).row.value, now, a).1
                && world.s.row == Some(Recovered(old(world.s).row.value, now, a).0)
                && world.s.requeued == old(world.s).requeued + if r.Requeued? then [r.n] else []
    {
      hide Reachable;
      var tx := List(p, now);
      if tx.None? { return Skipped; }
      r := Recover(p, tx.value.status == Submitted, now, a, o);
    }

    /** What follows for a row in the list. */
    method Recover(p: Pid, wasSubmitted: bool, now: int, a: Answers, o: Interleaving<Step>) returns (r: Recovery)
      requires world.Good() && p in world.s.procs && world.s.procs[p] == Listed(wasSubmitted) && world.s.row.Some?
      requires world.env.resetWhileClaimed && world.env.staleGiveUps && Foreign(o, p)
      modifies world, world.txs, world.reviews
      ensures world.Good() && p !in world.s.procs && world.s.row.Some?
      ensures r.Requeued? ==> 1 <= r.n <= 3 && NewTask(old(world.s), world.s, r.n)
      ensures r.Exhausted? ==> r.n > 3 && (!a.writeErrs ==> world.s.row.Some? && world.s.row.value.status == Failed)
      ensures var row := old(world.s).row.value;
              Quiet(o) && Stuck(row) && row.createdAt < now - STUCK_THRESHOLD && wasSubmitted == (row.status == Submitted) ==>
                && world.s.requeued == old(world.s).requeued + (if r.Requeued? then [r.n] else [])
                && (world.s.row.value, r) == Recovered(row, now, a)
    {
      hide Reachable, Do, world.Good;
      var ok;
      ghost var at;
      ok, at := GiveBack(p, wasSubmitted, now, a.resetErrs, o(0));
      if !ok { return Skipped; }
      r := Requeue(p, a, o);
    }

    method List(p: Pid, now: int) returns (tx: Option<Row>)
      requires world.Good() && p !in world.s.procs
      modifies world
      ensures world.Good() && world.s.row == old(world.s).row && world.s.requeued == old(world.s).requeued
      ensures tx.None? ==> p !in world.s.procs
      ensures tx.Some? ==> p in world.s.procs && world.s.procs[p] == Listed(tx.value.status == Submitted)
      ensures tx == if world.s.row.Some? && Stuck(world.s.row.value) && world.s.row.value.createdAt < now - STUCK_THRESHOLD
                    then world.s.row else None
    {
      hide Reachable;
      var found := world.txs.GetStuckPendingTxes(now, STUCK_THRESHOLD);
      if world.id !in found { return None; }
      tx := Some(found[world.id]);
      world.Did(p, ListStuck);
    }

    /** The reset of a row listed as submitted, run in state `at`. */
    method GiveBack(p: Pid, wasSubmitted: bool, now: int, resetErrs: bool, others: seq<Step>) returns (ok: bool, ghost at: State)
      requires world.Good() && p in world.s.procs && world.s.procs[p] == Listed(wasSubmitted) && world.s.row.Some?
      requires world.env.resetWhileClaimed && forall i | 0 <= i < |others| :: others[i].p != p
      modifies world, world.txs, world.reviews
      ensures world.Good() && world.s.row.Some? && at.row.Some?
      ensures if ok then p in world.s.procs && world.s.procs[p] == Requeuing else p !in world.s.procs
      ensures !wasSubmitted ==> ok && world.s.row == old(world.s).row
      ensures wasSubmitted ==>
                var row := at.row.value;
                && ok == (!resetErrs && ResetToPending(row, row.createdAt < now - STUCK_THRESHOLD).Some?)
                && world.s.row.value == if ok then row.(status := Pending) else row
      ensures old(world.s).requeued <= world.s.requeued
      ensures others == [] ==> at.row == old(world.s).row && world.s.requeued == old(world.s).requeued
    {
      hide Reachable, ClaimantRunning;
      at := world.s;
      if !wasSubmitted {
        world.Did(p, Reset(true));
        return true, at;
      }
      world.Others(p, others);
      at := world.s;
      if resetErrs {
        world.Did(p, Stop);
        return false, at;
      }
      var aged := world.txs.rows[world.id].createdAt < now - STUCK_THRESHOLD;
      ok := world.txs.ResetStuckSubmittedToPending(world.id, now, STUCK_THRESHOLD);
      world.Did(p, Reset(aged));
    }

    /** Counts the row and enqueues it again, or gives up on it. */
    method Requeue(p: Pid, a: Answers, o: Interleaving<Step>) returns (r: Recovery)
      requires world.Good() && p in world.s.procs && world.s.procs[p] == Requeuing && world.s.row.Some? && Foreign(o, p)
      requires world.env.staleGiveUps
      modifies world, world.txs, world.reviews
      ensures world.Good() && p !in world.s.procs && world.s.row.Some?
      ensures r.Requeued? ==> 1 <= r.n <= 3 && NewTask(old(world.s), world.s, r.n)
      ensures r.Exhausted? ==> r.n > 3 && (!a.writeErrs ==> world.s.row.Some? && world.s.row.value.status == Failed)
      ensures Quiet(o) ==>
                var row, n := old(world.s).row.value, old(world.s).row.value.requeues + 1;
                && r == (if a.incrementErrs then Skipped else if n > MAX_REQUEUES then Exhausted(n)
                         else if a.enqueueErrs then Skipped else Requeued(n))
                && world.s.row.value == (if a.incrementErrs then row
                                         else row.(requeues := n, status := if r.Exhausted? && !a.writeErrs then Failed else row.status))
                && world.s.requeued == old(world.s).requeued + if r.Requeued? then [n] else []
    {
      hide Reachable;
      var count;
      ghost var at;
      count, at := Count(p, a.incrementErrs, o(1));
      if count.None? { return Skipped; }
      r := EnqueueOrGiveUp(p, count.value, a, o(2));
    }

    method Count(p: Pid, errs: bool, others: seq<Step>) returns (count: Option<nat>, ghost at: State)
      requires world.Good() && p in world.s.procs && world.s.procs[p] == Requeuing && world.s.row.Some?
      requires forall i | 0 <= i < |others| :: others[i].p != p
      modifies world, world.txs, world.reviews
      ensures world.Good() && world.s.row.Some?
      ensures if errs then count == None && p !in world.s.procs
              else count.Some? && count.value >= 1 && p in world.s.procs && world.s.procs[p] == Counted(count.value)
      ensures at.row.Some? && count == (if errs then None else Some(at.row.value.requeues + 1))
      ensures world.s.row.value == if errs then at.row.value else at.row.value.(requeues := at.row.value.requeues + 1)
      ensures old(world.s).requeued <= world.s.requeued
      ensures others == [] ==> at.row == old(world.s).row && world.s.requeued == old(world.s).requeued
    {
      hide Reachable;
      world.Others(p, others);
      at := world.s;
      if errs {
        world.Did(p, Stop);
        return None, at;
      }
      count := world.txs.IncrementRequeueCount(world.id);
      world.Did(p, Increment);
    }

    method EnqueueOrGiveUp(p: Pid, n: nat, a: Answers, others: seq<Step>) returns (r: Recovery)
      requires world.env.staleGiveUps
      requires world.Good() && p in world.s.procs && world.s.procs[p] == Counted(n) && n >= 1 && world.s.row.Some?
      requires forall i | 0 <= i < |others| :: others[i].p != p
      modifies world, world.txs, world.reviews
      ensures world.Good() && p !in world.s.procs && world.s.row.Some?
      ensures r == if n > MAX_REQUEUES then Exhausted(n) else if a.enqueueErrs then Skipped else Requeued(n)
      ensures r.Requeued? ==> NewTask(old(world.s), world.s, n)
      ensures r.Exhausted? && !a.writeErrs ==> world.s.row.value.status == Failed
      ensures others == [] ==>
                && world.s.row.value == (if r.Exhausted? && !a.writeErrs then old(world.s).row.value.(status := Failed)
                                         else old(world.s).row.value)
                && world.s.requeued == old(world.s).requeued + if r.Requeued? then [n] else []
    {
      hide Reachable;
      world.Others(p, others);
      if n > MAX_REQUEUES {
        r := Exhausted(n);
        GiveUp(p, n, a.writeErrs);
      } else {
        r := if a.enqueueErrs then Skipped else Requeued(n);
        world.Did(p, Lifecycle.Requeue(!a.enqueueErrs));
      }
    }

    /** Marks the row failed, whatever its status is by now. */
    method GiveUp(p: Pid, n: nat, writeErrs: bool)
      requires world.env.staleGiveUps
      requires world.Good() && p in world.s.procs && world.s.procs[p] == Counted(n) && n > MAX_REQUEUES && world.s.row.Some?
      modifies world, world.txs
      ensures world.Good() && p !in world.s.procs && world.s.row.Some? && world.s.requeued == old(world.s).requeued
      ensures world.s.row.value == if writeErrs then old(world.s).row.value else old(world.s).row.value.(status := Failed)
    {
      hide Reachable;
      if writeErrs {
        world.Did(p, Stop);
      } else {
        world.txs.UpdateReconciliationStatus(world.id, Failed);
        world.Did(p, MarkExhausted);
      }
    }
  }
}
