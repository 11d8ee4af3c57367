/** The compliance service: deciding a review, and releasing or failing the transfer behind it. */
module Reviews {
  import opened Common
  import opened Transactions
  import opened Lifecycle
  import opened World
  import LifecycleInvariants

  datatype Answers = Answers(decideErrs: bool, writeErrs: bool, enqueueErrs: bool)

  datatype Decision = Done | NotPending | Errored

  /** The review holds the decision, and the transfer has followed it. */
  predicate Settled(s: State, approve: bool) {
    && s.review == Some(if approve then Approved else Rejected)
    && s.row.Some?
    && if approve then s.row.value.status != ComplianceHold else s.row.value.status == Failed && s.row.value.hash.None?
  }

  class Service {
    const world: World

    constructor (world: World)
      ensures this.world == world
    {
      this.world := world;
    }

    /** Approves or rejects the review. Only the caller whose decision wins touches the transfer, and the
        row is pending again before it is enqueued. */
    method Decide(p: Pid, approve: bool, a: Answers, o: Interleaving<Step>) returns (d: Decision)
      requires world.Good() && p !in world.s.procs && world.s.row.Some? && world.s.review.Some? && Foreign(o, p)
      modifies world, world.txs, world.reviews
      ensures world.Good() && p !in world.s.procs
      ensures d == Done ==> Settled(world.s, approve) && (approve && !a.enqueueErrs ==> world.s.firstTasks == 1)
      ensures d == NotPending ==> world.s.review != Some(ReviewPending)
      ensures d == Errored ==> a.decideErrs || a.writeErrs
      ensures Quiet(o) && old(world.s).review != Some(ReviewPending) ==> d == NotPending && world.s == old(world.s)
      ensures Quiet(o) && old(world.s).review == Some(ReviewPending) && !a.decideErrs ==>
                && d == (if a.writeErrs then Errored else Done)
                && world.s.review == Some(if approve then Approved else Rejected)
                && world.s.row.Some?
                && world.s.row.value == (if a.writeErrs then old(world.s).row.value
                                         else WithStatus(old(world.s).row.value, if approve then Pending else Failed, None))
                && world.s.firstTasks == old(world.s).firstTasks + (if approve && !a.writeErrs && !a.enqueueErrs then 1 else 0)
    {
      hide Reachable;
      if world.reviews.review != Some(ReviewPending) { return NotPending; }
      world.Did(p, OpenReview(approve));
      var won := Win(p, approve, a.decideErrs, o(0));
      if !won { return if a.decideErrs then Errored else NotPending; }
      if approve {
        d := ReleaseTransfer(p, a, o);
      } else {
        d := FailTransfer(p, a.writeErrs, o(1));
      }
    }

    /** The guarded decision: true for one caller at most. */
    method Win(p: Pid, approve: bool, errs: bool, others: seq<Step>) returns (won: bool)
      requires world.Good() && p in world.s.procs && world.s.procs[p] == Deciding(approve)
      requires world.s.row.Some? && world.s.review == Some(ReviewPending)
      requires forall i | 0 <= i < |others| :: others[i].p != p
      modifies world, world.txs, world.reviews
      ensures world.Good() && world.s.row.Some?
      ensures if won then p in world.s.procs && world.s.procs[p] == Decided(approve) else p !in world.s.procs
      ensures won ==> world.s.review == Some(if approve then Approved else Rejected)
      ensures !won && !errs ==> world.s.review != Some(ReviewPending)
      ensures errs ==> !won
      ensures others == [] ==>
                && won == !errs && world.s.row == old(world.s).row && world.s.firstTasks == old(world.s).firstTasks
    {
      hide Reachable;
      world.Others(p, others);
      if errs {
        world.Did(p, Stop);
        return false;
      }
      won := world.reviews.DecideReview(if approve then Approved else Rejected);
      world.Did(p, Lifecycle.Decide);
    }

    /** Pending first, then enqueued; a failed enqueue is only logged. */
    method ReleaseTransfer(p: Pid, a: Answers, o: Interleaving<Step>) returns (d: Decision)
      requires world.Good() && p in world.s.procs && world.s.procs[p] == Decided(true) && world.s.row.Some?
      requires Foreign(o, p)
      modifies world, world.txs, world.reviews
      ensures world.Good() && p !in world.s.procs
      ensures d == if a.writeErrs then Errored else Done
      ensures d == Done ==> Settled(world.s, true) && (!a.enqueueErrs ==> world.s.firstTasks == 1)
      ensures Quiet(o) ==>
                && world.s.review == old(world.s).review && world.s.row.Some?
                && world.s.row.value == (if a.writeErrs then old(world.s).row.value
                                         else WithStatus(old(world.s).row.value, Pending, None))
                && world.s.firstTasks == old(world.s).firstTasks + (if !a.writeErrs && !a.enqueueErrs then 1 else 0)
    {
      hide Reachable;
      Free(p, a.writeErrs, o(1));
      if a.writeErrs { return Errored; }
      world.Others(p, o(2));
      LifecycleInvariants.ReleasingKnows(world.env, world.s, p);
      world.Did(p, EnqueueFirst(!a.enqueueErrs));
      d := Done;
    }

    method Free(p: Pid, writeErrs: bool, others: seq<Step>)
      requires world.Good() && p in world.s.procs && world.s.procs[p] == Decided(true) && world.s.row.Some?
      requires forall i | 0 <= i < |others| :: others[i].p != p
      modifies world, world.txs, world.reviews
      ensures world.Good() && world.s.row.Some?
      ensures if writeErrs then p !in world.s.procs else p in world.s.procs && world.s.procs[p] == Releasing
      ensures !writeErrs ==> world.s.row.value.status == Pending && world.s.row.value.hash.None?
      ensures others == [] ==>
                && world.s.review == old(world.s).review && world.s.firstTasks == old(world.s).firstTasks
                && world.s.row.value == if writeErrs then old(world.s).row.value
                                        else WithStatus(old(world.s).row.value, Pending, None)
    {
      hide Reachable;
      world.Others(p, others);
      if writeErrs {
        world.Did(p, Stop);
      } else {
        LifecycleInvariants.DecidedKnows(world.env, world.s, p);
        world.txs.UpdateStatus(world.id, Pending, None);
        world.Did(p, Release);
      }
    }

    method FailTransfer(p: Pid, writeErrs: bool, others: seq<Step>) returns (d: Decision)
      requires world.Good() && p in world.s.procs && world.s.procs[p] == Decided(false) && world.s.row.Some?
      requires forall i | 0 <= i < |others| :: others[i].p != p
      modifies world, world.txs, world.reviews
      ensures world.Good() && p !in world.s.procs && world.s.row.Some?
      ensures d == if writeErrs then Errored else Done
      ensures d == Done ==> Settled(world.s, false)
      ensures others == [] ==>
                && world.s.review == old(world.s).review && world.s.firstTasks == old(world.s).firstTasks
                && world.s.row.value == if writeErrs then old(world.s).row.value
                                        else WithStatus(old(world.s).row.value, Failed, None)
    {
      hide Reachable;
      world.Others(p, others);
      if writeErrs {
        world.Did(p, Stop);
        return Errored;
      }
      LifecycleInvariants.DecidedKnows(world.env, world.s, p);
      world.txs.UpdateStatus(world.id, Failed, None);
      world.Did(p, RejectTransfer);
      d := Done;
    }
  }
}

/** Creating a transfer: screen, persist, then hold or enqueue. */
module Transfers {
  import opened Common
  import opened Transactions
  import opened Lifecycle
  import opened World
  import LifecycleInvariants
  import Screening

  datatype Answers = Answers(createErrs: bool, reviewErrs: bool, enqueueErrs: bool)

  datatype Outcome = BlockedBySanctions | NotPersisted | HeldUnrecorded | Held | Placed

  class Service {
    const world: World

    constructor (world: World)
      ensures this.world == world
    {
      this.world := world;
    }

    /** `screeners` is None when screening is not configured. The transfer is enqueued only on the route
        that proceeds, and only if every screener answered without holding or blocking. */
    method Initiate(p: Pid, screeners: Option<seq<Screening.Screener>>, a: Answers, o: Interleaving<Step>) returns (r: Outcome)
      requires world.Good() && p !in world.s.procs && world.s.row.None? && Foreign(o, p)
      modifies world, world.txs, world.reviews
      ensures world.Good() && p !in world.s.procs
      ensures r == Placed <==>
              && !a.createErrs
              && (screeners.Some? ==>
                    forall s | s in screeners.value :: s.answer.Some? && s.answer.value.status !in {Screening.Hold, Screening.Blocked})
      ensures r == BlockedBySanctions <==>
              && screeners.Some?
              && exists s | s in screeners.value :: s.answer.Some? && s.answer.value.status == Screening.Blocked
      ensures r == NotPersisted <==> a.createErrs && r != BlockedBySanctions
      ensures r == HeldUnrecorded ==> a.reviewErrs
      ensures r == Held ==> !a.reviewErrs
      ensures r in {BlockedBySanctions, NotPersisted} ==> world.s == old(world.s)
      ensures Quiet(o) && r !in {BlockedBySanctions, NotPersisted} ==>
                && world.s.row == Some(Row(if r == Placed then Pending else ComplianceHold, None, 0, 0))
                && (world.s.review == if r == Held then Some(ReviewPending) else old(world.s).review)
                && world.s.firstTasks == old(world.s).firstTasks + (if r == Placed && !a.enqueueErrs then 1 else 0)
    {
      hide Reachable;
      LifecycleInvariants.NoRowNoReview(world.env, world.s);
      var decision: Option<Screening.Decision> := None;
      if screeners.Some? {
        var out := Screening.ScreenAll(screeners.value);
        Screening.ProceedsIff(screeners.value, out);
        Screening.BlockedIff(screeners.value, out);
        decision := Some(Screening.Screened(Some(out)));
      }
      var route := Screening.RouteOf(decision);
      if route == Screening.Refuse { return BlockedBySanctions; }
      if a.createErrs { return NotPersisted; }
      r := Persist(p, route == Screening.Park, a, o(0));
    }

    method Persist(p: Pid, hold: bool, a: Answers, others: seq<Step>) returns (r: Outcome)
      requires world.Good() && p !in world.s.procs && world.s.row.None?
      requires forall i | 0 <= i < |others| :: others[i].p != p
      modifies world, world.txs, world.reviews
      ensures world.Good() && p !in world.s.procs
      ensures r == if !hold then Placed else if a.reviewErrs then HeldUnrecorded else Held
      ensures others == [] ==>
                && world.s.row == Some(Row(if hold then ComplianceHold else Pending, None, 0, 0))
                && (world.s.review == if r == Held && old(world.s).review.None? then Some(ReviewPending) else old(world.s).review)
                && world.s.firstTasks == old(world.s).firstTasks + (if !hold && !a.enqueueErrs then 1 else 0)
    {
      hide Reachable;
      var ok := world.txs.Create(world.id, Row(if hold then ComplianceHold else Pending, None, 0, 0));
      world.Did(p, Create(hold));
      world.Others(p, others);
      if !hold {
        world.Did(p, EnqueueFirst(!a.enqueueErrs));
        return Placed;
      }
      r := RecordHold(p, a.reviewErrs);
    }

    method RecordHold(p: Pid, errs: bool) returns (r: Outcome)
      requires world.Good() && p in world.s.procs && world.s.procs[p] == HoldCreated
      modifies world, world.reviews
      ensures world.Good() && p !in world.s.procs
      ensures r == if errs then HeldUnrecorded else Held
      ensures world.s.row == old(world.s).row && world.s.firstTasks == old(world.s).firstTasks
      ensures world.s.review == if !errs && old(world.s).review.None? then Some(ReviewPending) else old(world.s).review
    {
      hide Reachable;
      if errs {
        world.Did(p, Stop);
        return HeldUnrecorded;
      }
      world.reviews.CreateReview();
      world.Did(p, Lifecycle.RecordHold);
      r := Held;
    }
  }
}
