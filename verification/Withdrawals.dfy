/** One withdrawal under any number of webhook deliveries, beside the request that created it. */
module WithdrawalRuns {
  import opened Common
  import opened FiatRows

  type Pid = nat

  datatype Pc =
    | Debiting                 // row created, user not debited yet
    | Asking                   // user debited, rail being asked
    | Failing                  // debit or rail erred
    | Seen(status: string)     // delivery that read the row as pending
    | Refunding                // won the failed write

  datatype Action =
    | CreateWithdrawal(w: Withdrawal) | Debit(ok: bool) | RailAnswers(ok: bool) | FailInitiation
    | Deliver(status: string) | Conclude | Refund(ok: bool) | Stop

  datatype Step = Step(p: Pid, act: Action)

  /** What the environment is allowed to do. */
  datatype Env = Env(
    earlyEvents: bool,         // the provider may report on a withdrawal before it was debited
    railMayErr: bool,
    refundMayErr: bool,
    refunderMayStop: bool)     // a process may stop between the failed write and the refund

  datatype State = State(
    row: Option<Withdrawal>,
    procs: map<Pid, Pc>,
    debits: nat,
    refunds: nat,
    refundErrs: nat,           // refunds tried in vain
    refunderStopped: bool,     // a process stopped that had a refund to make
    everCompleted: bool,
    failedByWebhook: bool,
    owner: Option<Pid>)        // who won the failed write of a webhook

  function Initial(): State {
    State(None, map[], 0, 0, 0, false, false, false, None)
  }

  function At(s: State, p: Pid, pc: Pc): State {
    s.(procs := s.procs[p := pc])
  }

  function Gone(s: State, p: Pid): State {
    s.(procs := s.procs - {p})
  }

  function DoDebit(s: State, p: Pid, ok: bool): Option<State> {
    if p !in s.procs || !s.procs[p].Debiting? then None
    else if ok then Some(At(s, p, Asking).(debits := s.debits + 1))
    else Some(At(s, p, Failing))
  }

  function DoFailInitiation(s: State, p: Pid): Option<State> {
    if s.row.None? || p !in s.procs || !s.procs[p].Failing? then None
    else
      match WithdrawalUpdated(s.row.value, Failed)
      case None => Some(Gone(s, p))
      case Some(row) => Some(Gone(s, p).(row := Some(row)))
  }

  function DoDeliver(env: Env, s: State, p: Pid, status: string): Option<State> {
    if s.row.None? || p in s.procs || (!env.earlyEvents && s.debits == 0) then None
    else if s.row.value.status != Pending then Some(s)
    else Some(At(s, p, Seen(status)))
  }

  function DoConclude(s: State, p: Pid): Option<State> {
    if s.row.None? || p !in s.procs || !s.procs[p].Seen? then None
    else if s.procs[p].status == "completed" then
      match WithdrawalUpdated(s.row.value, Completed)
      case None => Some(Gone(s, p))
      case Some(row) => Some(Gone(s, p).(row := Some(row), everCompleted := true))
    else if s.procs[p].status == "failed" then
      match WithdrawalUpdated(s.row.value, Failed)
      case None => Some(Gone(s, p))
      case Some(row) => Some(At(s, p, Refunding).(row := Some(row), failedByWebhook := true, owner := Some(p)))
    else Some(Gone(s, p))
  }

  function DoRefund(env: Env, s: State, p: Pid, ok: bool): Option<State> {
    if p !in s.procs || !s.procs[p].Refunding? then None
    else if ok then Some(Gone(s, p).(refunds := s.refunds + 1))
    else if !env.refundMayErr then None
    else Some(Gone(s, p).(refundErrs := s.refundErrs + 1))
  }

  function DoRailAnswers(env: Env, s: State, p: Pid, ok: bool): Option<State> {
    if p !in s.procs || !s.procs[p].Asking? then None
    else if ok then Some(Gone(s, p))
    else if !env.railMayErr then None
    else Some(At(s, p, Failing))
  }

  function DoStop(env: Env, s: State, p: Pid): Option<State> {
    if p !in s.procs then None
    else if !s.procs[p].Refunding? then Some(Gone(s, p))
    else if !env.refunderMayStop then None
    else Some(Gone(s, p).(refunderStopped := true))
  }

  function Do(env: Env, s: State, step: Step): Option<State> {
    var p := step.p;
    match step.act
    case CreateWithdrawal(w) =>
      if s.row.Some? || p in s.procs then None else Some(At(s, p, Debiting).(row := Some(w.(status := Pending))))
    case Debit(ok) => DoDebit(s, p, ok)
    case RailAnswers(ok) => DoRailAnswers(env, s, p, ok)
    case FailInitiation => DoFailInitiation(s, p)
    case Deliver(status) => DoDeliver(env, s, p, status)
    case Conclude => DoConclude(s, p)
    case Refund(ok) => DoRefund(env, s, p, ok)
    case Stop => DoStop(env, s, p)
  }

  function Run(env: Env, s: State, steps: seq<Step>): Option<State> {
    if steps == [] then Some(s)
    else match Run(env, s, steps[..|steps| - 1])
         case None => None
         case Some(m) => Do(env, m, steps[|steps| - 1])
  }

  ghost predicate Reachable(env: Env, s: State) {
    exists steps :: Run(env, Initial(), steps) == Some(s)
  }

  /** Somebody has a refund to make. */
  predicate Returning(s: State) {
    exists p | p in s.procs :: s.procs[p].Refunding?
  }

  predicate OwnerReturning(s: State) {
    s.owner.Some? && s.owner.value in s.procs && s.procs[s.owner.value].Refunding?
  }

  function Outcomes(s: State): nat {
    s.refunds + s.refundErrs + if s.refunderStopped then 1 else 0
  }

  /** The refund of a withdrawal failed by a webhook: pending, made, tried in vain, or dropped. */
  predicate RefundOk(env: Env, s: State) {
    && Outcomes(s) <= (if s.failedByWebhook then 1 else 0)
    && (s.failedByWebhook ==> Outcomes(s) == 1 || OwnerReturning(s))
    && (s.refundErrs > 0 ==> env.refundMayErr)
    && (s.refunderStopped ==> env.refunderMayStop)
  }

  predicate ProcOk(env: Env, s: State, p: Pid, pc: Pc) {
    match pc
    case Refunding => s.owner == Some(p) && s.failedByWebhook && Outcomes(s) == 0
    case Debiting => s.debits == 0 && forall q | q in s.procs && q != p :: s.procs[q].Seen? || s.procs[q].Refunding?
    case Failing => s.debits == 0 || env.railMayErr
    case Seen(_) => env.earlyEvents || s.debits == 1
    case Asking => true
  }

  predicate Inv(env: Env, s: State) {
    && (s.row.None? ==> s.procs == map[] && s.debits == 0)
    && (s.row.None? || s.row.value.status == Pending ==> !s.everCompleted && !s.failedByWebhook)
    && (s.row.Some? ==> s.row.value.status in {Pending, Completed, Failed})
    && (s.row.Some? ==> (s.everCompleted <==> s.row.value.status == Completed))
    && (s.failedByWebhook ==> s.row.Some? && s.row.value.status == Failed)
    && s.debits <= 1
    && RefundOk(env, s)
    && (forall p | p in s.procs :: ProcOk(env, s, p, s.procs[p]))
    && (!env.earlyEvents && s.failedByWebhook ==> s.debits == 1)
    && (s.row.Some? && s.row.value.status == Failed && !s.failedByWebhook ==>
          && (s.debits == 0 || env.railMayErr)
          && forall p | p in s.procs :: !s.procs[p].Debiting?)
  }

  lemma KeepDebit(env: Env, s: State, p: Pid, ok: bool)
    requires Inv(env, s) && DoDebit(s, p, ok).Some?
    ensures Inv(env, DoDebit(s, p, ok).value)
  {
  }

  lemma KeepRailAnswers(env: Env, s: State, p: Pid, ok: bool)
    requires Inv(env, s) && DoRailAnswers(env, s, p, ok).Some?
    ensures Inv(env, DoRailAnswers(env, s, p, ok).value)
  {
  }

  lemma KeepStop(env: Env, s: State, p: Pid)
    requires Inv(env, s) && DoStop(env, s, p).Some?
    ensures Inv(env, DoStop(env, s, p).value)
  {
  }

  lemma KeepFailInitiation(env: Env, s: State, p: Pid)
    requires Inv(env, s) && DoFailInitiation(s, p).Some?
    ensures Inv(env, DoFailInitiation(s, p).value)
  {
  }

  lemma KeepDeliver(env: Env, s: State, p: Pid, status: string)
    requires Inv(env, s) && DoDeliver(env, s, p, status).Some?
    ensures Inv(env, DoDeliver(env, s, p, status).value)
  {
  }

  lemma KeepConclude(env: Env, s: State, p: Pid)
    requires Inv(env, s) && DoConclude(s, p).Some?
    ensures Inv(env, DoConclude(s, p).value)
  {
  }

  lemma KeepRefund(env: Env, s: State, p: Pid, ok: bool)
    requires Inv(env, s) && DoRefund(env, s, p, ok).Some?
    ensures Inv(env, DoRefund(env, s, p, ok).value)
  {
  }

  lemma StepKeepsInv(env: Env, s: State, step: Step)
    requires Inv(env, s) && Do(env, s, step).Some?
    ensures Inv(env, Do(env, s, step).value)
  {
    var p := step.p;
    match step.act
    case Debit(ok) => KeepDebit(env, s, p, ok);
    case FailInitiation => KeepFailInitiation(env, s, p);
    case Deliver(status) => KeepDeliver(env, s, p, status);
    case Conclude => KeepConclude(env, s, p);
    case Refund(ok) => KeepRefund(env, s, p, ok);
    case RailAnswers(ok) => KeepRailAnswers(env, s, p, ok);
    case Stop => KeepStop(env, s, p);
    case CreateWithdrawal(_) =>
  }

  lemma {:induction false} RunKeepsInv(env: Env, steps: seq<Step>)
    requires Run(env, Initial(), steps).Some?
    ensures Inv(env, Run(env, Initial(), steps).value)
    decreases |steps|
  {
    if steps != [] {
      RunKeepsInv(env, steps[..|steps| - 1]);
      StepKeepsInv(env, Run(env, Initial(), steps[..|steps| - 1]).value, steps[|steps| - 1]);
    }
  }

  lemma ReachableKeepsInv(env: Env, s: State)
    requires Reachable(env, s)
    ensures Inv(env, s)
  {
    var steps :| Run(env, Initial(), steps) == Some(s);
    RunKeepsInv(env, steps);
  }

  /** However deliveries interleave, the user is refunded at most once, and never for a withdrawal that was
      ever completed or that the creating request marked failed. */
  lemma RefundedAtMostOnce(env: Env, s: State)
    requires Reachable(env, s)
    ensures s.refunds <= 1
    ensures s.refunds > 0 ==> s.row.Some? && s.row.value.status == Failed && s.failedByWebhook && !s.everCompleted
    ensures s.row.Some? && s.row.value.status == Failed && !s.failedByWebhook ==> s.refunds == 0
    ensures s.debits <= 1
  {
    ReachableKeepsInv(env, s);
  }

  lemma Next(env: Env, s: State, step: Step) returns (s': State)
    requires Reachable(env, s) && Do(env, s, step).Some?
    ensures Reachable(env, s') && Do(env, s, step) == Some(s')
  {
    var steps :| Run(env, Initial(), steps) == Some(s);
    var all := steps + [step];
    assert all[..|all| - 1] == steps;
    s' := Do(env, s, step).value;
    assert Run(env, Initial(), all) == Some(s');
  }

  lemma Created(env: Env, w: Withdrawal, p: Pid) returns (s: State)
    ensures Reachable(env, s) && s.row == Some(w.(status := Pending)) && s.procs == map[p := Debiting]
    ensures s.debits == 0 && s.refunds == 0 && s.refundErrs == 0 && !s.failedByWebhook && !s.refunderStopped
  {
    s := Initial();
    assert Run(env, s, []) == Some(s);
    s := Next(env, s, Step(p, CreateWithdrawal(w)));
  }

  /** An event that says failed before the user was debited. */
  lemma RefundsEarly(env: Env, w: Withdrawal) returns (s: State)
    requires env.earlyEvents
    ensures Reachable(env, s) && s.debits == 0 && s.refunds == 1
  {
    s := Created(env, w, 0);
    s := Next(env, s, Step(1, Deliver("failed")));
    s := Next(env, s, Step(1, Conclude));
    s := Next(env, s, Step(1, Refund(true)));
  }

  /** Nobody is refunded more than was debited exactly if the provider reports only on withdrawals whose
      debit was made. */
  lemma RefundsCoveredIff(env: Env)
    ensures (forall s | Reachable(env, s) :: s.refunds <= s.debits) <==> !env.earlyEvents
  {
    if env.earlyEvents {
      var s := RefundsEarly(env, Withdrawal("", 1, Pending));
    } else {
      forall s | Reachable(env, s)
        ensures s.refunds <= s.debits
      {
        ReachableKeepsInv(env, s);
      }
    }
  }

  // ---- debited, failed, and not given back ----

  /** A failed withdrawal whose debit was made, with nobody about to give it back. */
  predicate Kept(s: State) {
    s.row.Some? && s.row.value.status == Failed && s.debits == 1 && !Returning(s)
  }

  /** It was given back exactly if a webhook failed it, and the refund was neither refused nor dropped. */
  lemma GivenBackIff(env: Env, s: State)
    requires Reachable(env, s) && Kept(s)
    ensures s.refunds == 1 <==> s.failedByWebhook && s.refundErrs == 0 && !s.refunderStopped
  {
    ReachableKeepsInv(env, s);
  }

  /** Debited, and the rail asked. */
  lemma Debited(env: Env, w: Withdrawal) returns (s: State)
    ensures Reachable(env, s) && s.row == Some(w.(status := Pending)) && s.procs == map[0 := Asking]
    ensures s.debits == 1 && s.refunds == 0 && !s.failedByWebhook
  {
    hide Reachable;
    s := Created(env, w, 0);
    s := Next(env, s, Step(0, Debit(true)));
  }

  /** The rail accepted, and a webhook reports the failure. */
  lemma FailedByWebhook(env: Env, w: Withdrawal) returns (s: State)
    ensures Reachable(env, s) && s.row == Some(w.(status := Failed)) && s.procs == map[1 := Refunding]
    ensures s.debits == 1 && s.refunds == 0 && s.failedByWebhook
  {
    hide Reachable;
    s := Debited(env, w);
    s := Next(env, s, Step(0, RailAnswers(true)));
    assert s.procs == map[];
    s := Next(env, s, Step(1, Deliver("failed")));
    s := Next(env, s, Step(1, Conclude));
  }

  /** A rail that errs: the row is failed, and nobody gives the debit back. */
  lemma RailErrorKeepsDebit(env: Env, w: Withdrawal) returns (s: State)
    requires env.railMayErr
    ensures Reachable(env, s) && s.procs == map[] && Kept(s) && s.refunds == 0 && !s.failedByWebhook
  {
    hide Reachable;
    s := Debited(env, w);
    s := Next(env, s, Step(0, RailAnswers(false)));
    s := Next(env, s, Step(0, FailInitiation));
  }

  /** A refund that errs. */
  lemma RefundErrorKeepsDebit(env: Env, w: Withdrawal) returns (s: State)
    requires env.refundMayErr
    ensures Reachable(env, s) && s.procs == map[] && Kept(s) && s.refunds == 0 && s.failedByWebhook
  {
    hide Reachable;
    s := FailedByWebhook(env, w);
    s := Next(env, s, Step(1, Refund(false)));
  }

  /** A process that stops before the refund. */
  lemma CrashKeepsDebit(env: Env, w: Withdrawal) returns (s: State)
    requires env.refunderMayStop
    ensures Reachable(env, s) && s.procs == map[] && Kept(s) && s.refunds == 0 && s.failedByWebhook
  {
    hide Reachable;
    s := FailedByWebhook(env, w);
    s := Next(env, s, Step(1, Stop));
  }

  /** Every failed withdrawal gives its debit back exactly if the rail never errs, refunds never err, and
      nobody stops with a refund to make. */
  lemma EveryDebitGivenBackIff(env: Env)
    ensures (forall s | Reachable(env, s) && Kept(s) :: s.refunds == 1)
            <==> !env.railMayErr && !env.refundMayErr && !env.refunderMayStop
  {
    var w := Withdrawal("", 1, Pending);
    if env.railMayErr { var s := RailErrorKeepsDebit(env, w); }
    else if env.refundMayErr { var s := RefundErrorKeepsDebit(env, w); }
    else if env.refunderMayStop { var s := CrashKeepsDebit(env, w); }
    else {
      forall s | Reachable(env, s) && Kept(s)
        ensures s.refunds == 1
      {
        ReachableKeepsInv(env, s);
      }
    }
  }

  /** What was not given back by then never is, whichever way it was kept. */
  lemma {:induction false} NeverRefunded(env: Env, s: State, steps: seq<Step>)
    requires Inv(env, s) && Kept(s) && s.refunds == 0 && Run(env, s, steps).Some?
    ensures var s' := Run(env, s, steps).value; Inv(env, s') && Kept(s') && s'.refunds == 0
    decreases |steps|
  {
    if steps != [] {
      var init := steps[..|steps| - 1];
      NeverRefunded(env, s, init);
      NothingReturns(env, Run(env, s, init).value, steps[|steps| - 1]);
      StepKeepsInv(env, Run(env, s, init).value, steps[|steps| - 1]);
    }
  }

  lemma NothingReturns(env: Env, s: State, step: Step)
    requires Inv(env, s) && Kept(s) && s.refunds == 0 && Do(env, s, step).Some?
    ensures Kept(Do(env, s, step).value) && Do(env, s, step).value.refunds == 0
  {
    var s' := Do(env, s, step).value;
    assert forall q | q in s.procs :: !s.procs[q].Refunding?;
    assert forall q | q in s'.procs :: !s'.procs[q].Refunding?;
  }
}

/** The code on the withdrawal of one reference, with other deliveries running between its statements. */
module WithdrawalService {
  import opened Common
  import opened FiatRows
  import opened WithdrawalRuns

  ghost predicate Foreign(o: Interleaving<Step>, p: Pid) {
    forall k: nat, i | 0 <= i < |o(k)| :: o(k)[i].p != p
  }

  datatype Answers = Answers(updateErrs: bool, transferErrs: bool)

  datatype Outcome = Nil | NotFound | UpdateError | TransferError

  /** Only the status of the row may have changed. */
  predicate SameWithdrawal(before: State, after: State)
    requires before.row.Some?
  {
    after.row.Some? && after.row.value == before.row.value.(status := after.row.value.status)
  }

  /** Nobody has a debit to make. */
  predicate NoDebitLeft(s: State, q: Pid) {
    forall p | p in s.procs && p != q :: !s.procs[p].Debiting?
  }

  /** What a step of process q may change: itself, the status of the row, one more debit and one more refund;
      a debit only if it had one to make, and nobody gets one to make once the row exists. */
  predicate Mild(s: State, s': State, q: Pid) {
    && s'.procs - {q} == s.procs - {q}
    && (s.row.Some? ==> SameWithdrawal(s, s'))
    && s.refunds <= s'.refunds <= s.refunds + 1 && s.debits <= s'.debits <= s.debits + 1
    && (s.row.Some? && !(q in s.procs && s.procs[q].Debiting?) ==>
          s'.debits == s.debits && !(q in s'.procs && s'.procs[q].Debiting?))
  }

  lemma ConcludeIsMild(s: State, p: Pid)
    requires DoConclude(s, p).Some?
    ensures Mild(s, DoConclude(s, p).value, p)
  {
  }

  lemma RequestIsMild(env: Env, s: State, step: Step)
    requires Do(env, s, step).Some?
    requires step.act.Debit? || step.act.RailAnswers? || step.act.FailInitiation?
    ensures Mild(s, Do(env, s, step).value, step.p)
  {
    hide DoDeliver, DoConclude, DoRefund, DoStop;
  }

  lemma StepIsMild(env: Env, s: State, step: Step)
    requires Do(env, s, step).Some?
    ensures Mild(s, Do(env, s, step).value, step.p)
  {
    hide DoConclude, DoFailInitiation, DoDebit, DoRailAnswers;
    match step.act
    case Conclude => ConcludeIsMild(s, step.p);
    case Debit(_) | RailAnswers(_) | FailInitiation => RequestIsMild(env, s, step);
    case CreateWithdrawal(_) | Deliver(_) | Refund(_) | Stop =>
  }

  /** Steps of others leave this process where it stands. */
  lemma OthersLeaveMe(s: State, s': State, q: Pid, p: Pid)
    requires Mild(s, s', q) && q != p
    ensures (p in s'.procs <==> p in s.procs) && (p in s.procs ==> s'.procs[p] == s.procs[p])
    ensures s.row.Some? && NoDebitLeft(s, p) ==> NoDebitLeft(s', p) && s'.debits == s.debits
  {
    assert forall k | k != q :: k in s'.procs <==> k in s'.procs - {q};
    assert forall k | k != q :: k in s.procs <==> k in s.procs - {q};
    assert forall k | k in s.procs && k != q :: (s'.procs - {q})[k] == (s.procs - {q})[k];
  }

  lemma NothingYet(env: Env, s: State)
    requires Reachable(env, s) && s.row.None?
    ensures s.refunds == 0 && s.debits == 0 && s.procs == map[]
  {
    ReachableKeepsInv(env, s);
  }

  class Handler {
    /** Nothing in the code keeps the environment from any of this. */
    static const ENV: Env := Env(true, true, true, true)

    const ref: string
    const repo: FiatRepo
    /** The rest of the world: the other deliveries, and the history the theorems are about. The program's own
        code reads the store, never this. */
    var s: State
    var debits: seq<Transfer>
    var refunds: seq<Transfer>

    constructor (ref: string, repo: FiatRepo)
      requires ref !in repo.withdrawals
      ensures Good() && s == Initial() && this.ref == ref && this.repo == repo
    {
      this.ref, this.repo, s, debits, refunds := ref, repo, Initial(), [], [];
      new;
      assert Run(ENV, Initial(), []) == Some(s);
    }

    ghost predicate Good()
      reads this, repo
    {
      && Reachable(ENV, s)
      && s.row == (if ref in repo.withdrawals then Some(repo.withdrawals[ref]) else None)
      && |debits| == s.debits && |refunds| == s.refunds
      && (s.row.None? ==> debits == [] && refunds == [])
      && (forall t | t in debits :: t == Transfer(s.row.value.wallet, PLATFORM, s.row.value.debit))
      && (forall t | t in refunds :: t == Transfer(PLATFORM, s.row.value.wallet, s.row.value.debit))
    }

    method Did(p: Pid, act: Action)
      requires Reachable(ENV, s) && Do(ENV, s, Step(p, act)).Some?
      modifies this`s
      ensures Reachable(ENV, s) && Some(s) == Do(ENV, old(s), Step(p, act))
    {
      ghost var next := Next(ENV, s, Step(p, act));
      s := Do(ENV, s, Step(p, act)).value;
    }

    method Others(p: Pid, steps: seq<Step>)
      requires Good() && forall i | 0 <= i < |steps| :: steps[i].p != p
      modifies this, repo`withdrawals
      ensures Good()
      ensures (p in s.procs <==> p in old(s).procs) && (p in s.procs ==> s.procs[p] == old(s).procs[p])
      ensures old(s).row.Some? ==> SameWithdrawal(old(s), s)
      ensures old(s).row.Some? && NoDebitLeft(old(s), p) ==> NoDebitLeft(s, p) && debits == old(debits)
      ensures steps == [] ==> s == old(s) && debits == old(debits) && refunds == old(refunds)
    {
      hide Reachable;
      for i := 0 to |steps|
        invariant Good()
        invariant (p in s.procs <==> p in old(s).procs) && (p in s.procs ==> s.procs[p] == old(s).procs[p])
        invariant old(s).row.Some? ==> SameWithdrawal(old(s), s)
        invariant old(s).row.Some? && NoDebitLeft(old(s), p) ==> NoDebitLeft(s, p) && debits == old(debits)
        invariant steps == [] ==> s == old(s) && debits == old(debits) && refunds == old(refunds)
      {
        if Do(ENV, s, steps[i]).Some? { TakeOthers(steps[i], p); }
      }
    }

    method TakeOthers(step: Step, ghost p: Pid)
      requires Good() && step.p != p && Do(ENV, s, step).Some?
      modifies this, repo`withdrawals
      ensures Good()
      ensures (p in s.procs <==> p in old(s).procs) && (p in s.procs ==> s.procs[p] == old(s).procs[p])
      ensures old(s).row.Some? ==> SameWithdrawal(old(s), s)
      ensures old(s).row.Some? && NoDebitLeft(old(s), p) ==> NoDebitLeft(s, p) && debits == old(debits)
    {
      hide Reachable, Do;
      StepIsMild(ENV, s, step);
      ghost var before := s;
      var debited, refunded := s.debits, s.refunds;
      Did(step.p, step.act);
      OthersLeaveMe(before, s, step.p, p);
      if s.row.Some? {
        var w := s.row.value;
        repo.withdrawals := repo.withdrawals[ref := w];
        if s.debits > debited { debits := debits + [Transfer(w.wallet, PLATFORM, w.debit)]; }
        if s.refunds > refunded { refunds := refunds + [Transfer(PLATFORM, w.wallet, w.debit)]; }
      } else {
        NothingYet(ENV, s);
      }
    }

    /** The row, then the debit, then the rail; an error of either marks the row failed, and nothing is given
        back here. */
    method InitiateWithdrawal(p: Pid, w: Withdrawal, debitErrs: bool, railErrs: bool, updateErrs: bool, o: Interleaving<Step>)
      returns (ok: bool)
      requires Good() && s.row.None? && p !in s.procs && Foreign(o, p)
      modifies this, repo`withdrawals
      ensures Good() && p !in s.procs
      ensures ok <==> !debitErrs && !railErrs
      ensures s.row.Some? && s.row.value == w.(status := s.row.value.status)
      ensures !ok && !updateErrs ==> s.row.value.status != Pending
      ensures debits == if debitErrs then [] else [Transfer(w.wallet, PLATFORM, w.debit)]
      ensures Quiet(o) ==>
                && s.row == Some(w.(status := if ok || updateErrs then Pending else Failed))
                && refunds == []
    {
      hide Reachable, Do;
      NothingYet(ENV, s);
      CreateRow(p, w);
      Others(p, o(0));
      ok := !debitErrs && !railErrs;
      DebitUser(p, !debitErrs);
      if !debitErrs {
        Others(p, o(1));
        HearRail(p, !railErrs);
      }
      if !ok { FailInitiation(p, updateErrs, o(2)); }
    }

    method CreateRow(p: Pid, w: Withdrawal)
      requires Good() && s.row.None? && s.procs == map[] && s.debits == 0 && s.refunds == 0
      modifies this`s, repo`withdrawals
      ensures Good() && s.row == Some(w.(status := Pending)) && s.procs == map[p := Debiting]
    {
      hide Reachable;
      repo.withdrawals := repo.withdrawals[ref := w.(status := Pending)];
      Did(p, CreateWithdrawal(w));
    }

    method HearRail(p: Pid, ok: bool)
      requires Good() && p in s.procs && s.procs[p] == Asking && s.row.Some?
      modifies this`s
      ensures Good() && s.row == old(s).row && (NoDebitLeft(old(s), p) ==> NoDebitLeft(s, p))
      ensures if ok then p !in s.procs else p in s.procs && s.procs[p] == Failing
    {
      hide Reachable;
      Did(p, RailAnswers(ok));
    }

    method DebitUser(p: Pid, ok: bool)
      requires Good() && p in s.procs && s.procs[p] == Debiting && s.row.Some?
      modifies this
      ensures Good() && p in s.procs && s.procs[p] == (if ok then Asking else Failing) && s.row == old(s).row
      ensures refunds == old(refunds) && (NoDebitLeft(old(s), p) ==> NoDebitLeft(s, p))
      ensures debits == old(debits) + (if ok then [Transfer(s.row.value.wallet, PLATFORM, s.row.value.debit)] else [])
    {
      hide Reachable;
      var w := repo.withdrawals[ref];
      if ok { debits := debits + [Transfer(w.wallet, PLATFORM, w.debit)]; }
      Did(p, Debit(ok));
    }

    method FailInitiation(p: Pid, updateErrs: bool, others: seq<Step>)
      requires Good() && p in s.procs && s.procs[p] == Failing && s.row.Some?
      requires forall i | 0 <= i < |others| :: others[i].p != p
      modifies this, repo`withdrawals
      ensures Good() && p !in s.procs && SameWithdrawal(old(s), s)
      ensures NoDebitLeft(old(s), p) ==> debits == old(debits)
      ensures !updateErrs ==> s.row.value.status != Pending
      ensures others == [] ==>
                && debits == old(debits) && refunds == old(refunds)
                && s.row == if updateErrs || old(s).row.value.status != Pending then old(s).row
                            else Some(old(s).row.value.(status := Failed))
    {
      hide Reachable;
      Others(p, others);
      if updateErrs {
        Did(p, Stop);
      } else {
        var done := repo.UpdateWithdrawalStatus(ref, Failed);
        Did(p, WithdrawalRuns.FailInitiation);
      }
    }

    /** One delivery of a withdrawal event. However many run at once, the user is refunded at most once, what
        was debited, and only if the row is failed. */
    method HandleWebhook(p: Pid, status: string, a: Answers, o: Interleaving<Step>) returns (r: Outcome)
      requires Good() && p !in s.procs && Foreign(o, p)
      modifies this, repo`withdrawals
      ensures Good() && p !in s.procs
      ensures |refunds| <= 1
      ensures refunds != [] ==>
                && s.row.Some? && s.row.value.status == Failed && !s.everCompleted
                && refunds == [Transfer(PLATFORM, s.row.value.wallet, s.row.value.debit)]
      ensures r == NotFound <==> old(s).row.None?
      ensures r == UpdateError ==> a.updateErrs && status in {"completed", "failed"}
      ensures r == TransferError ==> a.transferErrs && !a.updateErrs && status == "failed"
      ensures Quiet(o) && old(s).row.Some? ==>
                var w := old(s).row.value;
                var wins := w.status == Pending && !a.updateErrs && status in {"completed", "failed"};
                && s.row == Some(if !wins then w else w.(status := if status == "completed" then Completed else Failed))
                && refunds == old(refunds) + (if wins && status == "failed" && !a.transferErrs
                                              then [Transfer(PLATFORM, w.wallet, w.debit)] else [])
                && r == (if w.status == Pending && a.updateErrs && status in {"completed", "failed"} then UpdateError
                         else if wins && status == "failed" && a.transferErrs then TransferError else Nil)
    {
      hide Reachable;
      r := Deliver(p, status, a, o);
      RefundedAtMostOnce(ENV, s);
      assert refunds != [] ==> refunds[0] in refunds && refunds == [refunds[0]];
    }

    method Deliver(p: Pid, status: string, a: Answers, o: Interleaving<Step>) returns (r: Outcome)
      requires Good() && p !in s.procs && Foreign(o, p)
      modifies this, repo`withdrawals
      ensures Good() && p !in s.procs
      ensures r == NotFound <==> old(s).row.None?
      ensures r == UpdateError ==> a.updateErrs && status in {"completed", "failed"}
      ensures r == TransferError ==> a.transferErrs && !a.updateErrs && status == "failed"
      ensures Quiet(o) && old(s).row.Some? ==>
                var w := old(s).row.value;
                var wins := w.status == Pending && !a.updateErrs && status in {"completed", "failed"};
                && s.row == Some(if !wins then w else w.(status := if status == "completed" then Completed else Failed))
                && refunds == old(refunds) + (if wins && status == "failed" && !a.transferErrs
                                              then [Transfer(PLATFORM, w.wallet, w.debit)] else [])
                && r == (if w.status == Pending && a.updateErrs && status in {"completed", "failed"} then UpdateError
                         else if wins && status == "failed" && a.transferErrs then TransferError else Nil)
    {
      hide Reachable, Do;
      if ref !in repo.withdrawals { return NotFound; }
      if repo.withdrawals[ref].status != Pending { return Nil; }
      See(p, status);
      Others(p, o(0));
      if a.updateErrs {
        Quit(p);
        return if status in {"completed", "failed"} then UpdateError else Nil;
      }
      var won := ConcludeDelivery(p, status);
      if !won { return Nil; }
      Others(p, o(1));
      RefundUser(p, !a.transferErrs);
      r := if a.transferErrs then TransferError else Nil;
    }

    method See(p: Pid, status: string)
      requires Good() && p !in s.procs && s.row.Some? && s.row.value.status == Pending
      modifies this`s
      ensures Good() && s.row == old(s).row && p in s.procs && s.procs[p] == Seen(status)
    {
      hide Reachable;
      Did(p, WithdrawalRuns.Deliver(status));
    }

    method Quit(p: Pid)
      requires Good() && p in s.procs && s.procs[p].Seen?
      modifies this`s
      ensures Good() && s.row == old(s).row && p !in s.procs
    {
      hide Reachable;
      Did(p, Stop);
    }

    method ConcludeDelivery(p: Pid, status: string) returns (won: bool)
      requires Good() && p in s.procs && s.procs[p] == Seen(status) && s.row.Some?
      modifies this`s, repo`withdrawals
      ensures Good() && s.row.Some?
      ensures won <==> status == "failed" && old(s).row.value.status == Pending
      ensures if won then p in s.procs && s.procs[p] == Refunding else p !in s.procs
      ensures s.row.value == if old(s).row.value.status != Pending then old(s).row.value
                             else if status == "completed" then old(s).row.value.(status := Completed)
                             else if status == "failed" then old(s).row.value.(status := Failed) else old(s).row.value
    {
      hide Reachable;
      won := false;
      if status == "completed" {
        var done := repo.UpdateWithdrawalStatus(ref, Completed);
      } else if status == "failed" {
        won := repo.UpdateWithdrawalStatus(ref, Failed);
      }
      Did(p, Conclude);
    }

    method RefundUser(p: Pid, ok: bool)
      requires Good() && p in s.procs && s.procs[p] == Refunding && s.row.Some?
      modifies this
      ensures Good() && p !in s.procs && s.row == old(s).row
      ensures refunds == old(refunds) + (if ok then [Transfer(PLATFORM, s.row.value.wallet, s.row.value.debit)] else [])
    {
      hide Reachable;
      var w := repo.withdrawals[ref];
      if ok { refunds := refunds + [Transfer(PLATFORM, w.wallet, w.debit)]; }
      Did(p, Refund(ok));
    }
  }
}
