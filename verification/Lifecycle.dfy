/** One transfer's row under any number of settlement workers, reconcilers, admins and redelivered
    tasks, interleaved statement by statement; any process may stop at any point. */
module Lifecycle {
  import opened Common
  import opened Transactions

  type Pid = nat

  datatype ReviewStatus = ReviewPending | Approved | Rejected

  /** Where a process stands. A process works on this row only; its copy of the row is what it carries. */
  datatype Pc =
    // initiate
    | Created                       // row inserted as pending, not yet enqueued
    | HoldCreated                   // row inserted as held, review not yet written
    // settlement worker
    | Loaded                        // has read the row
    | Won                           // won the claim
    | Built(h: Hash)                // envelope signed
    | Sending(h: Hash, tries: nat)  // past the hash write, `tries` submissions made
    | Ambiguous(h: Hash)            // gave up without a verdict
    | Accepted(h: Hash)             // network reported success
    | Denied(h: Hash, doubt: bool)  // took it for rejected; `doubt` unless the first answer or the ledger said so
    // reconciler: pending rows with a hash
    | Checking(h: Hash)
    | FoundApplied(h: Hash)
    | FoundFailed(h: Hash)
    // reconciler: audit of confirmed rows
    | Auditing
    // reconciler: stuck rows
    | Listed(wasSubmitted: bool)
    | Requeuing
    | Counted(n: nat)
    // compliance admin
    | Deciding(approve: bool)       // saw the review pending
    | Decided(approve: bool)        // won the decision
    | Releasing                     // row is pending again, not yet enqueued

  /** What a submission hears. Definite is a rejection; Misread is an error that the engine takes for one,
      though it says nothing about the outcome. */
  datatype Response = Success | Retryable | Definite | Misread

  datatype Verdict = Applied | OnLedgerFailed | Unknown

  datatype Action =
    | Create(hold: bool) | RecordHold | EnqueueFirst(ok: bool)
    | Load | Claim | RejectPayout | Build(h: Hash) | RecordHash | SkipRecord
    | Send(r: Response) | GiveUp | LookUp(v: Verdict) | MarkConfirmed | MarkFailed
    | ListAwaiting | LookUpListed(v: Verdict) | CorrectConfirmed | CorrectFailed
    | ListConfirmed | FlagMismatch
    | ListStuck | Reset(aged: bool) | Increment | MarkExhausted | Requeue(ok: bool)
    | OpenReview(approve: bool) | Decide | Release | RejectTransfer
    | Stop
    | NetworkApplies(h: Hash)

  datatype Step = Step(p: Pid, act: Action)

  const MAX_REQUEUES: nat := 3
  const MAX_TRIES: nat := 3

  /** What the environment is allowed to do. */
  datatype Env = Env(
    hashWriteMayFail: bool,     // the hash write before submission may fail
    resetWhileClaimed: bool,    // a stuck reset may hit a row whose claimant is still at work
    doubtfulRejections: bool,   // what the engine takes for a rejection may leave the outcome in doubt
    staleGiveUps: bool)         // recovery may give up on a row that is no longer stuck

  datatype State = State(
    row: Option<Row>,
    review: Option<ReviewStatus>,
    procs: map<Pid, Pc>,
    // history
    held: bool,              // inserted as held
    sent: set<Hash>,         // envelopes ever handed to the network
    payable: set<Hash>,      // those accepted, or left in doubt
    dead: set<Hash>,         // those found failed on the ledger, which is final
    rejected: set<Hash>,     // those whose first submission was definitely rejected
    applied: set<Hash>,      // envelopes the network applied
    claims: nat,             // successful claims
    resets: nat,             // successful stuck resets
    firstTasks: nat,         // tasks created by initiate or by a release
    requeued: seq<nat>,      // the requeue count of every task created by stuck recovery
    opener: Option<Pid>,     // who may create the first task
    owner: Option<Pid>,      // who made the last successful claim
    decisions: nat           // times the review left pending
  )

  function Initial(): State {
    State(None, None, map[], false, {}, {}, {}, {}, {}, 0, 0, 0, [], None, None, 0)
  }

  function Tasks(s: State): nat {
    s.firstTasks + |s.requeued|
  }

  function At(s: State, p: Pid, pc: Pc): State {
    s.(procs := s.procs[p := pc])
  }

  function Gone(s: State, p: Pid): State {
    s.(procs := s.procs - {p})
  }

  function WithRow(s: State, row: Row): State {
    s.(row := Some(row))
  }

  /** From the claim until it returns, a worker may still write or send. */
  predicate Claiming(pc: Pc) {
    pc.Won? || pc.Built? || pc.Sending? || pc.Ambiguous? || pc.Accepted? || pc.Denied?
  }

  predicate ClaimantRunning(s: State) {
    exists p | p in s.procs :: Claiming(s.procs[p])
  }

  // ---- initiate ----

  function DoCreate(s: State, p: Pid, hold: bool): Option<State> {
    if s.row.Some? || p in s.procs then None
    else
      var row := Row(if hold then ComplianceHold else Pending, None, 0, 0);
      var s1 := At(WithRow(s, row), p, if hold then HoldCreated else Created);
      Some(s1.(held := hold, opener := if hold then None else Some(p)))
  }

  function DoRecordHold(s: State, p: Pid): Option<State> {
    if p !in s.procs || !s.procs[p].HoldCreated? then None
    else Some(Gone(if s.review.None? then s.(review := Some(ReviewPending)) else s, p))
  }

  /** The task of initiate, or of the release of a held transfer; a failed enqueue is only logged. */
  function DoEnqueueFirst(s: State, p: Pid, ok: bool): Option<State> {
    if p !in s.procs || !(s.procs[p].Created? || s.procs[p].Releasing?) then None
    else Some(Gone(if ok then s.(firstTasks := s.firstTasks + 1) else s, p))
  }

  // ---- settlement worker ----

  /** A delivery, possibly repeated, of a task that exists. */
  function DoLoad(s: State, p: Pid): Option<State> {
    if s.row.None? || p in s.procs || Tasks(s) == 0 then None else Some(At(s, p, Loaded))
  }

  function DoClaim(s: State, p: Pid): Option<State> {
    if s.row.None? || p !in s.procs || !s.procs[p].Loaded? then None
    else
      match Claimed(s.row.value)
      case None => Some(Gone(s, p))
      case Some(row) => Some(At(WithRow(s, row), p, Won).(claims := s.claims + 1, owner := Some(p)))
  }

  function DoRejectPayout(s: State, p: Pid): Option<State> {
    if s.row.None? || p !in s.procs || !s.procs[p].Won? then None
    else Some(Gone(WithRow(s, WithStatus(s.row.value, Failed, None)), p))
  }

  function DoBuild(s: State, p: Pid, h: Hash): Option<State> {
    if p !in s.procs || !s.procs[p].Won? then None else Some(At(s, p, Built(h)))
  }

  function DoRecordHash(s: State, p: Pid): Option<State> {
    if s.row.None? || p !in s.procs || !s.procs[p].Built? then None
    else
      var h := s.procs[p].h;
      Some(At(WithRow(s, WithStatus(s.row.value, Submitted, Some(h))), p, Sending(h, 0)))
  }

  /** The hash write failed; the source logs it and goes on to submit. */
  function DoSkipRecord(env: Env, s: State, p: Pid): Option<State> {
    if !env.hashWriteMayFail || p !in s.procs || !s.procs[p].Built? then None
    else Some(At(s, p, Sending(s.procs[p].h, 0)))
  }

  /** The engine takes this answer for a rejection, but an earlier one, or this one, left the outcome in doubt. */
  predicate Misleads(tries: nat, r: Response) {
    r.Misread? || (r.Definite? && tries > 0)
  }

  function DoSend(env: Env, s: State, p: Pid, r: Response): Option<State> {
    if p !in s.procs || !s.procs[p].Sending? || s.procs[p].tries >= MAX_TRIES then None
    else
      var h, n := s.procs[p].h, s.procs[p].tries;
      if r.Success? && h in s.dead then None
      else if Misleads(n, r) && h !in s.dead && !env.doubtfulRejections then None
      else
        var s1 := s.(sent := s.sent + {h},
                     payable := if r.Definite? then s.payable else s.payable + {h},
                     rejected := if r.Definite? && n == 0 then s.rejected + {h} else s.rejected);
        match r
        case Success => Some(At(s1, p, Accepted(h)).(applied := s.applied + {h}))
        case Retryable => Some(At(s1, p, if n + 1 == MAX_TRIES then Ambiguous(h) else Sending(h, n + 1)))
        case Definite => Some(At(s1, p, Denied(h, n > 0)))
        case Misread => Some(At(s1, p, Denied(h, true)))
  }

  /** The context ended while waiting to retry. */
  function DoGiveUp(s: State, p: Pid): Option<State> {
    if p !in s.procs || !s.procs[p].Sending? || s.procs[p].tries == 0 then None
    else Some(At(s, p, Ambiguous(s.procs[p].h)))
  }

  function DoLookUp(s: State, p: Pid, v: Verdict): Option<State> {
    if p !in s.procs || !s.procs[p].Ambiguous? then None
    else
      var h := s.procs[p].h;
      match v
      case Applied => if h in s.applied then Some(At(s, p, Accepted(h))) else None
      case OnLedgerFailed => if h in s.applied then None else Some(At(s, p, Denied(h, false)).(dead := s.dead + {h}))
      case Unknown => Some(Gone(s, p))
  }

  function DoMarkConfirmed(s: State, p: Pid): Option<State> {
    if s.row.None? || p !in s.procs || !s.procs[p].Accepted? then None
    else Some(Gone(WithRow(s, WithStatus(s.row.value, Confirmed, Some(s.procs[p].h))), p))
  }

  function DoMarkFailed(s: State, p: Pid): Option<State> {
    if s.row.None? || p !in s.procs || !s.procs[p].Denied? then None
    else Some(Gone(WithRow(s, WithStatus(s.row.value, Failed, Some(s.procs[p].h))), p))
  }

  // ---- reconciler ----

  function DoListAwaiting(s: State, p: Pid): Option<State> {
    if s.row.None? || p in s.procs || !AwaitingLookup(s.row.value) then None
    else Some(At(s, p, Checking(s.row.value.hash.value)))
  }

  function DoLookUpListed(s: State, p: Pid, v: Verdict): Option<State> {
    if p !in s.procs || !s.procs[p].Checking? then None
    else
      var h := s.procs[p].h;
      match v
      case Applied => if h in s.applied then Some(At(s, p, FoundApplied(h))) else None
      case OnLedgerFailed => if h in s.applied then None else Some(At(s, p, FoundFailed(h)).(dead := s.dead + {h}))
      case Unknown => Some(Gone(s, p))
  }

  function DoCorrectConfirmed(s: State, p: Pid): Option<State> {
    if s.row.None? || p !in s.procs || !s.procs[p].FoundApplied? then None
    else
      match AsConfirmed(s.row.value, s.procs[p].h)
      case None => Some(Gone(s, p))
      case Some(row) => Some(Gone(WithRow(s, row), p))
  }

  function DoCorrectFailed(s: State, p: Pid): Option<State> {
    if s.row.None? || p !in s.procs || !s.procs[p].FoundFailed? then None
    else
      match AsFailed(s.row.value)
      case None => Some(Gone(s, p))
      case Some(row) => Some(Gone(WithRow(s, row), p))
  }

  function DoListConfirmed(s: State, p: Pid): Option<State> {
    if s.row.None? || p in s.procs || !Auditable(s.row.value) then None else Some(At(s, p, Auditing))
  }

  function DoFlagMismatch(s: State, p: Pid): Option<State> {
    if s.row.None? || p !in s.procs || !s.procs[p].Auditing? then None
    else Some(Gone(WithRow(s, Overwritten(s.row.value, ReconciliationFailed)), p))
  }

  function DoListStuck(s: State, p: Pid): Option<State> {
    if s.row.None? || p in s.procs || !Stuck(s.row.value) then None
    else Some(At(s, p, Listed(s.row.value.status == Submitted)))
  }

  /** The reset of a row listed as submitted; a row listed as pending needs none. */
  function DoReset(env: Env, s: State, p: Pid, aged: bool): Option<State> {
    if s.row.None? || p !in s.procs || !s.procs[p].Listed? then None
    else if !s.procs[p].wasSubmitted then Some(At(s, p, Requeuing))
    else
      match ResetToPending(s.row.value, aged)
      case None => Some(Gone(s, p))
      case Some(row) =>
        if !env.resetWhileClaimed && ClaimantRunning(s) then None
        else Some(At(WithRow(s, row), p, Requeuing).(resets := s.resets + 1))
  }

  function DoIncrement(s: State, p: Pid): Option<State> {
    if s.row.None? || p !in s.procs || !s.procs[p].Requeuing? then None
    else
      var n := s.row.value.requeues + 1;
      Some(At(WithRow(s, s.row.value.(requeues := n)), p, Counted(n)))
  }

  function DoMarkExhausted(env: Env, s: State, p: Pid): Option<State> {
    if s.row.None? || p !in s.procs || !s.procs[p].Counted? || s.procs[p].n <= MAX_REQUEUES then None
    else if !Stuck(s.row.value) && !env.staleGiveUps then None
    else Some(Gone(WithRow(s, Overwritten(s.row.value, Failed)), p))
  }

  function DoRequeue(s: State, p: Pid, ok: bool): Option<State> {
    if p !in s.procs || !s.procs[p].Counted? || s.procs[p].n > MAX_REQUEUES then None
    else Some(Gone(if ok then s.(requeued := s.requeued + [s.procs[p].n]) else s, p))
  }

  // ---- compliance ----

  function DoOpenReview(s: State, p: Pid, approve: bool): Option<State> {
    if p in s.procs || s.review != Some(ReviewPending) then None else Some(At(s, p, Deciding(approve)))
  }

  function DoDecide(s: State, p: Pid): Option<State> {
    if p !in s.procs || !s.procs[p].Deciding? then None
    else if s.review != Some(ReviewPending) then Some(Gone(s, p))
    else
      var approve := s.procs[p].approve;
      Some(At(s, p, Decided(approve)).(
        review := Some(if approve then Approved else Rejected), opener := Some(p), decisions := s.decisions + 1))
  }

  function DoRelease(s: State, p: Pid): Option<State> {
    if s.row.None? || p !in s.procs || s.procs[p] != Decided(true) then None
    else Some(At(WithRow(s, WithStatus(s.row.value, Pending, None)), p, Releasing))
  }

  function DoRejectTransfer(s: State, p: Pid): Option<State> {
    if s.row.None? || p !in s.procs || s.procs[p] != Decided(false) then None
    else Some(Gone(WithRow(s, WithStatus(s.row.value, Failed, None)), p))
  }

  // ---- anyone ----

  function DoStop(s: State, p: Pid): Option<State> {
    if p !in s.procs then None else Some(Gone(s, p))
  }

  /** The network may apply an envelope long after a submission of it was left in doubt. */
  function DoNetworkApplies(s: State, h: Hash): Option<State> {
    if h !in s.payable || h in s.dead then None else Some(s.(applied := s.applied + {h}))
  }

  function Do(env: Env, s: State, step: Step): Option<State> {
    var p := step.p;
    match step.act
    case Create(hold) => DoCreate(s, p, hold)
    case RecordHold => DoRecordHold(s, p)
    case EnqueueFirst(ok) => DoEnqueueFirst(s, p, ok)
    case Load => DoLoad(s, p)
    case Claim => DoClaim(s, p)
    case RejectPayout => DoRejectPayout(s, p)
    case Build(h) => DoBuild(s, p, h)
    case RecordHash => DoRecordHash(s, p)
    case SkipRecord => DoSkipRecord(env, s, p)
    case Send(r) => DoSend(env, s, p, r)
    case GiveUp => DoGiveUp(s, p)
    case LookUp(v) => DoLookUp(s, p, v)
    case MarkConfirmed => DoMarkConfirmed(s, p)
    case MarkFailed => DoMarkFailed(s, p)
    case ListAwaiting => DoListAwaiting(s, p)
    case LookUpListed(v) => DoLookUpListed(s, p, v)
    case CorrectConfirmed => DoCorrectConfirmed(s, p)
    case CorrectFailed => DoCorrectFailed(s, p)
    case ListConfirmed => DoListConfirmed(s, p)
    case FlagMismatch => DoFlagMismatch(s, p)
    case ListStuck => DoListStuck(s, p)
    case Reset(aged) => DoReset(env, s, p, aged)
    case Increment => DoIncrement(s, p)
    case MarkExhausted => DoMarkExhausted(env, s, p)
    case Requeue(ok) => DoRequeue(s, p, ok)
    case OpenReview(approve) => DoOpenReview(s, p, approve)
    case Decide => DoDecide(s, p)
    case Release => DoRelease(s, p)
    case RejectTransfer => DoRejectTransfer(s, p)
    case Stop => DoStop(s, p)
    case NetworkApplies(h) => DoNetworkApplies(s, h)
  }

  /** The state after a sequence of steps, or None if some step was not enabled. */
  function Run(env: Env, s: State, steps: seq<Step>): Option<State> {
    if steps == [] then Some(s)
    else match Run(env, s, steps[..|steps| - 1])
         case None => None
         case Some(m) => Do(env, m, steps[|steps| - 1])
  }

  /** Every state of every run is Run(env, Initial(), steps) for some steps. */
  ghost predicate Reachable(env: Env, s: State) {
    exists steps :: Run(env, Initial(), steps) == Some(s)
  }
}
