/** One deposit under any number of webhook deliveries, duplicated, reordered and interleaved, beside the
    request that created it; any process may stop anywhere. */
module DepositRuns {
  import opened Common
  import opened FiatRows

  type Pid = nat

  datatype Pc =
    | Initiating               // row created, rail being asked
    | RailErred
    | Matched(e: Event)        // read the row as pending, event agrees with it
    | Claimed(e: Event)        // won the claim
    | Credited | CreditErred

  datatype Action =
    | CreateDeposit(d: Deposit) | RailAnswers(ok: bool) | FailInitiation
    | Deliver(e: Event) | Claim | ClaimErrs | Credit(ok: bool) | Conclude | Stop

  datatype Step = Step(p: Pid, act: Action)

  /** What the environment is allowed to do. */
  datatype Env = Env(
    fold: Folding,
    contradictoryRail: bool,   // the rail may err on a deposit that the provider reports on
    contradictoryEvents: bool, // events that agree with the deposit may differ on what became of it
    creditsMayErr: bool,       // the transfer to the user may fail
    claimsMayErr: bool,        // the statement that claims a deposit may fail
    winnersMayStop: bool)      // a process may stop between the claim for a completed event and the credit

  datatype State = State(
    row: Option<Deposit>,
    procs: map<Pid, Pc>,
    // history
    credits: seq<Event>,       // the events that moved money to the user
    owner: Option<Pid>,        // who won the claim
    reported: bool,            // some event was delivered
    said: Option<string>,      // the status of the first event that agreed with the deposit
    acked: bool,               // the provider was answered 200 to such an event that said completed
    railErred: bool,
    failedByRail: bool)        // the creating request marked it failed

  function Initial(): State {
    State(None, map[], [], None, false, None, false, false, false)
  }

  function At(s: State, p: Pid, pc: Pc): State {
    s.(procs := s.procs[p := pc])
  }

  function Gone(s: State, p: Pid): State {
    s.(procs := s.procs - {p})
  }

  function DoRailAnswers(env: Env, s: State, p: Pid, ok: bool): Option<State> {
    if p !in s.procs || !s.procs[p].Initiating? then None
    else if ok then Some(Gone(s, p))
    else if s.reported && !env.contradictoryRail then None
    else Some(At(s, p, RailErred).(railErred := true))
  }

  /** A delivery returns nil, which the provider is answered as a 200. */
  function Acked(s: State, e: Event): State {
    s.(acked := s.acked || e.status == "completed")
  }

  /** What a delivery leaves on record. */
  function Heard(env: Env, s: State, e: Event): State
    requires s.row.Some?
  {
    if !Matches(env.fold, e, s.row.value) then s.(reported := true)
    else s.(reported := true, said := if s.said.None? then Some(e.status) else s.said)
  }

  function DoDeliver(env: Env, s: State, p: Pid, e: Event): Option<State> {
    if s.row.None? || p in s.procs || (s.railErred && !env.contradictoryRail) then None
    else if Matches(env.fold, e, s.row.value) && s.said.Some? && s.said != Some(e.status) && !env.contradictoryEvents then None
    else if !Matches(env.fold, e, s.row.value) then Some(Heard(env, s, e))
    else if s.row.value.status != Pending then Some(Acked(Heard(env, s, e), e))
    else Some(At(Heard(env, s, e), p, Matched(e)))
  }

  function DoClaim(s: State, p: Pid): Option<State> {
    if s.row.None? || p !in s.procs || !s.procs[p].Matched? then None
    else
      match DepositClaimed(s.row.value)
      case None => Some(Acked(Gone(s, p), s.procs[p].e))
      case Some(row) => Some(At(s, p, Claimed(s.procs[p].e)).(row := Some(row), owner := Some(p)))
  }

  /** The claim statement itself fails, which reads as a claim that was lost. */
  function DoClaimErrs(env: Env, s: State, p: Pid): Option<State> {
    if p !in s.procs || !s.procs[p].Matched? || !env.claimsMayErr then None else Some(Acked(Gone(s, p), s.procs[p].e))
  }

  function DoCredit(env: Env, s: State, p: Pid, ok: bool): Option<State> {
    if p !in s.procs || !s.procs[p].Claimed? || s.procs[p].e.status != "completed" then None
    else if ok then Some(At(s, p, Credited).(credits := s.credits + [s.procs[p].e]))
    else if !env.creditsMayErr then None
    else Some(At(s, p, CreditErred))
  }

  /** What the last write of a delivery sets; None: it writes nothing. */
  function Verdict(pc: Pc): Option<Status> {
    match pc
    case Credited => Some(Completed)
    case CreditErred => Some(Failed)
    case Claimed(e) => if e.status == "failed" then Some(Failed) else None
    case _ => None
  }

  function DoConclude(s: State, p: Pid): Option<State> {
    if s.row.None? || p !in s.procs || !(s.procs[p].Claimed? || s.procs[p].Credited? || s.procs[p].CreditErred?) then None
    else if s.procs[p].Claimed? && s.procs[p].e.status == "completed" then None
    else
      var v := Verdict(s.procs[p]);
      if v.None? then Some(Gone(s, p))
      else
        match DepositUpdated(s.row.value, v.value)
        case None => Some(Gone(s, p))
        case Some(row) => Some(Gone(s, p).(row := Some(row), acked := s.acked || s.procs[p].Credited?))
  }

  function DoFailInitiation(s: State, p: Pid): Option<State> {
    if s.row.None? || p !in s.procs || !s.procs[p].RailErred? then None
    else
      match DepositUpdated(s.row.value, Failed)
      case None => Some(Gone(s, p))
      case Some(row) => Some(Gone(s, p).(row := Some(row), failedByRail := true))
  }

  function DoStop(env: Env, s: State, p: Pid): Option<State> {
    if p !in s.procs then None
    else if s.procs[p].Claimed? && s.procs[p].e.status == "completed" && !env.winnersMayStop then None
    else Some(Gone(s, p))
  }

  function Do(env: Env, s: State, step: Step): Option<State> {
    var p := step.p;
    match step.act
    case CreateDeposit(d) =>
      if s.row.Some? || p in s.procs then None else Some(At(s, p, Initiating).(row := Some(d.(status := Pending))))
    case RailAnswers(ok) => DoRailAnswers(env, s, p, ok)
    case FailInitiation => DoFailInitiation(s, p)
    case Deliver(e) => DoDeliver(env, s, p, e)
    case Claim => DoClaim(s, p)
    case ClaimErrs => DoClaimErrs(env, s, p)
    case Credit(ok) => DoCredit(env, s, p, ok)
    case Conclude => DoConclude(s, p)
    case Stop => DoStop(env, s, p)
  }

  function Run(env: Env, s: State, steps: seq<Step>): Option<State> {
    if steps == [] then Some(s)
    else match Run(env, s, steps[..|steps| - 1])
         case None => None
         case Some(m) => Do(env, m, steps[|steps| - 1])
  }

  ghost predicate Reachable(env: Env, s: State) {
    exists steps :: Run(env, Initial(), steps) == Some(s)
  }

  // ---- invariant ----

  predicate Owning(pc: Pc) {
    pc.Claimed? || pc.Credited? || pc.CreditErred?
  }

  predicate ProcOk(env: Env, s: State, p: Pid, pc: Pc) {
    && s.row.Some?
    && (Owning(pc) ==>
          && s.reported && s.owner == Some(p) && s.row.value.status != Pending
          && (s.row.value.status == Failed ==> s.failedByRail))
    && match pc
       case Matched(e) => s.reported && Matches(env.fold, e, s.row.value)
       case Claimed(e) => Matches(env.fold, e, s.row.value) && s.credits == []
       case CreditErred => s.credits == []
       case Credited => s.credits != []
       case RailErred => s.railErred
       case Initiating => true
  }

  predicate Settles(env: Env, s: State, e: Event) {
    s.row.Some? && Matches(env.fold, e, s.row.value) && e.status == "completed"
  }

  /** What is on record about the rail. */
  predicate RailOk(env: Env, s: State) {
    && (s.failedByRail ==> s.row.Some? && s.row.value.status == Failed && s.railErred)
    && (s.credits != [] ==> s.reported)
    && (!env.contradictoryRail ==> !(s.reported && s.railErred))
  }

  /** What is on record about the events. */
  predicate SaidOk(env: Env, s: State) {
    && (s.said.Some? || s.acked ==> s.reported && s.row.Some?)
    && (!env.contradictoryEvents ==>
          && (forall p | p in s.procs && (s.procs[p].Matched? || s.procs[p].Claimed?) :: s.said == Some(s.procs[p].e.status))
          && (s.acked || s.credits != [] ==> s.said == Some("completed")))
  }

  predicate Inv(env: Env, s: State) {
    && (s.row.None? ==> s.procs == map[])
    && (s.row.None? || s.row.value.status == Pending ==> s.credits == [])
    && (s.row.Some? && s.row.value.status == Completed ==> s.credits != [])
    && (s.row.Some? && s.row.value.status == Failed && s.credits != [] ==> s.failedByRail)
    && |s.credits| <= 1
    && (forall e | e in s.credits :: Settles(env, s, e))
    && (forall p | p in s.procs :: ProcOk(env, s, p, s.procs[p]))
    && RailOk(env, s) && SaidOk(env, s)
  }

  lemma KeepRailAnswers(env: Env, s: State, p: Pid, ok: bool)
    requires Inv(env, s) && DoRailAnswers(env, s, p, ok).Some?
    ensures Inv(env, DoRailAnswers(env, s, p, ok).value)
  {
  }

  lemma KeepDeliver(env: Env, s: State, p: Pid, e: Event)
    requires Inv(env, s) && DoDeliver(env, s, p, e).Some?
    ensures Inv(env, DoDeliver(env, s, p, e).value)
  {
  }

  lemma KeepClaim(env: Env, s: State, p: Pid)
    requires Inv(env, s) && DoClaim(s, p).Some?
    ensures Inv(env, DoClaim(s, p).value)
  {
  }

  lemma KeepClaimErrs(env: Env, s: State, p: Pid)
    requires Inv(env, s) && DoClaimErrs(env, s, p).Some?
    ensures Inv(env, DoClaimErrs(env, s, p).value)
  {
  }

  lemma KeepCredit(env: Env, s: State, p: Pid, ok: bool)
    requires Inv(env, s) && DoCredit(env, s, p, ok).Some?
    ensures Inv(env, DoCredit(env, s, p, ok).value)
  {
  }

  lemma KeepConclude(env: Env, s: State, p: Pid)
    requires Inv(env, s) && DoConclude(s, p).Some?
    ensures Inv(env, DoConclude(s, p).value)
  {
  }

  lemma KeepFailInitiation(env: Env, s: State, p: Pid)
    requires Inv(env, s) && DoFailInitiation(s, p).Some?
    ensures Inv(env, DoFailInitiation(s, p).value)
  {
  }

  lemma StepKeepsInv(env: Env, s: State, step: Step)
    requires Inv(env, s) && Do(env, s, step).Some?
    ensures Inv(env, Do(env, s, step).value)
  {
    var p := step.p;
    match step.act
    case RailAnswers(ok) => KeepRailAnswers(env, s, p, ok);
    case FailInitiation => KeepFailInitiation(env, s, p);
    case Deliver(e) => KeepDeliver(env, s, p, e);
    case Claim => KeepClaim(env, s, p);
    case ClaimErrs => KeepClaimErrs(env, s, p);
    case Credit(ok) => KeepCredit(env, s, p, ok);
    case Conclude => KeepConclude(env, s, p);
    case CreateDeposit(_) | Stop =>
  }

  lemma {:induction false} RunKeepsInv(env: Env, steps: seq<Step>)
    requires Run(env, Initial(), steps).Some?
    ensures Inv(env, Run(env, Initial(), steps).value)
    decreases |steps|
  {
    if steps != [] {
      RunKeepsInv(env, steps[..|steps| - 1]);
      StepKeepsInv(env, Run(env, Initial(), steps[..|steps| - 1]).value, steps[|steps| - 1]);
    }
  }

  lemma ReachableKeepsInv(env: Env, s: State)
    requires Reachable(env, s)
    ensures Inv(env, s)
  {
    var steps :| Run(env, Initial(), steps) == Some(s);
    RunKeepsInv(env, steps);
  }

  /** However deliveries interleave, the deposit is credited at most once, only for an event that agrees with
      its amount and currency and says completed. It is marked completed only if credited; and once credited,
      it is failed exactly if the creating request marked it so. */
  lemma CreditedAtMostOnce(env: Env, s: State)
    requires Reachable(env, s)
    ensures |s.credits| <= 1
    ensures forall e | e in s.credits ::
              s.row.Some? && e.amount == s.row.value.fiatAmount
              && env.fold(e.currency) == env.fold(s.row.value.fiatCurrency) && e.status == "completed"
    ensures s.row.Some? && s.row.value.status == Completed ==> |s.credits| == 1
    ensures s.row.Some? && s.row.value.status == Pending ==> s.credits == []
    ensures s.row.Some? && s.credits != [] ==> (s.row.value.status == Failed <==> s.failedByRail)
  {
    ReachableKeepsInv(env, s);
  }

  // ---- credited, yet failed ----

  lemma Next(env: Env, s: State, step: Step) returns (s': State)
    requires Reachable(env, s) && Do(env, s, step).Some?
    ensures Reachable(env, s') && Do(env, s, step) == Some(s')
  {
    var steps :| Run(env, Initial(), steps) == Some(s);
    var all := steps + [step];
    assert all[..|all| - 1] == steps;
    s' := Do(env, s, step).value;
    assert Run(env, Initial(), all) == Some(s');
  }

  lemma Created(env: Env, d: Deposit, p: Pid) returns (s: State)
    ensures Reachable(env, s)
    ensures s == State(Some(d.(status := Pending)), map[p := Initiating], [], None, false, None, false, false, false)
  {
    s := Initial();
    assert Run(env, s, []) == Some(s);
    s := Next(env, s, Step(p, CreateDeposit(d)));
  }

  function Said(d: Deposit, status: string): Event {
    Event(d.fiatAmount, d.fiatCurrency, status)
  }

  /** Process 1 wins the claim for an event that agrees with the deposit. */
  lemma Wins(env: Env, d: Deposit, status: string) returns (s: State)
    ensures Reachable(env, s) && s.row == Some(d.(status := Processing)) && s.credits == []
    ensures s.procs == map[0 := Initiating, 1 := Claimed(Said(d, status))]
    ensures s.reported && s.said == Some(status) && !s.railErred
  {
    hide Reachable;
    s := Created(env, d, 0);
    s := Next(env, s, Step(1, Deliver(Said(d, status))));
    s := Next(env, s, Step(1, Claim));
  }

  /** A credited deposit can still end as failed: the request that created it hears a late error of the rail,
      and its write stops only at completed or failed rows. */
  lemma CreditedCanEndAsFailed(env: Env, d: Deposit) returns (s: State)
    requires env.contradictoryRail
    ensures Reachable(env, s) && s.procs == map[]
    ensures s.row == Some(d.(status := Failed)) && |s.credits| == 1
  {
    hide Reachable;
    s := Wins(env, d, "completed");
    s := Next(env, s, Step(1, Credit(true)));
    s := Next(env, s, Step(0, RailAnswers(false)));
    s := Next(env, s, Step(0, FailInitiation));
    s := Next(env, s, Step(1, Conclude));
  }

  /** No credited deposit is ever failed exactly if the rail never errs on a deposit that the provider
      reports on. */
  lemma CreditedNeverFailedIff(env: Env)
    ensures (forall s | Reachable(env, s) && s.credits != [] :: s.row.Some? && s.row.value.status != Failed)
            <==> !env.contradictoryRail
  {
    if env.contradictoryRail {
      var s := CreditedCanEndAsFailed(env, Deposit("", 1, "", 1, Pending));
    } else {
      forall s | Reachable(env, s) && s.credits != []
        ensures s.row.Some? && s.row.value.status != Failed
      {
        ReachableKeepsInv(env, s);
      }
    }
  }

  // ---- due, yet not credited ----

  predicate Clean(env: Env) {
    && !env.contradictoryRail && !env.contradictoryEvents
    && !env.creditsMayErr && !env.claimsMayErr && !env.winnersMayStop
  }

  /** Somebody has the credit of the deposit in hand. */
  predicate AtWork(s: State) {
    exists p | p in s.procs :: s.procs[p].Claimed?
  }

  predicate OwnerAtWork(s: State) {
    s.owner.Some? && s.owner.value in s.procs && s.procs[s.owner.value].Claimed?
  }

  predicate Honoured(s: State) {
    && (forall p | p in s.procs :: !s.procs[p].CreditErred?)
    && (s.acked ==> s.row.Some? && s.row.value.status != Pending)
    && (s.row.Some? && s.row.value.status != Pending && !s.railErred ==>
          s.said.Some? && (s.said == Some("completed") ==> s.credits != [] || OwnerAtWork(s)))
  }

  lemma DeliverHonours(env: Env, s: State, p: Pid, e: Event)
    requires Clean(env) && Inv(env, s) && Honoured(s) && DoDeliver(env, s, p, e).Some?
    ensures Honoured(DoDeliver(env, s, p, e).value)
  {
  }

  lemma ClaimHonours(env: Env, s: State, p: Pid)
    requires Clean(env) && Inv(env, s) && Honoured(s) && DoClaim(s, p).Some?
    ensures Honoured(DoClaim(s, p).value)
  {
  }

  lemma StepHonours(env: Env, s: State, step: Step)
    requires Clean(env) && Inv(env, s) && Honoured(s) && Do(env, s, step).Some?
    ensures Honoured(Do(env, s, step).value)
  {
    match step.act
    case Deliver(e) => DeliverHonours(env, s, step.p, e);
    case Claim => ClaimHonours(env, s, step.p);
    case CreateDeposit(_) | RailAnswers(_) | FailInitiation | ClaimErrs | Credit(_) | Conclude | Stop =>
  }

  lemma {:induction false} RunHonours(env: Env, steps: seq<Step>)
    requires Clean(env) && Run(env, Initial(), steps).Some?
    ensures Honoured(Run(env, Initial(), steps).value)
    decreases |steps|
  {
    if steps != [] {
      var init := steps[..|steps| - 1];
      RunHonours(env, init);
      RunKeepsInv(env, init);
      StepHonours(env, Run(env, Initial(), init).value, steps[|steps| - 1]);
    }
  }

  /** The provider was answered 200 to a completed event that agrees with the deposit, so that it has no reason to
      deliver again, and nobody has the credit in hand. */
  predicate Settled(s: State) {
    s.acked && !AtWork(s)
  }

  /** A transfer to the user that errs. */
  lemma LostToAnError(env: Env, d: Deposit) returns (s: State)
    requires env.creditsMayErr
    ensures Reachable(env, s) && Settled(s) && s.credits == []
  {
    hide Reachable;
    s := Wins(env, d, "completed");
    s := Next(env, s, Step(1, Credit(false)));
    s := Next(env, s, Step(1, Conclude));
    s := Next(env, s, Step(1, Deliver(Said(d, "completed"))));
  }

  /** A claim that errs: it is acknowledged as if it had been lost. */
  lemma LostToAClaimError(env: Env, d: Deposit) returns (s: State)
    requires env.claimsMayErr
    ensures Reachable(env, s) && Settled(s) && s.credits == []
  {
    hide Reachable;
    s := Created(env, d, 0);
    s := Next(env, s, Step(1, Deliver(Said(d, "completed"))));
    s := Next(env, s, Step(1, ClaimErrs));
  }

  /** A process that stops between the claim and the credit. */
  lemma LostToACrash(env: Env, d: Deposit) returns (s: State)
    requires env.winnersMayStop
    ensures Reachable(env, s) && Settled(s) && s.credits == []
  {
    hide Reachable;
    s := Wins(env, d, "completed");
    s := Next(env, s, Step(1, Stop));
    s := Next(env, s, Step(1, Deliver(Said(d, "completed"))));
  }

  /** An earlier event that said otherwise. */
  lemma LostToAnotherEvent(env: Env, d: Deposit) returns (s: State)
    requires env.contradictoryEvents
    ensures Reachable(env, s) && Settled(s) && s.credits == []
  {
    hide Reachable;
    s := Wins(env, d, "failed");
    s := Next(env, s, Step(1, Conclude));
    s := Next(env, s, Step(2, Deliver(Said(d, "completed"))));
  }

  /** An error of the rail on a payment that completes. */
  lemma LostToTheRail(env: Env, d: Deposit) returns (s: State)
    requires env.contradictoryRail
    ensures Reachable(env, s) && Settled(s) && s.credits == []
  {
    hide Reachable;
    s := Created(env, d, 0);
    s := Next(env, s, Step(0, RailAnswers(false)));
    s := Next(env, s, Step(0, FailInitiation));
    s := Next(env, s, Step(2, Deliver(Said(d, "completed"))));
  }

  /** A completed payment whose delivery was acknowledged is always credited exactly if neither the rail nor another
      event contradicts it, no claim and no transfer errs, and nobody stops with the credit in hand. */
  lemma DueIsCreditedIff(env: Env)
    ensures (forall s | Reachable(env, s) && Settled(s) :: s.credits != []) <==> Clean(env)
  {
    var d := Deposit("", 1, "", 1, Pending);
    if Clean(env) {
      forall s | Reachable(env, s) && Settled(s)
        ensures s.credits != []
      {
        var steps :| Run(env, Initial(), steps) == Some(s);
        RunHonours(env, steps);
        RunKeepsInv(env, steps);
      }
    } else {
      var s: State;
      if env.contradictoryRail { s := LostToTheRail(env, d); }
      else if env.contradictoryEvents { s := LostToAnotherEvent(env, d); }
      else if env.creditsMayErr { s := LostToAnError(env, d); }
      else if env.claimsMayErr { s := LostToAClaimError(env, d); }
      else { s := LostToACrash(env, d); }
    }
  }

  // ---- lost for good ----

  predicate Lost(s: State) {
    Settled(s) && s.credits == [] && s.row.Some? && s.row.value.status != Pending
  }

  lemma NothingComes(env: Env, s: State, step: Step)
    requires Lost(s) && Do(env, s, step).Some?
    ensures Lost(Do(env, s, step).value)
  {
    var s' := Do(env, s, step).value;
    assert forall q | q in s.procs :: !s.procs[q].Claimed?;
    assert forall q | q in s'.procs :: !s'.procs[q].Claimed?;
  }

  lemma {:induction false} StaysLost(env: Env, s: State, steps: seq<Step>)
    requires Lost(s) && Run(env, s, steps).Some?
    ensures Lost(Run(env, s, steps).value)
    decreases |steps|
  {
    if steps != [] {
      var init := steps[..|steps| - 1];
      StaysLost(env, s, init);
      NothingComes(env, Run(env, s, init).value, steps[|steps| - 1]);
    }
  }

  /** A settled deposit that was not credited is lost for good, exactly if it has left pending: a pending one
      would be credited by one more delivery. */
  lemma LostForGoodIff(env: Env, s: State)
    requires Reachable(env, s) && Settled(s) && s.credits == []
    ensures s.row.Some?
    ensures (forall steps | Run(env, s, steps).Some? :: Run(env, s, steps).value.credits == [])
            <==> s.row.value.status != Pending
  {
    ReachableKeepsInv(env, s);
    if s.row.value.status == Pending {
      var p := Unused(s.procs.Keys);
      var d := s.row.value;
      var again := [Step(p, Deliver(Said(d, "completed"))), Step(p, Claim), Step(p, Credit(true))];
      assert again[..3] == again && again[..2] == [again[0], again[1]] && again[..1] == [again[0]] && again[..0] == [];
      assert [again[0], again[1]][..1] == [again[0]] && [again[0]][..0] == [];
      assert Run(env, s, again[..1]) == Do(env, s, again[0]);
      assert Run(env, s, again[..2]).Some?;
      assert Run(env, s, again).Some? && |Run(env, s, again).value.credits| == 1;
    } else {
      forall steps | Run(env, s, steps).Some? ensures Run(env, s, steps).value.credits == [] { StaysLost(env, s, steps); }
    }
  }
}

/** The code on the deposit of one reference, with other deliveries running between its statements. */
module DepositService {
  import opened Common
  import opened FiatRows
  import opened DepositRuns

  ghost predicate Foreign(o: Interleaving<Step>, p: Pid) {
    forall k: nat, i | 0 <= i < |o(k)| :: o(k)[i].p != p
  }

  /** Nothing in the code keeps the environment from any of this. */
  function Anything(fold: Folding): Env {
    Env(fold, true, true, true, true, true)
  }

  /** What the environment answers to one delivery. */
  datatype Answers = Answers(claimErrs: bool, transferErrs: bool, updateErrs: bool)

  datatype Outcome = Nil | NotFound | Mismatch | TransferError | UpdateError

  /** What an undisturbed delivery makes of a deposit. */
  function DepositAfter(fold: Folding, d: Deposit, e: Event, a: Answers): Deposit {
    if d.status != Pending || !Matches(fold, e, d) || a.claimErrs then d
    else if a.updateErrs || e.status !in {"completed", "failed"} then d.(status := Processing)
    else d.(status := if e.status == "completed" && !a.transferErrs then Completed else Failed)
  }

  /** What it reports. */
  function Reported(fold: Folding, d: Deposit, e: Event, a: Answers): Outcome {
    if d.status != Pending then Nil
    else if !Matches(fold, e, d) then Mismatch
    else if a.claimErrs then Nil
    else if e.status == "completed" && a.transferErrs then TransferError
    else if a.updateErrs && e.status in {"completed", "failed"} then UpdateError
    else Nil
  }

  predicate Pays(fold: Folding, d: Deposit, e: Event, a: Answers) {
    d.status == Pending && Matches(fold, e, d) && !a.claimErrs && e.status == "completed" && !a.transferErrs
  }

  /** Only the status of the row may have changed. */
  predicate SameDeposit(before: State, after: State)
    requires before.row.Some?
  {
    after.row.Some? && after.row.value == before.row.value.(status := after.row.value.status)
  }

  /** What a step of process q may change: itself, the status of the row, and one more credit. */
  predicate Mild(s: State, s': State, q: Pid) {
    && s'.procs - {q} == s.procs - {q}
    && (s.row.Some? ==> SameDeposit(s, s'))
    && |s.credits| <= |s'.credits| <= |s.credits| + 1
    && (s.acked ==> s'.acked)
  }

  lemma DeliverIsMild(env: Env, s: State, p: Pid, e: Event)
    requires DoDeliver(env, s, p, e).Some?
    ensures Mild(s, DoDeliver(env, s, p, e).value, p)
  {
    hide Matches;
  }

  lemma ClaimIsMild(s: State, p: Pid)
    requires DoClaim(s, p).Some?
    ensures Mild(s, DoClaim(s, p).value, p)
  {
  }

  lemma ClaimErrsIsMild(env: Env, s: State, p: Pid)
    requires DoClaimErrs(env, s, p).Some?
    ensures Mild(s, DoClaimErrs(env, s, p).value, p)
  {
  }

  lemma CreditIsMild(env: Env, s: State, p: Pid, ok: bool)
    requires DoCredit(env, s, p, ok).Some?
    ensures Mild(s, DoCredit(env, s, p, ok).value, p)
  {
  }

  lemma ConcludeIsMild(s: State, p: Pid)
    requires DoConclude(s, p).Some?
    ensures Mild(s, DoConclude(s, p).value, p)
  {
  }

  lemma FailIsMild(s: State, p: Pid)
    requires DoFailInitiation(s, p).Some?
    ensures Mild(s, DoFailInitiation(s, p).value, p)
  {
  }

  lemma StepIsMild(env: Env, s: State, step: Step)
    requires Do(env, s, step).Some?
    ensures Mild(s, Do(env, s, step).value, step.p)
  {
    hide DoDeliver, DoClaim, DoCredit, DoConclude, DoFailInitiation;
    var p := step.p;
    match step.act
    case Deliver(e) => DeliverIsMild(env, s, p, e);
    case Claim => ClaimIsMild(s, p);
    case ClaimErrs => ClaimErrsIsMild(env, s, p);
    case Credit(ok) => CreditIsMild(env, s, p, ok);
    case Conclude => ConcludeIsMild(s, p);
    case FailInitiation => FailIsMild(s, p);
    case CreateDeposit(_) | RailAnswers(_) | Stop =>
  }

  /** Steps of others leave this process where it stands. */
  lemma OthersLeaveMe(s: State, s': State, q: Pid, p: Pid)
    requires Mild(s, s', q) && q != p
    ensures (p in s'.procs <==> p in s.procs) && (p in s.procs ==> s'.procs[p] == s.procs[p])
  {
    assert p in s'.procs <==> p in s'.procs - {q};
    assert p in s.procs <==> p in s.procs - {q};
    assert p in s.procs ==> (s'.procs - {q})[p] == (s.procs - {q})[p];
  }

  class Handler {
    const ref: string
    const repo: FiatRepo
    const fold: Folding
    /** The rest of the world: the other deliveries, and the history the theorems are about. The program's own
        code reads the store, never this. */
    var s: State
    /** Every transfer initiated to the user. */
    var transfers: seq<Transfer>

    constructor (ref: string, repo: FiatRepo, fold: Folding)
      requires ref !in repo.deposits
      ensures Good() && s == Initial() && this.ref == ref && this.repo == repo && this.fold == fold
    {
      this.ref, this.repo, this.fold, s, transfers := ref, repo, fold, Initial(), [];
      new;
      assert Run(Anything(fold), Initial(), []) == Some(s);
    }

    /** The row is the row of some run, and every credit of that run is a transfer of the deposited amount. */
    ghost predicate Good()
      reads this, repo
    {
      && Reachable(Anything(fold), s)
      && s.row == (if ref in repo.deposits then Some(repo.deposits[ref]) else None)
      && |transfers| == |s.credits|
      && (transfers != [] ==> s.row.Some?)
      && forall t | t in transfers :: t == Transfer(PLATFORM, s.row.value.wallet, s.row.value.credit)
    }

    method Did(p: Pid, act: Action)
      requires Reachable(Anything(fold), s) && Do(Anything(fold), s, Step(p, act)).Some?
      modifies this`s
      ensures Reachable(Anything(fold), s) && Some(s) == Do(Anything(fold), old(s), Step(p, act))
    {
      ghost var next := Next(Anything(fold), s, Step(p, act));
      s := Do(Anything(fold), s, Step(p, act)).value;
    }

    method Others(p: Pid, steps: seq<Step>)
      requires Good() && forall i | 0 <= i < |steps| :: steps[i].p != p
      modifies this, repo`deposits
      ensures Good()
      ensures (p in s.procs <==> p in old(s).procs) && (p in s.procs ==> s.procs[p] == old(s).procs[p])
      ensures (old(s).row.Some? ==> SameDeposit(old(s), s)) && (old(s).acked ==> s.acked)
      ensures steps == [] ==> s == old(s) && transfers == old(transfers) && repo.deposits == old(repo.deposits)
    {
      hide Reachable;
      for i := 0 to |steps|
        invariant Good()
        invariant (p in s.procs <==> p in old(s).procs) && (p in s.procs ==> s.procs[p] == old(s).procs[p])
        invariant (old(s).row.Some? ==> SameDeposit(old(s), s)) && (old(s).acked ==> s.acked)
        invariant steps == [] ==> s == old(s) && transfers == old(transfers) && repo.deposits == old(repo.deposits)
      {
        if Do(Anything(fold), s, steps[i]).Some? { TakeOthers(steps[i], p); }
      }
    }

    method TakeOthers(step: Step, ghost p: Pid)
      requires Good() && step.p != p && Do(Anything(fold), s, step).Some?
      modifies this, repo`deposits
      ensures Good()
      ensures (p in s.procs <==> p in old(s).procs) && (p in s.procs ==> s.procs[p] == old(s).procs[p])
      ensures (old(s).row.Some? ==> SameDeposit(old(s), s)) && (old(s).acked ==> s.acked)
    {
      hide Reachable, Do;
      StepIsMild(Anything(fold), s, step);
      ghost var before := s;
      var credits := |s.credits|;
      Did(step.p, step.act);
      OthersLeaveMe(before, s, step.p, p);
      if s.row.Some? {
        repo.deposits := repo.deposits[ref := s.row.value];
        if |s.credits| > credits { transfers := transfers + [Transfer(PLATFORM, s.row.value.wallet, s.row.value.credit)]; }
      } else {
        NoCredits(Anything(fold), s);
      }
    }

    /** The row first, then the rail; a rail error marks the row failed, as far as the guard lets it. */
    method InitiateDeposit(p: Pid, d: Deposit, quoteErrs: bool, railErrs: bool, updateErrs: bool, o: Interleaving<Step>) returns (ok: bool)
      requires Good() && s.row.None? && p !in s.procs && Foreign(o, p)
      modifies this, repo`deposits
      ensures Good() && p !in s.procs
      ensures ok <==> !quoteErrs && !railErrs
      ensures quoteErrs ==> repo.deposits == old(repo.deposits)
      ensures !quoteErrs ==> s.row.Some? && s.row.value == d.(status := s.row.value.status)
      ensures !quoteErrs && railErrs && !updateErrs ==> s.row.value.status in {Completed, Failed}
      ensures Quiet(o) && !quoteErrs ==>
                s.row == Some(d.(status := if railErrs && !updateErrs then Failed else Pending)) && transfers == old(transfers)
    {
      hide Reachable;
      ok := !quoteErrs && !railErrs;
      if quoteErrs { return; }
      repo.deposits := repo.deposits[ref := d.(status := Pending)];
      NoCredits(Anything(fold), s);
      Did(p, CreateDeposit(d));
      Others(p, o(0));
      Did(p, RailAnswers(!railErrs));
      if railErrs { FailInitiation(p, updateErrs, o(1)); }
    }

    method FailInitiation(p: Pid, updateErrs: bool, others: seq<Step>)
      requires Good() && p in s.procs && s.procs[p] == RailErred && s.row.Some?
      requires forall i | 0 <= i < |others| :: others[i].p != p
      modifies this, repo`deposits
      ensures Good() && p !in s.procs && SameDeposit(old(s), s)
      ensures !updateErrs ==> s.row.value.status in {Completed, Failed}
      ensures others == [] ==>
                && transfers == old(transfers)
                && s.row == if updateErrs || DepositUpdated(old(s).row.value, Failed).None? then old(s).row
                            else DepositUpdated(old(s).row.value, Failed)
    {
      hide Reachable;
      Others(p, others);
      if updateErrs {
        Did(p, Stop);
      } else {
        var done := repo.UpdateDepositStatus(ref, Failed);
        Did(p, DepositRuns.FailInitiation);
      }
    }

    /** One delivery of a deposit event. However many run at once, the user is paid at most once, the
        deposited amount, to the depositing wallet. */
    method HandleWebhook(p: Pid, e: Event, a: Answers, o: Interleaving<Step>) returns (r: Outcome)
      requires Good() && p !in s.procs && Foreign(o, p)
      modifies this, repo`deposits
      ensures Good() && p !in s.procs
      ensures |transfers| <= 1
      ensures forall t | t in transfers :: s.row.Some? && t == Transfer(PLATFORM, s.row.value.wallet, s.row.value.credit)
      ensures r == NotFound <==> old(s).row.None?
      ensures r == Nil && e.status == "completed" && Matches(fold, e, old(s).row.value) ==> s.acked
      ensures r == Mismatch <==>
              && old(s).row.Some? && old(s).row.value.status == Pending
              && (e.amount != old(s).row.value.fiatAmount || fold(e.currency) != fold(old(s).row.value.fiatCurrency))
      ensures r == TransferError ==> e.status == "completed" && a.transferErrs && !a.claimErrs
      ensures r == UpdateError ==> e.status in {"completed", "failed"} && !a.claimErrs
      ensures Quiet(o) && old(s).row.Some? ==>
                var d := old(s).row.value;
                var agrees := e.amount == d.fiatAmount && fold(e.currency) == fold(d.fiatCurrency);
                var wins := d.status == Pending && agrees && !a.claimErrs;
                var paid := wins && e.status == "completed" && !a.transferErrs;
                && s.row == Some(d.(status := if !wins then d.status
                                              else if a.updateErrs || e.status !in {"completed", "failed"} then Processing
                                              else if paid then Completed else Failed))
                && transfers == old(transfers) + (if paid then [Transfer(PLATFORM, d.wallet, d.credit)] else [])
                && r == (if d.status == Pending && !agrees then Mismatch
                         else if !wins then Nil
                         else if e.status == "completed" && a.transferErrs then TransferError
                         else if a.updateErrs && e.status in {"completed", "failed"} then UpdateError else Nil)
    {
      hide Reachable;
      r := Deliver(p, e, a, o);
      CreditedAtMostOnce(Anything(fold), s);
    }

    method Deliver(p: Pid, e: Event, a: Answers, o: Interleaving<Step>) returns (r: Outcome)
      requires Good() && p !in s.procs && Foreign(o, p)
      modifies this, repo`deposits
      ensures Good() && p !in s.procs
      ensures r == NotFound <==> old(s).row.None?
      ensures r == Nil && e.status == "completed" && Matches(fold, e, old(s).row.value) ==> s.acked
      ensures r == Mismatch <==>
              && old(s).row.Some? && old(s).row.value.status == Pending
              && (e.amount != old(s).row.value.fiatAmount || fold(e.currency) != fold(old(s).row.value.fiatCurrency))
      ensures r == TransferError ==> e.status == "completed" && a.transferErrs && !a.claimErrs
      ensures r == UpdateError ==> e.status in {"completed", "failed"} && !a.claimErrs
      ensures Quiet(o) && old(s).row.Some? ==>
                var d := old(s).row.value;
                && s.row == Some(DepositAfter(fold, d, e, a)) && r == Reported(fold, d, e, a)
                && transfers == old(transfers) + (if Pays(fold, d, e, a) then [Transfer(PLATFORM, d.wallet, d.credit)] else [])
    {
      hide Reachable, Do;
      if ref !in repo.deposits { return NotFound; }
      var d := repo.deposits[ref];
      Hear(p, e);
      if d.status != Pending { return Nil; }
      if e.amount != d.fiatAmount || fold(e.currency) != fold(d.fiatCurrency) { return Mismatch; }
      var claimed := ClaimDeposit(p, e, a.claimErrs, o(0));
      if !claimed { return Nil; }
      r := Settle(p, e, a, o);
    }

    /** The event as it meets the row it is about. */
    method Hear(p: Pid, e: Event)
      requires Good() && p !in s.procs && s.row.Some?
      modifies this`s
      ensures Good() && s.row == old(s).row
      ensures Matches(fold, e, s.row.value) && s.row.value.status != Pending && e.status == "completed" ==> s.acked
      ensures if s.row.value.status == Pending && Matches(fold, e, s.row.value)
              then p in s.procs && s.procs[p] == Matched(e) else p !in s.procs
    {
      hide Reachable, DoClaim, DoCredit, DoConclude, DoFailInitiation;
      Did(p, DepositRuns.Deliver(e));
    }

    method ClaimDeposit(p: Pid, e: Event, errs: bool, others: seq<Step>) returns (ok: bool)
      requires Good() && p in s.procs && s.procs[p] == Matched(e) && s.row.Some?
      requires forall i | 0 <= i < |others| :: others[i].p != p
      modifies this, repo`deposits
      ensures Good() && s.row.Some?
      ensures if ok then p in s.procs && s.procs[p] == Claimed(e) else p !in s.procs
      ensures (!ok && e.status == "completed" ==> s.acked) && (ok ==> !errs)
      ensures others == [] ==>
                && transfers == old(transfers)
                && ok == (!errs && old(s).row.value.status == Pending)
                && s.row.value == if ok then old(s).row.value.(status := Processing) else old(s).row.value
    {
      hide Reachable;
      Others(p, others);
      if errs {
        Did(p, ClaimErrs);
        return false;
      }
      ok := repo.ClaimDepositForProcessing(ref);
      Did(p, Claim);
    }

    /** What the winner of the claim does. */
    method Settle(p: Pid, e: Event, a: Answers, o: Interleaving<Step>) returns (r: Outcome)
      requires Good() && p in s.procs && s.procs[p] == Claimed(e) && s.row.Some? && Foreign(o, p)
      modifies this, repo`deposits
      ensures Good() && p !in s.procs
      ensures r !in {NotFound, Mismatch}
      ensures r == Nil && e.status == "completed" ==> s.acked
      ensures r == TransferError <==> e.status == "completed" && a.transferErrs
      ensures r == UpdateError ==> e.status in {"completed", "failed"}
      ensures a.updateErrs && e.status in {"completed", "failed"} ==> r != Nil
      ensures r == Nil && e.status in {"completed", "failed"} ==>
                s.row.Some? && s.row.value.status == if e.status == "completed" then Completed else Failed
      ensures Quiet(o) && old(s).row.value.status == Processing ==>
                var paid := e.status == "completed" && !a.transferErrs;
                && s.row == (if a.updateErrs || e.status !in {"completed", "failed"} then old(s).row
                             else Some(old(s).row.value.(status := if paid then Completed else Failed)))
                && transfers == old(transfers) + (if paid then [Transfer(PLATFORM, old(s).row.value.wallet, old(s).row.value.credit)] else [])
                && (r == UpdateError <==> a.updateErrs && e.status in {"completed", "failed"} && r != TransferError)
    {
      hide Reachable;
      if e.status == "completed" {
        Others(p, o(1));
        PayUser(p, e, !a.transferErrs);
      }
      Others(p, o(2));
      var paid := e.status == "completed" && !a.transferErrs;
      var done := !a.updateErrs;
      if a.updateErrs && e.status in {"completed", "failed"} {
        Did(p, Stop);
      } else {
        done := ConcludeDelivery(p, e, paid);
      }
      r := if e.status == "completed" && a.transferErrs then TransferError
           else if e.status in {"completed", "failed"} && !done then UpdateError else Nil;
    }

    method PayUser(p: Pid, e: Event, ok: bool)
      requires Good() && p in s.procs && s.procs[p] == Claimed(e) && e.status == "completed" && s.row.Some?
      modifies this
      ensures Good() && p in s.procs && s.procs[p] == (if ok then Credited else CreditErred) && s.row == old(s).row
      ensures transfers == old(transfers) + (if ok then [Transfer(PLATFORM, s.row.value.wallet, s.row.value.credit)] else [])
    {
      hide Reachable;
      var d := repo.deposits[ref];
      if ok { transfers := transfers + [Transfer(PLATFORM, d.wallet, d.credit)]; }
      Did(p, Credit(ok));
    }

    /** True if the row was written. */
    method ConcludeDelivery(p: Pid, e: Event, paid: bool) returns (done: bool)
      requires Good() && p in s.procs && s.row.Some?
      requires s.procs[p] == if e.status != "completed" then Claimed(e) else if paid then Credited else CreditErred
      modifies this`s, repo`deposits
      ensures Good() && p !in s.procs
      ensures s.row ==
                if e.status !in {"completed", "failed"} || DepositUpdated(old(s).row.value, Failed).None? then old(s).row
                else Some(old(s).row.value.(status := if e.status == "completed" && paid then Completed else Failed))
      ensures done <==> e.status in {"completed", "failed"} && DepositUpdated(old(s).row.value, Failed).Some?
      ensures transfers == old(transfers) && (done && e.status == "completed" && paid ==> s.acked)
    {
      hide Reachable, DoClaim, DoCredit, DoDeliver, DoFailInitiation;
      done := false;
      if e.status == "completed" || e.status == "failed" {
        done := repo.UpdateDepositStatus(ref, if e.status == "completed" && paid then Completed else Failed);
      }
      Did(p, Conclude);
    }
  }

  lemma NoCredits(env: Env, s: State)
    requires Reachable(env, s) && s.row.None?
    ensures s.credits == []
  {
    ReachableKeepsInv(env, s);
  }
}
