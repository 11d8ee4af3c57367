/** Where the protection ends: runs that break a promise and pay twice, and what takes a row out of
    confirmed. */
module LifecycleLimits {
  import opened Common
  import opened Transactions
  import opened Lifecycle
  import opened LifecycleInvariants
  import opened LifecycleSafety

  lemma Next(env: Env, s: State, step: Step) returns (s': State)
    requires Reachable(env, s) && Do(env, s, step).Some?
    ensures Reachable(env, s') && Do(env, s, step) == Some(s')
  {
    var steps :| Run(env, Initial(), steps) == Some(s);
    var all := steps + [step];
    assert all[..|all| - 1] == steps;
    s' := Do(env, s, step).value;
    assert Run(env, Initial(), all) == Some(s');
  }

  // ---- pieces of runs ----

  /** A transfer is created and enqueued by process 0. */
  lemma Started(env: Env) returns (s: State)
    ensures Reachable(env, s)
    ensures s.row == Some(Row(Pending, None, 0, 0)) && s.procs == map[] && s.firstTasks == 1
    ensures s.sent == {} && s.applied == {} && s.dead == {}
  {
    s := Initial();
    assert Run(env, s, []) == Some(s);
    s := Next(env, s, Step(0, Create(false)));
    s := Next(env, s, Step(0, EnqueueFirst(true)));
    assert s.procs == map[];
  }

  /** Process p picks up a task and wins the claim. */
  lemma Claims(env: Env, s: State, p: Pid) returns (s': State)
    requires Reachable(env, s)
    requires s.row.Some? && s.row.value.status == Pending && p !in s.procs && s.firstTasks == 1
    ensures Reachable(env, s')
    ensures s'.row == Some(s.row.value.(status := Submitted)) && s'.procs == s.procs[p := Won] && s'.firstTasks == 1
    ensures s'.sent == s.sent && s'.applied == s.applied && s'.dead == s.dead
  {
    hide Reachable;
    s' := Next(env, s, Step(p, Load));
    s' := Next(env, s', Step(p, Claim));
  }

  /** Process p signs h and goes past the hash write, which succeeds or not. */
  lemma Signs(env: Env, s: State, p: Pid, h: Hash, record: bool) returns (s': State)
    requires Reachable(env, s)
    requires s.row.Some? && s.row.value.status != Confirmed && p in s.procs && s.procs[p] == Won
    requires record || env.hashWriteMayFail
    ensures Reachable(env, s')
    ensures s'.row == if record then Some(s.row.value.(status := Submitted, hash := Some(h))) else s.row
    ensures s'.procs == s.procs[p := Sending(h, 0)] && s'.firstTasks == s.firstTasks
    ensures s'.sent == s.sent && s'.applied == s.applied && s'.dead == s.dead
  {
    hide Reachable;
    s' := Next(env, s, Step(p, Build(h)));
    if record { s' := Next(env, s', Step(p, RecordHash)); } else { s' := Next(env, s', Step(p, SkipRecord)); }
  }

  /** Process p sends h and hears success, having recorded h first or not. */
  lemma Pays(env: Env, s: State, p: Pid, h: Hash, record: bool) returns (s': State)
    requires Reachable(env, s)
    requires s.row.Some? && s.row.value.status != Confirmed && p in s.procs && s.procs[p] == Won
    requires (record || env.hashWriteMayFail) && h !in s.dead
    ensures Reachable(env, s')
    ensures s'.row == if record then Some(s.row.value.(status := Submitted, hash := Some(h))) else s.row
    ensures s'.procs == s.procs[p := Accepted(h)] && s'.firstTasks == s.firstTasks
    ensures s'.applied == s.applied + {h} && s'.dead == s.dead
  {
    hide Reachable;
    s' := Signs(env, s, p, h, record);
    s' := Next(env, s', Step(p, Send(Success)));
  }

  /** Stuck recovery by process p gives a claimed row without a hash back. */
  lemma GivesBack(env: Env, s: State, p: Pid) returns (s': State)
    requires Reachable(env, s)
    requires s.row.Some? && s.row.value.status == Submitted && s.row.value.hash == None && p !in s.procs
    requires env.resetWhileClaimed || s.procs == map[]
    ensures Reachable(env, s')
    ensures s'.row == Some(s.row.value.(status := Pending)) && s'.procs == s.procs[p := Requeuing]
    ensures s'.applied == s.applied && s'.dead == s.dead && s'.firstTasks == s.firstTasks
  {
    hide Reachable;
    s' := Next(env, s, Step(p, ListStuck));
    assert env.resetWhileClaimed || forall q | q in s'.procs :: q == p;
    s' := Next(env, s', Step(p, Reset(true)));
  }

  // ---- two payments ----

  /** The hash write fails, the worker pays and dies, and stuck recovery sees a row with no hash. */
  lemma UnrecordedPaysTwice(env: Env) returns (s: State)
    requires env.hashWriteMayFail
    ensures Reachable(env, s) && s.applied == {1, 2}
  {
    hide Reachable;
    s := Started(env);
    s := Claims(env, s, 1);
    s := Pays(env, s, 1, 1, false);
    s := Next(env, s, Step(1, Stop));
    assert s.procs == map[];
    s := GivesBack(env, s, 2);
    s := Claims(env, s, 3);
    s := Pays(env, s, 3, 2, true);
  }

  /** A reset hits a row whose claimant is merely slow. */
  lemma ResetWhileClaimedPaysTwice(env: Env) returns (s: State)
    requires env.resetWhileClaimed
    ensures Reachable(env, s) && s.applied == {1, 2}
  {
    hide Reachable;
    s := Started(env);
    s := Claims(env, s, 1);
    s := GivesBack(env, s, 2);
    s := Claims(env, s, 3);
    s := Pays(env, s, 3, 2, true);
    s := Pays(env, s, 1, 1, true);
  }

  ghost predicate PaysAtMostOnce(env: Env) {
    forall s | Reachable(env, s) :: |s.applied| <= 1
  }

  ghost predicate SendsAtMostOneEnvelope(env: Env) {
    forall s | Reachable(env, s) :: |s.sent| <= 1
  }

  /** The two promises are exactly what a single payment, and a single envelope, need. */
  lemma SinglePaymentIff(env: Env)
    ensures PaysAtMostOnce(env) <==> Promised(env)
    ensures SendsAtMostOneEnvelope(env) <==> Promised(env)
  {
    if Promised(env) {
      forall s | Reachable(env, s)
        ensures |s.sent| <= 1 && |s.applied| <= 1
      {
        OneEnvelope(env, s);
        SubsetSize(s.applied, s.sent);
      }
    } else {
      var s: State;
      if env.hashWriteMayFail { s := UnrecordedPaysTwice(env); } else { s := ResetWhileClaimedPaysTwice(env); }
      ReachableKeepsInv(env, s);
      SubsetSize(s.applied, s.sent);
    }
  }

  // ---- confirmed rows ----

  /** While a row is confirmed its hash stays, and only an unguarded write takes it out of confirmed. */
  lemma ConfirmedStaysIff(env: Env, s: State, step: Step)
    requires s.row.Some? && s.row.value.status == Confirmed && Do(env, s, step).Some?
    ensures var s' := Do(env, s, step).value;
            && s'.row.Some? && s'.row.value.hash == s.row.value.hash
            && (s'.row.value.status == Confirmed <==> !step.act.FlagMismatch? && !step.act.MarkExhausted?)
  {
    var p, s' := step.p, Do(env, s, step).value;
    match step.act
    case Claim => assert Claimed(s.row.value).None?;
    case RejectPayout | RecordHash | MarkConfirmed | MarkFailed | Release | RejectTransfer => assert s'.row == s.row;
    case CorrectConfirmed | CorrectFailed | Reset(_) => assert s'.row == s.row;
    case FlagMismatch | MarkExhausted | Increment | Create(_) =>
    case RecordHold | EnqueueFirst(_) | Load | Build(_) | SkipRecord | Send(_) | GiveUp | LookUp(_) =>
      assert s'.row == s.row;
    case ListAwaiting | LookUpListed(_) | ListConfirmed | ListStuck | Requeue(_) | OpenReview(_) | Decide | Stop =>
      assert s'.row == s.row;
    case NetworkApplies(_) => assert s'.row == s.row;
  }

  /** So over whole runs. */
  lemma {:induction false} ConfirmedStays(env: Env, s: State, steps: seq<Step>)
    requires s.row.Some? && s.row.value.status == Confirmed && Run(env, s, steps).Some?
    requires forall k | 0 <= k < |steps| :: !steps[k].act.FlagMismatch? && !steps[k].act.MarkExhausted?
    ensures var s' := Run(env, s, steps).value;
            s'.row.Some? && s'.row.value.status == Confirmed && s'.row.value.hash == s.row.value.hash
    decreases |steps|
  {
    if steps != [] {
      var init := steps[..|steps| - 1];
      ConfirmedStays(env, s, init);
      ConfirmedStaysIff(env, Run(env, s, init).value, steps[|steps| - 1]);
    }
  }
}
