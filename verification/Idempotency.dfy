/** Idempotency keys: the record of one (organisation, key), its statements, and the middleware around a
    handler, under any interleaving of requests. */
module IdempotencyRuns {
  import opened Common

  type Pid = nat
  type Hash = nat

  datatype Response = Response(status: int, body: string)

  /** The response is None while the record is processing. */
  datatype Record = Record(hash: Hash, response: Option<Response>, expires: int, gen: nat)

  /** Hours. */
  const TTL: nat := 24

  datatype Pc =
    | Inserting(hash: Hash, expires: int, again: bool)
    | Looking(hash: Hash, expires: int, again: bool)
    | Holding(hash: Hash, found: Record)            // has the row locked
    | Clearing(hash: Hash, expires: int)
    | Deciding(hash: Hash, found: Record)
    | Empty(hash: Hash)                             // told that a record exists, but has none
    | Running(gen: nat)                             // the handler
    | Completing(gen: nat, r: Response)             // its result is being written, which locks the row

  datatype Action =
    | Start(hash: Hash) | Insert | LookUp | Commit | Clear | Decide | Finish(r: Response) | Write | Stop | Tick(n: nat)

  datatype Step = Step(p: Pid, act: Action)

  /** A record as it was inserted; one handler execution each. */
  datatype Birth = Birth(hash: Hash, at: int, expires: int, result: Option<Response>)

  datatype Replay = Replay(hash: Hash, response: Response, gen: nat)

  /** What the environment is allowed to do. */
  datatype Env = Env(
    handlersOutlive: bool,     // a handler may finish when its record has expired
    lookupsMeetLocks: bool,    // a lookup may run while somebody else has the row locked
    slowest: Option<nat>)      // the longest that a request tries to acquire the key, if there is a bound

  datatype State = State(
    now: int,
    record: Option<Record>,
    procs: map<Pid, Pc>,
    births: seq<Birth>,
    replays: set<Replay>)

  function Initial(): State {
    State(0, None, map[], [], {})
  }

  function At(s: State, p: Pid, pc: Pc): State {
    s.(procs := s.procs[p := pc])
  }

  function Gone(s: State, p: Pid): State {
    s.(procs := s.procs - {p})
  }

  predicate Holds(pc: Pc) {
    pc.Holding? || pc.Completing?
  }

  predicate Locked(s: State) {
    exists p | p in s.procs :: Holds(s.procs[p])
  }

  function DoInsert(s: State, p: Pid): Option<State> {
    if p !in s.procs || !s.procs[p].Inserting? then None
    else
      var pc := s.procs[p];
      if s.record.Some? then Some(At(s, p, Looking(pc.hash, pc.expires, pc.again)))
      else
        var gen := |s.births|;
        Some(At(s, p, Running(gen)).(record := Some(Record(pc.hash, None, pc.expires, gen)),
                                     births := s.births + [Birth(pc.hash, s.now, pc.expires, None)]))
  }

  /** A live record that nobody has locked. */
  predicate Visible(s: State) {
    s.record.Some? && s.record.value.expires > s.now && !Locked(s)
  }

  function DoLookUp(env: Env, s: State, p: Pid): Option<State> {
    if p !in s.procs || !s.procs[p].Looking? || (Locked(s) && !env.lookupsMeetLocks) then None
    else
      var pc := s.procs[p];
      if Visible(s) then Some(At(s, p, Holding(pc.hash, s.record.value)))
      else if pc.again then Some(At(s, p, Empty(pc.hash)))
      else Some(At(s, p, Clearing(pc.hash, pc.expires)))
  }

  function DoCommit(s: State, p: Pid): Option<State> {
    if p !in s.procs || !s.procs[p].Holding? then None
    else Some(At(s, p, Deciding(s.procs[p].hash, s.procs[p].found)))
  }

  predicate Stale(s: State) {
    s.record.Some? && s.record.value.expires <= s.now
  }

  /** Deletes an expired record, waiting for its lock; a live one is not touched. */
  function DoClear(s: State, p: Pid): Option<State> {
    if p !in s.procs || !s.procs[p].Clearing? || (Stale(s) && Locked(s)) then None
    else
      var pc := s.procs[p];
      var s1 := At(s, p, Inserting(pc.hash, pc.expires, true));
      Some(if Stale(s) then s1.(record := None) else s1)
  }

  function DoDecide(s: State, p: Pid): Option<State> {
    if p !in s.procs || !s.procs[p].Deciding? then None
    else
      var pc := s.procs[p];
      if pc.found.response.None? || pc.found.hash != pc.hash then Some(Gone(s, p))
      else Some(Gone(s, p).(replays := s.replays + {Replay(pc.hash, pc.found.response.value, pc.found.gen)}))
  }

  /** The handler is done and starts to complete whatever record the key has by now; waits for the lock. */
  function DoFinish(env: Env, s: State, p: Pid, r: Response): Option<State> {
    if p !in s.procs || !s.procs[p].Running? || s.procs[p].gen >= |s.births| || Locked(s) then None
    else
      var gen := s.procs[p].gen;
      if !env.handlersOutlive && s.now >= s.births[gen].expires then None
      else
        var s1 := s.(births := s.births[gen := s.births[gen].(result := Some(r))]);
        Some(if s.record.None? then Gone(s1, p) else At(s1, p, Completing(gen, r)))
  }

  function DoWrite(s: State, p: Pid): Option<State> {
    if p !in s.procs || !s.procs[p].Completing? then None
    else
      var r := s.procs[p].r;
      Some(Gone(s, p).(record := if s.record.None? then None else Some(s.record.value.(response := Some(r)))))
  }

  predicate Acquiring(pc: Pc) {
    pc.Inserting? || pc.Looking? || pc.Clearing?
  }

  /** A request fixes the expiry of its record when it starts to acquire the key. */
  function StartOf(pc: Pc): int
    requires Acquiring(pc)
  {
    pc.expires - TTL
  }

  /** Whoever tries to acquire the key at this time has not been at it for too long. */
  predicate InTime(env: Env, s: State, now: int) {
    env.slowest.Some? ==>
      forall p | p in s.procs && Acquiring(s.procs[p]) :: now <= StartOf(s.procs[p]) + env.slowest.value
  }

  function DoTick(env: Env, s: State, n: nat): Option<State> {
    if InTime(env, s, s.now + n) then Some(s.(now := s.now + n)) else None
  }

  function Do(env: Env, s: State, step: Step): Option<State> {
    var p := step.p;
    match step.act
    case Start(hash) => if p in s.procs then None else Some(At(s, p, Inserting(hash, s.now + TTL, false)))
    case Insert => DoInsert(s, p)
    case LookUp => DoLookUp(env, s, p)
    case Commit => DoCommit(s, p)
    case Clear => DoClear(s, p)
    case Decide => DoDecide(s, p)
    case Finish(r) => DoFinish(env, s, p, r)
    case Write => DoWrite(s, p)
    case Stop => if p !in s.procs then None else Some(Gone(s, p))
    case Tick(n) => DoTick(env, s, n)
  }

  function Run(env: Env, s: State, steps: seq<Step>): Option<State> {
    if steps == [] then Some(s)
    else match Run(env, s, steps[..|steps| - 1])
         case None => None
         case Some(m) => Do(env, m, steps[|steps| - 1])
  }

  ghost predicate Reachable(env: Env, s: State) {
    exists steps :: Run(env, Initial(), steps) == Some(s)
  }

  // ---- executions ----

  /** Only the record that is there can still be live. */
  predicate Spaced(births: seq<Birth>, current: Option<Record>, now: int) {
    && (forall i | 0 <= i < |births| ::
          births[i].at <= now && ((current.Some? && current.value.gen == i) || births[i].expires <= now))
    && (current.Some? ==> current.value.gen < |births|)
    && forall i, j | 0 <= i < j < |births| :: births[i].expires <= births[j].at
  }

  predicate Sound(s: State) {
    && Spaced(s.births, s.record, s.now)
    && (s.record.Some? ==> s.record.value.expires == s.births[s.record.value.gen].expires)
  }

  lemma InsertKeepsSound(s: State, p: Pid)
    requires Sound(s) && DoInsert(s, p).Some?
    ensures Sound(DoInsert(s, p).value)
  {
  }

  lemma FinishKeepsSound(env: Env, s: State, p: Pid, r: Response)
    requires Sound(s) && DoFinish(env, s, p, r).Some?
    ensures Sound(DoFinish(env, s, p, r).value)
  {
  }

  lemma StepKeepsSound(env: Env, s: State, step: Step)
    requires Sound(s) && Do(env, s, step).Some?
    ensures Sound(Do(env, s, step).value)
  {
    match step.act
    case Insert => InsertKeepsSound(s, step.p);
    case Finish(r) => FinishKeepsSound(env, s, step.p, r);
    case Start(_) | LookUp | Commit | Clear | Decide | Write | Stop | Tick(_) =>
  }

  lemma {:induction false} RunKeepsSound(env: Env, steps: seq<Step>)
    requires Run(env, Initial(), steps).Some?
    ensures Sound(Run(env, Initial(), steps).value)
    decreases |steps|
  {
    if steps != [] {
      RunKeepsSound(env, steps[..|steps| - 1]);
      StepKeepsSound(env, Run(env, Initial(), steps[..|steps| - 1]).value, steps[|steps| - 1]);
    }
  }

  /** Two handler executions for one key happen only if the second record was inserted at or after the
      expiry of the first. */
  lemma ExecutionsAreSpaced(env: Env, s: State, i: nat, j: nat)
    requires Reachable(env, s) && i < j < |s.births|
    ensures s.births[i].expires <= s.births[j].at
  {
    var steps :| Run(env, Initial(), steps) == Some(s);
    RunKeepsSound(env, steps);
  }

  // ---- replays ----

  /** A record and everything read from it belong to one execution: same hash, and its own result. */
  predicate Own(births: seq<Birth>, gen: nat, hash: Hash, response: Option<Response>) {
    && gen < |births| && births[gen].hash == hash
    && (response.Some? ==> births[gen].result == response)
  }

  predicate ReadOk(s: State, pc: Pc) {
    match pc
    case Holding(_, found) => Own(s.births, found.gen, found.hash, found.response)
    case Deciding(_, found) => Own(s.births, found.gen, found.hash, found.response)
    case Running(gen) => gen < |s.births| && s.births[gen].result == None
    case Completing(gen, r) =>
      && gen < |s.births| && s.births[gen].result == Some(r)
      && s.record.Some? && s.record.value.gen == gen
    case _ => true
  }

  predicate Faithful(s: State) {
    && Sound(s)
    && (s.record.Some? ==> Own(s.births, s.record.value.gen, s.record.value.hash, s.record.value.response))
    && (forall p | p in s.procs :: ReadOk(s, s.procs[p]))
    && (forall p, q | p in s.procs && q in s.procs && s.procs[p].Running? && s.procs[p] == s.procs[q] :: p == q)
    && (forall r | r in s.replays :: Own(s.births, r.gen, r.hash, Some(r.response)))
  }

  lemma InsertKeepsFaithful(s: State, p: Pid)
    requires Faithful(s) && DoInsert(s, p).Some?
    ensures Faithful(DoInsert(s, p).value)
  {
    InsertKeepsSound(s, p);
  }

  lemma FinishKeepsFaithful(env: Env, s: State, p: Pid, r: Response)
    requires !env.handlersOutlive && Faithful(s) && DoFinish(env, s, p, r).Some?
    ensures Faithful(DoFinish(env, s, p, r).value)
  {
    FinishKeepsSound(env, s, p, r);
  }

  lemma ReadKeepsFaithful(env: Env, s: State, step: Step)
    requires !env.handlersOutlive && Faithful(s) && Do(env, s, step).Some?
    requires step.act.LookUp? || step.act.Commit? || step.act.Decide?
    ensures Faithful(Do(env, s, step).value)
  {
    StepKeepsSound(env, s, step);
  }

  /** An expired record that is being completed is locked, and so not deleted. */
  lemma ClearKeepsFaithful(s: State, p: Pid)
    requires Faithful(s) && DoClear(s, p).Some?
    ensures Faithful(DoClear(s, p).value)
  {
    assert Stale(s) ==> forall q | q in s.procs :: !Holds(s.procs[q]);
  }

  lemma WriteKeepsFaithful(s: State, p: Pid)
    requires Faithful(s) && DoWrite(s, p).Some?
    ensures Faithful(DoWrite(s, p).value)
  {
  }

  lemma StepKeepsFaithful(env: Env, s: State, step: Step)
    requires !env.handlersOutlive && Faithful(s) && Do(env, s, step).Some?
    ensures Faithful(Do(env, s, step).value)
  {
    StepKeepsSound(env, s, step);
    match step.act
    case Insert => InsertKeepsFaithful(s, step.p);
    case Finish(r) => FinishKeepsFaithful(env, s, step.p, r);
    case LookUp => ReadKeepsFaithful(env, s, step);
    case Commit => ReadKeepsFaithful(env, s, step);
    case Decide => ReadKeepsFaithful(env, s, step);
    case Clear => ClearKeepsFaithful(s, step.p);
    case Write => WriteKeepsFaithful(s, step.p);
    case Start(_) | Stop | Tick(_) =>
  }

  lemma {:induction false} RunKeepsFaithful(env: Env, steps: seq<Step>)
    requires !env.handlersOutlive && Run(env, Initial(), steps).Some?
    ensures Faithful(Run(env, Initial(), steps).value)
    decreases |steps|
  {
    if steps != [] {
      RunKeepsFaithful(env, steps[..|steps| - 1]);
      StepKeepsFaithful(env, Run(env, Initial(), steps[..|steps| - 1]).value, steps[|steps| - 1]);
    }
  }

  lemma Next(env: Env, s: State, step: Step) returns (s': State)
    requires Reachable(env, s) && Do(env, s, step).Some?
    ensures Reachable(env, s') && Do(env, s, step) == Some(s')
  {
    var steps :| Run(env, Initial(), steps) == Some(s);
    var all := steps + [step];
    assert all[..|all| - 1] == steps;
    s' := Do(env, s, step).value;
    assert Run(env, Initial(), all) == Some(s');
  }

  lemma Fresh(env: Env) returns (s: State)
    ensures Reachable(env, s) && s == Initial()
  {
    s := Initial();
    assert Run(env, s, []) == Some(s);
  }

  /** Every replay is the result that the handler of the same request body produced. */
  ghost predicate ReplaysOwn(env: Env) {
    forall s, r | Reachable(env, s) && r in s.replays :: Own(s.births, r.gen, r.hash, Some(r.response))
  }

  /** The first request of the key, with hash 1, runs past the expiry of its record. */
  lemma Expired(env: Env) returns (s: State)
    ensures Reachable(env, s) && s.now == TTL && s.record == Some(Record(1, None, TTL, 0))
    ensures s.procs == map[1 := Running(0)] && s.births == [Birth(1, 0, TTL, None)] && s.replays == {}
  {
    s := Fresh(env);
    s := Next(env, s, Step(1, Start(1)));
    s := Next(env, s, Step(1, Insert));
    s := Next(env, s, Step(0, Tick(TTL)));
  }

  /** A second one, with hash 2, clears the expired record and starts its handler. */
  lemma Reacquired(env: Env) returns (s: State)
    ensures Reachable(env, s) && s.now == TTL && s.record == Some(Record(2, None, 2 * TTL, 1))
    ensures s.procs == map[1 := Running(0), 2 := Running(1)] && s.replays == {}
    ensures s.births == [Birth(1, 0, TTL, None), Birth(2, TTL, 2 * TTL, None)]
  {
    s := Expired(env);
    s := Next(env, s, Step(2, Start(2)));
    s := Next(env, s, Step(2, Insert));
    assert !Locked(s);
    s := Next(env, s, Step(2, LookUp));
    s := Next(env, s, Step(2, Clear));
    s := Next(env, s, Step(2, Insert));
  }

  /** Now the first handler completes, onto the record of the second, and a third request replays it. */
  lemma WrongReplay(env: Env) returns (s: State, r: Replay)
    requires env.handlersOutlive
    ensures Reachable(env, s) && r in s.replays && !Own(s.births, r.gen, r.hash, Some(r.response))
  {
    hide Reachable;
    r := Replay(2, Response(201, "first"), 1);
    s := Reacquired(env);
    assert !Locked(s);
    s := Next(env, s, Step(1, Finish(r.response)));
    s := Next(env, s, Step(1, Write));
    s := Reads(env, s);
  }

  lemma Reads(env: Env, s: State) returns (s': State)
    requires Reachable(env, s) && 3 !in s.procs && s.record.Some? && s.record.value.response.Some?
    requires s.record.value.hash == 2 && s.record.value.expires > s.now && !Locked(s)
    ensures Reachable(env, s') && s'.births == s.births
    ensures Replay(2, s.record.value.response.value, s.record.value.gen) in s'.replays
  {
    hide Reachable;
    s' := Next(env, s, Step(3, Start(2)));
    s' := Next(env, s', Step(3, Insert));
    s' := Next(env, s', Step(3, LookUp));
    s' := Next(env, s', Step(3, Commit));
    s' := Next(env, s', Step(3, Decide));
  }

  /** Replays are faithful exactly if no handler outlives its record. */
  lemma ReplaysOwnIff(env: Env)
    ensures ReplaysOwn(env) <==> !env.handlersOutlive
  {
    if env.handlersOutlive {
      var s, r := WrongReplay(env);
    } else {
      forall s, r | Reachable(env, s) && r in s.replays
        ensures Own(s.births, r.gen, r.hash, Some(r.response))
      {
        var steps :| Run(env, Initial(), steps) == Some(s);
        RunKeepsFaithful(env, steps);
      }
    }
  }

  lemma Started(env: Env, s: State, p: Pid) returns (s': State)
    requires Reachable(env, s) && s.record == Some(Record(1, None, TTL, 0)) && s.now == 0 && p !in s.procs
    ensures Reachable(env, s') && s' == At(s, p, Looking(1, TTL, false))
  {
    s' := Next(env, s, Step(p, Start(1)));
    s' := Next(env, s', Step(p, Insert));
    assert s'.procs == s.procs[p := Looking(1, TTL, false)];
  }

  /** Two lookups skip the live record because somebody else has it locked for a moment, to read it or to complete
      it: the request is told that a record exists, and is given none. */
  lemma EmptyHanded(env: Env, completing: bool) returns (s: State)
    requires env.lookupsMeetLocks
    ensures Reachable(env, s) && 2 in s.procs && s.procs[2].Empty?
    ensures s.record.Some? && s.record.value.expires > s.now
  {
    hide Reachable;
    s := Fresh(env);
    s := Next(env, s, Step(1, Start(1)));
    s := Next(env, s, Step(1, Insert));
    s := Started(env, s, 2);
    s := Started(env, s, 3);
    assert !Locked(s);
    if completing {
      s := Next(env, s, Step(1, Finish(Response(201, ""))));
      s := SkippedTwice(env, s, 1);
    } else {
      s := Next(env, s, Step(3, LookUp));
      s := SkippedTwice(env, s, 3);
    }
  }

  lemma SkippedTwice(env: Env, s: State, q: Pid) returns (s': State)
    requires env.lookupsMeetLocks
    requires Reachable(env, s) && s.record == Some(Record(1, None, TTL, 0)) && s.now == 0
    requires 2 in s.procs && s.procs[2] == Looking(1, TTL, false) && q != 2 && q in s.procs && Holds(s.procs[q])
    ensures Reachable(env, s') && s'.record == s.record && s'.now == 0 && 2 in s'.procs && s'.procs[2].Empty?
  {
    hide Reachable;
    s' := Next(env, s, Step(2, LookUp));
    s' := Next(env, s', Step(2, Clear));
    s' := Next(env, s', Step(2, Insert));
    assert Holds(s'.procs[q]);
    s' := Next(env, s', Step(2, LookUp));
  }

  /** Two acquisitions of half a record's lifetime each, one after the other, can be too slow. */
  predicate Slow(env: Env) {
    env.slowest.Some? ==> 2 * env.slowest.value >= TTL
  }

  /** The longest acquisition that the run below needs. */
  function Age(env: Env): (n: nat)
    ensures n <= TTL
  {
    if env.slowest.Some? && env.slowest.value < TTL then env.slowest.value else TTL
  }

  /** Or the record it meets expires before the second lookup: 2 clears the record of 1, meets that of 3, which
      took half its lifetime to be inserted, and takes as long itself. */
  lemma TooSlow(env: Env) returns (s: State)
    requires Slow(env)
    ensures Reachable(env, s) && 2 in s.procs && s.procs[2].Empty?
  {
    hide Reachable;
    s := Fresh(env);
    s := Next(env, s, Step(1, Start(1)));
    s := Next(env, s, Step(1, Insert));
    s := Next(env, s, Step(0, Tick(Age(env))));
    s := Next(env, s, Step(3, Start(1)));
    s := Clears(env, s);
    s := MeetsAnother(env, s);
  }

  lemma Clears(env: Env, s: State) returns (s': State)
    requires Slow(env) && Reachable(env, s) && s.record == Some(Record(1, None, TTL, 0)) && s.now == Age(env)
    requires s.procs == map[1 := Running(0), 3 := Inserting(1, TTL + Age(env), false)] && |s.births| == 1
    ensures Reachable(env, s') && s'.record == None && s'.now == TTL
    ensures s'.procs == map[1 := Running(0), 2 := Inserting(1, 2 * TTL, true), 3 := Inserting(1, TTL + Age(env), false)]
  {
    hide Reachable;
    s' := Next(env, s, Step(0, Tick(TTL - Age(env))));
    s' := Next(env, s', Step(2, Start(1)));
    s' := Next(env, s', Step(2, Insert));
    assert !Locked(s');
    s' := Next(env, s', Step(2, LookUp));
    s' := Next(env, s', Step(2, Clear));
  }

  lemma MeetsAnother(env: Env, s: State) returns (s': State)
    requires Slow(env) && Reachable(env, s) && s.record == None && s.now == TTL
    requires s.procs == map[1 := Running(0), 2 := Inserting(1, 2 * TTL, true), 3 := Inserting(1, TTL + Age(env), false)]
    ensures Reachable(env, s') && 2 in s'.procs && s'.procs[2].Empty?
  {
    hide Reachable;
    s' := Next(env, s, Step(3, Insert));
    s' := Next(env, s', Step(2, Insert));
    s' := Next(env, s', Step(0, Tick(Age(env))));
    assert !Locked(s');
    s' := Next(env, s', Step(2, LookUp));
  }

  /** Lookups never meet a lock, and acquiring the key takes less than half a record's lifetime. */
  predicate Brisk(env: Env) {
    !env.lookupsMeetLocks && env.slowest.Some? && 2 * env.slowest.value < TTL
  }

  /** The record outlasts the attempt of this process to acquire the key. */
  predicate Outlasts(env: Env, rec: Record, pc: Pc)
    requires env.slowest.Some? && Acquiring(pc)
  {
    rec.expires > StartOf(pc) + env.slowest.value
  }

  predicate OnTrack(env: Env, s: State, pc: Pc)
    requires env.slowest.Some?
  {
    && (Acquiring(pc) ==> StartOf(pc) <= s.now <= StartOf(pc) + env.slowest.value)
    && match pc
       case Clearing(_, _) => s.record.None? || Stale(s) || Outlasts(env, s.record.value, pc)
       case Inserting(_, _, again) => again ==> s.record.None? || Outlasts(env, s.record.value, pc)
       case Looking(_, _, again) => again ==> s.record.Some? && Outlasts(env, s.record.value, pc)
       case Empty(_) => false
       case _ => true
  }

  /** What a retrying request meets outlasts its attempt. */
  predicate Prompt(env: Env, s: State)
    requires env.slowest.Some?
  {
    forall p | p in s.procs :: OnTrack(env, s, s.procs[p])
  }

  lemma StepKeepsPrompt(env: Env, s: State, step: Step)
    requires Brisk(env) && Prompt(env, s) && Do(env, s, step).Some?
    ensures Prompt(env, Do(env, s, step).value)
  {
    match step.act
    case LookUp => LookUpKeepsPrompt(env, s, step.p);
    case Insert => InsertKeepsPrompt(env, s, step.p);
    case Clear => ClearKeepsPrompt(env, s, step.p);
    case Start(_) | Commit | Decide | Finish(_) | Write | Stop | Tick(_) =>
  }

  lemma LookUpKeepsPrompt(env: Env, s: State, p: Pid)
    requires Brisk(env) && Prompt(env, s) && DoLookUp(env, s, p).Some?
    ensures Prompt(env, DoLookUp(env, s, p).value)
  {
  }

  lemma ClearKeepsPrompt(env: Env, s: State, p: Pid)
    requires Brisk(env) && Prompt(env, s) && DoClear(s, p).Some?
    ensures Prompt(env, DoClear(s, p).value)
  {
  }

  lemma InsertKeepsPrompt(env: Env, s: State, p: Pid)
    requires Brisk(env) && Prompt(env, s) && DoInsert(s, p).Some?
    ensures Prompt(env, DoInsert(s, p).value)
  {
  }

  lemma {:induction false} RunKeepsPrompt(env: Env, steps: seq<Step>)
    requires Brisk(env) && Run(env, Initial(), steps).Some?
    ensures Prompt(env, Run(env, Initial(), steps).value)
    decreases |steps|
  {
    if steps != [] {
      RunKeepsPrompt(env, steps[..|steps| - 1]);
      StepKeepsPrompt(env, Run(env, Initial(), steps[..|steps| - 1]).value, steps[|steps| - 1]);
    }
  }

  /** No request ever goes away empty-handed exactly if no lookup meets a lock and acquiring the key always takes
      less than half a record's lifetime. */
  lemma NeverEmptyHandedIff(env: Env)
    ensures (forall s, p | Reachable(env, s) && p in s.procs :: !s.procs[p].Empty?)
            <==> !env.lookupsMeetLocks && env.slowest.Some? && 2 * env.slowest.value < 24
  {
    if env.lookupsMeetLocks { var s := EmptyHanded(env, false); }
    else if Slow(env) { var s := TooSlow(env); }
    else {
      forall s, p | Reachable(env, s) && p in s.procs
        ensures !s.procs[p].Empty?
      {
        var steps :| Run(env, Initial(), steps) == Some(s);
        RunKeepsPrompt(env, steps);
      }
    }
  }
}

/** The repository's statements and the middleware, in the order the code runs them, with other requests
    running in between. */
module IdempotencyService {
  import opened Common
  import opened IdempotencyRuns

  datatype Key = Key(org: string, key: string)

  class IdempotencyRepo {
    var records: map<Key, Record>

    constructor ()
      ensures records == map[]
    {
      records := map[];
    }

    method InsertIfAbsent(k: Key, id: nat, hash: Hash, expires: int) returns (acquired: bool)
      modifies this
      ensures acquired <==> k !in old(records)
      ensures records == if acquired then old(records)[k := Record(hash, None, expires, id)] else old(records)
    {
      acquired := k !in records;
      if acquired { records := records[k := Record(hash, None, expires, id)]; }
    }

    /** The live record, unless somebody else has it locked. */
    method LookupLive(k: Key, now: int, locked: bool) returns (rec: Option<Record>)
      ensures rec.Some? <==> k in records && records[k].expires > now && !locked
      ensures rec.Some? ==> rec.value == records[k]
    {
      if k in records && records[k].expires > now && !locked { return Some(records[k]); }
      rec := None;
    }

    method ClearExpired(k: Key, now: int)
      modifies this
      ensures records == if k in old(records) && old(records)[k].expires <= now then old(records) - {k} else old(records)
    {
      if k in records && records[k].expires <= now { records := records - {k}; }
    }

    /** By key alone: it completes whatever record the key has. */
    method Complete(k: Key, r: Response)
      modifies this
      ensures records == if k in old(records) then old(records)[k := old(records)[k].(response := Some(r))] else old(records)
    {
      if k in records { records := records[k := records[k].(response := Some(r))]; }
    }
  }

  ghost predicate Foreign(o: Interleaving<Step>, p: Pid) {
    forall k: nat, i | 0 <= i < |o(k)| :: o(k)[i].p != p
  }

  lemma OthersLeaveMe(env: Env, s: State, step: Step, p: Pid)
    requires step.p != p && Do(env, s, step).Some?
    ensures var s' := Do(env, s, step).value;
            && (p in s'.procs <==> p in s.procs) && (p in s.procs ==> s'.procs[p] == s.procs[p])
            && |s'.births| >= |s.births| && s.replays <= s'.replays
  {
  }

  /** A process that does not hold the row does not change who does. */
  lemma LockUnchanged(s: State, s': State, p: Pid)
    requires s.procs - {p} == s'.procs - {p}
    requires p in s.procs ==> !Holds(s.procs[p])
    requires p in s'.procs ==> !Holds(s'.procs[p])
    ensures Locked(s) == Locked(s')
  {
    assert forall q | q in s.procs && q != p :: q in s.procs - {p};
    assert forall q | q in s'.procs && q != p :: q in s'.procs - {p};
    if q :| q in s.procs && Holds(s.procs[q]) { assert q in s'.procs - {p} && Holds(s'.procs[q]); }
    if q :| q in s'.procs && Holds(s'.procs[q]) { assert q in s.procs - {p} && Holds(s.procs[q]); }
  }

  datatype Reply =
    | Handled(r: Response)
    | Conflict                      // still being processed
    | DifferentBody
    | Replayed(r: Response)
    | NoRecord                      // told that a record exists, but given none: the code dereferences nil
    | InternalError

  datatype Acquired = Won | Exists(rec: Record) | ExistsUnseen | Errs

  /** What an undisturbed request finds: it wins the key exactly if there is no record, or an expired one that
      nobody reads, and goes away empty-handed exactly if a live one is locked. */
  function Expected(s: State): Acquired {
    if s.record.None? || (Stale(s) && !Locked(s)) then Won
    else if Stale(s) then Errs
    else if Locked(s) then ExistsUnseen
    else Exists(s.record.value)
  }

  /** What an attempt to acquire the key leaves behind, whatever the others did meanwhile: the key is won with a
      record of its own; or a visible record is handed over; or, exactly if none is visible, the request goes
      away empty-handed; or it would have to wait for the lock of an expired record. */
  predicate Found(s: State, p: Pid, hash: Hash, expires: int, a: Acquired) {
    match a
    case Won =>
      && p in s.procs && s.procs[p].Running? && s.procs[p].gen < |s.births|
      && s.record == Some(Record(hash, None, expires, |s.births| - 1))
    case Exists(rec) => p in s.procs && s.procs[p] == Deciding(hash, rec) && Visible(s) && s.record == Some(rec)
    case ExistsUnseen => p in s.procs && s.procs[p] == Empty(hash) && !Visible(s)
    case Errs => p !in s.procs && Stale(s) && Locked(s)
  }

  /** What a reply says about the record of the key at that moment. */
  predicate Justified(s: State, hash: Hash, reply: Reply) {
    match reply
    case Conflict => Visible(s) && s.record.value.response.None?
    case DifferentBody => Visible(s) && s.record.value.response.Some? && s.record.value.hash != hash
    case Replayed(r) => Visible(s) && s.record.value.hash == hash && s.record.value.response == Some(r)
    case NoRecord => !Visible(s)
    case InternalError => Stale(s) && Locked(s)
    case Handled(_) => true
  }

  class Server {
    const key: Key
    const repo: IdempotencyRepo
    /** The rest of the world: the other requests, the clock, the row's lock, and the history the theorems are
        about. The program's own code reads the store and what Clock, Locks and NewId answer, never this. */
    var s: State

    constructor (key: Key, repo: IdempotencyRepo)
      requires key !in repo.records
      ensures Good() && s == Initial() && this.key == key && this.repo == repo
    {
      this.key, this.repo, s := key, repo, Initial();
      new;
      assert Run(ENV, Initial(), []) == Some(s);
    }

    /** Nothing in the code keeps the environment from any of this. */
    static const ENV: Env := Env(true, true, None)

    ghost predicate Good()
      reads this, repo
    {
      Reachable(ENV, s) && s.record == if key in repo.records then Some(repo.records[key]) else None
    }

    method Did(p: Pid, act: Action)
      requires Reachable(ENV, s) && Do(ENV, s, Step(p, act)).Some?
      modifies this
      ensures Reachable(ENV, s) && Some(s) == Do(ENV, old(s), Step(p, act))
    {
      ghost var next := Next(ENV, s, Step(p, act));
      s := Do(ENV, s, Step(p, act)).value;
    }

    method Others(p: Pid, steps: seq<Step>)
      requires Good() && forall i | 0 <= i < |steps| :: steps[i].p != p
      modifies this, repo
      ensures Good()
      ensures (p in s.procs <==> p in old(s).procs) && (p in s.procs ==> s.procs[p] == old(s).procs[p])
      ensures |s.births| >= |old(s).births| && old(s).replays <= s.replays
      ensures steps == [] ==> s == old(s)
    {
      hide Reachable;
      for i := 0 to |steps|
        invariant Good()
        invariant (p in s.procs <==> p in old(s).procs) && (p in s.procs ==> s.procs[p] == old(s).procs[p])
        invariant |s.births| >= |old(s).births| && old(s).replays <= s.replays
        invariant steps == [] ==> s == old(s)
      {
        var next := Do(ENV, s, steps[i]);
        if next.Some? {
          OthersLeaveMe(ENV, s, steps[i], p);
          Did(steps[i].p, steps[i].act);
          repo.records := if s.record.Some? then repo.records[key := s.record.value] else repo.records - {key};
        }
      }
    }

    method Clock() returns (now: int)
      ensures now == s.now
    {
      now := s.now;
    }

    /** Whether somebody has the row locked. */
    method Locks() returns (locked: bool)
      ensures locked == Locked(s)
    {
      locked := Locked(s);
    }

    /** A fresh row id. */
    method NewId() returns (id: nat)
      ensures id == |s.births|
    {
      id := |s.births|;
    }

    method Insert(p: Pid, hash: Hash, expires: int, ghost again: bool, others: seq<Step>) returns (acquired: bool)
      requires Good() && p in s.procs && s.procs[p] == Inserting(hash, expires, again)
      requires forall i | 0 <= i < |others| :: others[i].p != p
      modifies this, repo
      ensures Good() && p in s.procs && old(s).replays <= s.replays && |old(s).births| <= |s.births|
      ensures if acquired then s.procs[p].Running? && s.procs[p].gen < |s.births| else s.procs[p] == Looking(hash, expires, again)
      ensures acquired ==> |old(s).births| < |s.births| && s.record == Some(Record(hash, None, expires, |s.births| - 1))
      ensures !acquired ==> s.record.Some?
      ensures others == [] ==>
                && acquired == old(s).record.None? && s.now == old(s).now && Locked(s) == Locked(old(s))
                && |s.births| == |old(s).births| + (if acquired then 1 else 0)
                && (!acquired ==> s.record == old(s).record)
    {
      hide Reachable;
      Others(p, others);
      var id := NewId();
      acquired := repo.InsertIfAbsent(key, id, hash, expires);
      ghost var before := s;
      Did(p, IdempotencyRuns.Insert);
      LockUnchanged(before, s, p);
    }

    /** The read and its short transaction. */
    method LookUp(p: Pid, others: seq<Step>) returns (rec: Option<Record>)
      requires Good() && p in s.procs && s.procs[p].Looking?
      requires forall i | 0 <= i < |others| :: others[i].p != p
      modifies this, repo
      ensures Good() && p in s.procs && old(s).replays <= s.replays && |old(s).births| <= |s.births|
      ensures rec == if Visible(s) then s.record else None
      ensures var pc := old(s).procs[p];
              match rec
              case Some(r) => s.procs[p] == Deciding(pc.hash, r)
              case None => s.procs[p] == if pc.again then Empty(pc.hash) else Clearing(pc.hash, pc.expires)
      ensures others == [] ==>
                && s.record == old(s).record && s.now == old(s).now
                && Locked(s) == Locked(old(s)) && s.births == old(s).births
    {
      hide Reachable;
      Others(p, others);
      var now := Clock();
      var locked := Locks();
      rec := repo.LookupLive(key, now, locked);
      ghost var before := s;
      Did(p, IdempotencyRuns.LookUp);
      if rec.Some? { Did(p, Commit); }
      LockUnchanged(before, s, p);
    }

    /** Waits while an expired row is locked; here, gives up. */
    method Clear(p: Pid, others: seq<Step>) returns (ok: bool)
      requires Good() && p in s.procs && s.procs[p].Clearing?
      requires forall i | 0 <= i < |others| :: others[i].p != p
      modifies this, repo
      ensures Good() && old(s).replays <= s.replays && |old(s).births| <= |s.births|
      ensures !ok ==> Stale(s) && Locked(s)
      ensures ok ==> !Stale(s)
      ensures var pc := old(s).procs[p];
              if ok then p in s.procs && s.procs[p] == Inserting(pc.hash, pc.expires, true) else p !in s.procs
      ensures others == [] ==>
                && ok == !(Stale(old(s)) && Locked(old(s))) && s.now == old(s).now && s.births == old(s).births
                && Locked(s) == Locked(old(s))
                && s.record == if ok && Stale(old(s)) then None else old(s).record
    {
      hide Reachable;
      Others(p, others);
      var now := Clock();
      var locked := Locks();
      ok := !(key in repo.records && repo.records[key].expires <= now && locked);
      ghost var before := s;
      if ok {
        repo.ClearExpired(key, now);
        Did(p, IdempotencyRuns.Clear);
      } else {
        Did(p, Stop);
      }
      LockUnchanged(before, s, p);
    }

    /** Insert, else read; else clear what has expired and do both again. */
    method TryAcquire(p: Pid, hash: Hash, expires: int, o: Interleaving<Step>) returns (a: Acquired)
      requires Good() && p in s.procs && s.procs[p] == Inserting(hash, expires, false) && Foreign(o, p)
      modifies this, repo
      ensures Good() && old(s).replays <= s.replays && |old(s).births| <= |s.births|
      ensures Found(s, p, hash, expires, a)
      ensures a.Won? ==> |old(s).births| < |s.births|
      ensures Quiet(o) ==>
                && a == Expected(old(s)) && s.now == old(s).now && Locked(s) == Locked(old(s))
                && |s.births| == |old(s).births| + (if a.Won? then 1 else 0) && (!a.Won? ==> s.record == old(s).record)
    {
      hide Reachable, Locked, Do;
      var acquired := Insert(p, hash, expires, false, o(0));
      if acquired { return Won; }
      var rec := LookUp(p, o(1));
      if rec.Some? { return Exists(rec.value); }
      a := TryAgain(p, hash, expires, o);
    }

    method TryAgain(p: Pid, hash: Hash, expires: int, o: Interleaving<Step>) returns (a: Acquired)
      requires Good() && p in s.procs && s.procs[p] == Clearing(hash, expires) && Foreign(o, p)
      modifies this, repo
      ensures Good() && old(s).replays <= s.replays && |old(s).births| <= |s.births|
      ensures Found(s, p, hash, expires, a)
      ensures a.Won? ==> |old(s).births| < |s.births|
      ensures Quiet(o) ==>
                && a == Expected(old(s)) && s.now == old(s).now && Locked(s) == Locked(old(s))
                && |s.births| == |old(s).births| + (if a.Won? then 1 else 0) && (!a.Won? ==> s.record == old(s).record)
    {
      hide Reachable, Locked, Do;
      var ok := Clear(p, o(2));
      if !ok { return Errs; }
      var acquired := Insert(p, hash, expires, true, o(3));
      if acquired { return Won; }
      var rec := LookUp(p, o(4));
      a := if rec.Some? then Exists(rec.value) else ExistsUnseen;
    }

    /** One request with this key. */
    method Serve(p: Pid, hash: Hash, handler: Response, completeErrs: bool, o: Interleaving<Step>) returns (reply: Reply)
      requires Good() && p !in s.procs && Foreign(o, p)
      modifies this, repo
      ensures Good() && p !in s.procs
      ensures reply.Replayed? ==> exists gen :: Replay(hash, reply.r, gen) in s.replays
      ensures reply.Handled? ==> reply.r == handler && |old(s).births| < |s.births|
      ensures Justified(s, hash, reply)
      ensures Quiet(o) && !Locked(old(s)) ==>
                var rec := old(s).record;
                if rec.None? || Stale(old(s)) then
                  && reply == Handled(handler)
                  && s.record == Some(Record(hash, if completeErrs then None else Some(handler), s.now + 24, |old(s).births|))
                else
                  && s.record == rec
                  && reply == if rec.value.response.None? then Conflict
                              else if rec.value.hash != hash then DifferentBody
                              else Replayed(rec.value.response.value)
      ensures Quiet(o) && Locked(old(s)) && old(s).record.Some? && !Stale(old(s)) ==> reply == NoRecord
    {
      hide Reachable, Locked;
      var now := Clock();
      Did(p, Start(hash));
      LockUnchanged(old(s), s, p);
      var a := TryAcquire(p, hash, now + TTL, o);
      match a
      case Won => Handle(p, handler, completeErrs, o); reply := Handled(handler);
      case Exists(rec) => reply := Answer(p, rec, hash);
      case ExistsUnseen =>
        ghost var before := s;
        Did(p, Stop);
        LockUnchanged(before, s, p);
        reply := NoRecord;
      case Errs => reply := InternalError;
    }

    method Answer(p: Pid, rec: Record, hash: Hash) returns (reply: Reply)
      requires Good() && p in s.procs && s.procs[p] == Deciding(hash, rec)
      modifies this
      ensures Good() && p !in s.procs && s.record == old(s).record && s.now == old(s).now && Locked(s) == Locked(old(s))
      ensures reply.Replayed? ==> Replay(hash, reply.r, rec.gen) in s.replays
      ensures reply == if rec.response.None? then Conflict
                       else if rec.hash != hash then DifferentBody
                       else Replayed(rec.response.value)
    {
      hide Reachable;
      Did(p, Decide);
      LockUnchanged(old(s), s, p);
      if rec.response.None? { return Conflict; }
      if rec.hash != hash { return DifferentBody; }
      reply := Replayed(rec.response.value);
    }

    /** The handler, and the write of its result, which has the row locked meanwhile; a failed write is ignored. */
    method Handle(p: Pid, r: Response, completeErrs: bool, o: Interleaving<Step>)
      requires Good() && p in s.procs && s.procs[p].Running? && s.procs[p].gen < |s.births| && Foreign(o, p)
      modifies this, repo
      ensures Good() && p !in s.procs && |old(s).births| <= |s.births|
      ensures Quiet(o) && !Locked(old(s)) && old(s).record.Some? ==>
                s.record == if completeErrs then old(s).record else Some(old(s).record.value.(response := Some(r)))
      ensures Quiet(o) ==> s.now == old(s).now
    {
      hide Reachable;
      Others(p, o(5));
      var locked := Locks();
      if completeErrs || locked {
        Did(p, Stop);
      } else {
        Did(p, Finish(r));
        if p in s.procs { Complete(p, r, o(6)); }
      }
    }

    method Complete(p: Pid, r: Response, others: seq<Step>)
      requires Good() && p in s.procs && s.procs[p].Completing? && s.procs[p].r == r
      requires forall i | 0 <= i < |others| :: others[i].p != p
      modifies this, repo
      ensures Good() && p !in s.procs && |old(s).births| <= |s.births|
      ensures others == [] ==>
                && s.now == old(s).now
                && s.record == if old(s).record.None? then None else Some(old(s).record.value.(response := Some(r)))
    {
      hide Reachable;
      Others(p, others);
      repo.Complete(key, r);
      Did(p, Write);
    }
  }
}
