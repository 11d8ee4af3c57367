/** Screening a transfer before it is persisted: several screeners, the most restrictive answer, and a
    failure that never reads as a pass. */
module Screening {
  import opened Common

  /** Any other text, the unset status included, is Other. */
  datatype Status = Clear | Hold | Blocked | Other(text: string) {
    function Severity(): nat {
      match this
      case Blocked => 2
      case Hold => 1
      case _ => 0
    }
  }

  datatype Decision = Decision(status: Status, rulesFired: seq<string>, reason: string, riskScore: int, matchedEntity: string)

  datatype Screener = Screener(name: string, answer: Option<Decision>)   // None: it failed

  /** What a screener contributes: its answer, or a hold if it failed. */
  function Contribution(s: Screener): Decision {
    match s.answer
    case Some(d) => d
    case None =>
      Decision(Hold, ["screener_error:" + s.name], "screening could not be completed for " + s.name, 50, "")
  }

  function RulesOf(screeners: seq<Screener>): seq<string> {
    if screeners == [] then []
    else RulesOf(screeners[..|screeners| - 1]) + Contribution(screeners[|screeners| - 1]).rulesFired
  }

  /** `out` takes its verdict from the first of the most severe screeners; a clear verdict from none. */
  ghost predicate FirstMostSevere(screeners: seq<Screener>, out: Decision) {
    && (forall s | s in screeners :: Contribution(s).status.Severity() <= out.status.Severity())
    && (out.status.Severity() == 0 ==> out.status == Clear && out.reason == "" && out.matchedEntity == "")
    && (out.status.Severity() > 0 ==>
          exists i :: IsVerdict(screeners, i, out))
  }

  predicate IsVerdict(screeners: seq<Screener>, i: int, out: Decision) {
    && 0 <= i < |screeners|
    && (var d := Contribution(screeners[i]);
        out.status == d.status && out.reason == d.reason && out.matchedEntity == d.matchedEntity)
    && forall j | 0 <= j < i :: Contribution(screeners[j]).status.Severity() < out.status.Severity()
  }

  ghost predicate HighestRisk(screeners: seq<Screener>, risk: int) {
    && risk >= 0
    && (forall s | s in screeners :: Contribution(s).riskScore <= risk)
    && (risk > 0 ==> exists s | s in screeners :: Contribution(s).riskScore == risk)
  }

  lemma VerdictExtends(before: seq<Screener>, s: Screener, sofar: Decision, out: Decision)
    requires FirstMostSevere(before, sofar)
    requires var d := Contribution(s);
             if d.status.Severity() > sofar.status.Severity() then
               out.status == d.status && out.reason == d.reason && out.matchedEntity == d.matchedEntity
             else
               out.status == sofar.status && out.reason == sofar.reason && out.matchedEntity == sofar.matchedEntity
    ensures FirstMostSevere(before + [s], out)
  {
    var all := before + [s];
    if Contribution(s).status.Severity() > sofar.status.Severity() {
      assert IsVerdict(all, |before|, out);
    } else if sofar.status.Severity() > 0 {
      var i :| IsVerdict(before, i, sofar);
      assert IsVerdict(all, i, out);
    }
  }

  lemma RiskExtends(before: seq<Screener>, s: Screener, risk: int)
    requires HighestRisk(before, risk)
    ensures HighestRisk(before + [s], if Contribution(s).riskScore > risk then Contribution(s).riskScore else risk)
  {
    var all := before + [s];
    assert forall t | t in before :: t in all;
    assert s in all;
  }

  /** `out` sums up the answers of these screeners. */
  ghost predicate SumsUp(screeners: seq<Screener>, out: Decision) {
    FirstMostSevere(screeners, out) && HighestRisk(screeners, out.riskScore) && out.rulesFired == RulesOf(screeners)
  }

  lemma SumExtends(before: seq<Screener>, s: Screener, sofar: Decision, out: Decision)
    requires SumsUp(before, sofar)
    requires var d := Contribution(s);
             && out.rulesFired == sofar.rulesFired + d.rulesFired
             && out.riskScore == (if d.riskScore > sofar.riskScore then d.riskScore else sofar.riskScore)
             && (if d.status.Severity() > sofar.status.Severity() then
                   out.status == d.status && out.reason == d.reason && out.matchedEntity == d.matchedEntity
                 else
                   out.status == sofar.status && out.reason == sofar.reason && out.matchedEntity == sofar.matchedEntity)
    ensures SumsUp(before + [s], out)
  {
    VerdictExtends(before, s, sofar, out);
    RiskExtends(before, s, sofar.riskScore);
    assert (before + [s])[..|before|] == before;
  }

  method ScreenAll(screeners: seq<Screener>) returns (out: Decision)
    ensures SumsUp(screeners, out)
  {
    out := Decision(Clear, [], "", 0, "");
    ghost var done: seq<Screener> := [];
    for k := 0 to |screeners|
      invariant done == screeners[..k]
      invariant SumsUp(done, out)
    {
      var res := Contribution(screeners[k]);
      var next := out.(rulesFired := out.rulesFired + res.rulesFired);
      if res.riskScore > out.riskScore {
        next := next.(riskScore := res.riskScore);
      }
      if res.status.Severity() > out.status.Severity() {
        next := next.(status := res.status, reason := res.reason, matchedEntity := res.matchedEntity);
      }
      SumExtends(done, screeners[k], out, next);
      done := done + [screeners[k]];
      out := next;
    }
    assert done == screeners;
  }

  /** Nothing but a clear answer of every screener passes; except that a status which is none of the three,
      such as one left unset, counts as clear. */
  lemma {:induction false} PassesIff(screeners: seq<Screener>, out: Decision)
    requires FirstMostSevere(screeners, out)
    ensures out.status == Clear <==>
            forall s | s in screeners :: s.answer.Some? && s.answer.value.status !in {Hold, Blocked}
  {
    if out.status.Severity() > 0 {
      var i :| IsVerdict(screeners, i, out);
      assert screeners[i] in screeners;
    } else {
      forall s | s in screeners
        ensures s.answer.Some? && s.answer.value.status !in {Hold, Blocked}
      {
        assert Contribution(s).status.Severity() == 0;
      }
    }
  }

  /** One block stops the transfer whatever the others say, failures included. */
  lemma {:induction false} BlockedIff(screeners: seq<Screener>, out: Decision)
    requires FirstMostSevere(screeners, out)
    ensures out.status == Blocked <==>
            exists s | s in screeners :: s.answer.Some? && s.answer.value.status == Blocked
  {
    if out.status == Blocked {
      var i :| IsVerdict(screeners, i, out);
      assert screeners[i] in screeners;
    }
    if s :| s in screeners && s.answer.Some? && s.answer.value.status == Blocked {
      assert Contribution(s).status.Severity() == 2;
    }
  }

  /** The rules on record are those of every screener, in their order; a failed one puts its own on record. */
  lemma {:induction false} RulesInOrder(a: seq<Screener>, s: Screener, b: seq<Screener>)
    ensures RulesOf(a + [s] + b) ==
              RulesOf(a) + (if s.answer.Some? then s.answer.value.rulesFired else ["screener_error:" + s.name]) + RulesOf(b)
    decreases |b|
  {
    var all := a + [s] + b;
    if b == [] {
      assert all[..|all| - 1] == a && all[|all| - 1] == s;
      assert RulesOf(b) == [];
    } else {
      assert all[..|all| - 1] == a + [s] + b[..|b| - 1] && all[|all| - 1] == b[|b| - 1];
      RulesInOrder(a, s, b[..|b| - 1]);
    }
  }

  /** A failed screener leaves the transfer held or blocked, with a risk of at least 50 and its rule on record. */
  lemma FailureLeavesTrace(a: seq<Screener>, s: Screener, b: seq<Screener>, out: Decision)
    requires SumsUp(a + [s] + b, out) && s.answer.None?
    ensures out.status in {Hold, Blocked} && out.riskScore >= 50 && ("screener_error:" + s.name) in out.rulesFired
  {
    assert (a + [s] + b)[|a|] == s;
    assert Contribution(s).riskScore == 50 && Contribution(s).status == Hold;
    RulesInOrder(a, s, b);
    if out.status.Severity() > 0 {
      var i :| IsVerdict(a + [s] + b, i, out);
    }
  }

  /** The service around the screener: a failing screener is a hold there too. */
  function Screened(answer: Option<Decision>): Decision {
    match answer
    case Some(d) => d
    case None => Decision(Hold, ["screener_error"], "screening could not be completed", 50, "")
  }

  datatype Route = Refuse | Park | Proceed

  /** What becomes of the transfer; None: no screener is configured. */
  function RouteOf(decision: Option<Decision>): Route {
    match decision
    case None => Proceed
    case Some(d) => if d.status == Blocked then Refuse else if d.status == Hold then Park else Proceed
  }

  /** Through both layers, a transfer proceeds unreviewed exactly if every screener answered and none held
      or blocked. */
  lemma ProceedsIff(screeners: seq<Screener>, out: Decision)
    requires FirstMostSevere(screeners, out)
    ensures RouteOf(Some(Screened(Some(out)))) == Proceed <==>
            forall s | s in screeners :: s.answer.Some? && s.answer.value.status !in {Hold, Blocked}
    ensures RouteOf(Some(Screened(None))) == Park
  {
    PassesIff(screeners, out);
  }

  /** The unset status is documented never to read as a pass, yet it does. */
  lemma UnsetPasses(name: string) returns (screeners: seq<Screener>, out: Decision)
    ensures screeners == [Screener(name, Some(Decision(Other(""), [], "", 0, "")))]
    ensures FirstMostSevere(screeners, out) && RouteOf(Some(Screened(Some(out)))) == Proceed
  {
    screeners, out := [Screener(name, Some(Decision(Other(""), [], "", 0, "")))], Decision(Clear, [], "", 0, "");
  }
}
