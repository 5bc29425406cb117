/** The destructive-operation gate as a machine: any number of Deploy handlers interleave over the daemon's
    one store of approvals, and the daemon may restart at any time. A handler decides under the store's mutex
    (one step) and starts its process later (another step); it may die anywhere. A schedule is any sequence
    of events; an event that is not enabled changes nothing. */
module Gate {
  import opened Prelude
  import opened RandomIds
  import opened Policy
  import opened AgentServer
  import G = Grants

  type HandlerId = nat

  /** What allowed an execution: the policy, or an approval and the reading at which it was consumed. */
  datatype Ticket = ByPolicy | ByApproval(id: string, usedAt: Time)

  /** A handler past the role check. `cert` names the certificate it was admitted with. */
  datatype Handler =
    | Admitted(command: string, approvalId: string, cert: nat)
    | Cleared(command: string, cert: nat, ticket: Ticket)

  /** A NeedsApproval answer. `epoch` counts daemon starts and `tick` steps of the run. */
  datatype Approval = Approval(command: string, issuedAt: Time, epoch: nat, tick: nat)

  datatype Execution = Execution(command: string, cert: nat, ticket: Ticket, epoch: nat, tick: nat)

  datatype State = State(
    grants: G.GrantMap,
    handlers: map<HandlerId, Handler>,
    approvals: map<string, Approval>,
    executions: seq<Execution>,
    epoch: nat,
    tick: nat
  )

  const INIT := State(map[], map[], map[], [], 0, 0)

  datatype Event =
    | Arrive(h: HandlerId, command: string, approvalId: string, cert: nat)
    | Rule(h: HandlerId, now: Time, entropy: Option<ApprovalEntropy>)
    | Start(h: HandlerId)
    | Drop(h: HandlerId)
    | Restart

  /** Random ids are fresh with respect to every approval ever issued. */
  predicate FreshEntropy(s: State, entropy: Option<ApprovalEntropy>)
  {
    entropy.Some? ==> RandID(entropy.value) !in s.approvals
  }

  function TicketOf(approvalId: string, now: Time): Ticket
  {
    if approvalId == "" then ByPolicy else ByApproval(approvalId, now)
  }

  function StepRule(p: Policy, s: State, h: HandlerId, now: Time, entropy: Option<ApprovalEntropy>): State
    requires h in s.handlers && s.handlers[h].Admitted?
  {
    var a := s.handlers[h];
    var (m, verdict) := Decide(p, s.grants, a.command, a.approvalId, now, entropy);
    var s' := s.(grants := m, tick := s.tick + 1);
    match verdict
    case Proceed =>
      s'.(handlers := s.handlers[h := Cleared(a.command, a.cert, TicketOf(a.approvalId, now))])
    case AskFor(id) =>
      s'.(handlers := s.handlers - {h}, approvals := s.approvals[id := Approval(a.command, now, s.epoch, s.tick)])
    case Refuse(_) =>
      s'.(handlers := s.handlers - {h})
  }

  function StepStart(s: State, h: HandlerId): State
    requires h in s.handlers && s.handlers[h].Cleared?
  {
    var c := s.handlers[h];
    var s' := s.(handlers := s.handlers - {h}, tick := s.tick + 1);
    if c.command == "" then s'
    else s'.(executions := s.executions + [Execution(c.command, c.cert, c.ticket, s.epoch, s.tick)])
  }

  function Step(p: Policy, s: State, e: Event): State
  {
    match e
    case Arrive(h, command, approvalId, cert) =>
      if h in s.handlers then s
      else s.(handlers := s.handlers[h := Admitted(command, approvalId, cert)], tick := s.tick + 1)
    case Rule(h, now, entropy) =>
      if h in s.handlers && s.handlers[h].Admitted? && FreshEntropy(s, entropy) then StepRule(p, s, h, now, entropy) else s
    case Start(h) =>
      if h in s.handlers && s.handlers[h].Cleared? then StepStart(s, h) else s
    case Drop(h) =>
      s.(handlers := s.handlers - {h}, tick := s.tick + 1)
    case Restart =>
      s.(grants := map[], handlers := map[], epoch := s.epoch + 1, tick := s.tick + 1)
  }

  function RunFrom(p: Policy, s: State, es: seq<Event>): State
  {
    if es == [] then s else Step(p, RunFrom(p, s, es[..|es| - 1]), es[|es| - 1])
  }

  function Run(p: Policy, es: seq<Event>): State
  {
    RunFrom(p, INIT, es)
  }

  // ----- The inductive invariant -----

  ghost predicate TicketOk(p: Policy, s: State, command: string, ticket: Ticket, epoch: nat)
  {
    match ticket
    case ByPolicy => Evaluate(p, command) == DecisionAllow
    case ByApproval(id, usedAt) =>
      && id in s.approvals && id !in s.grants
      && s.approvals[id].command == command
      && usedAt <= s.approvals[id].issuedAt + APPROVAL_TTL
      && s.approvals[id].epoch == epoch
  }

  ghost predicate Uses(t: Ticket, id: string)
  {
    t.ByApproval? && t.id == id
  }

  /** Every live approval was asked for in this epoch, for a command the policy answers with "ask". */
  ghost predicate GrantsOk(s: State)
  {
    forall id | id in s.grants ::
      && id in s.approvals && s.approvals[id].epoch == s.epoch
      && s.grants[id] == G.Grant(s.approvals[id].command, s.approvals[id].issuedAt + APPROVAL_TTL)
  }

  ghost predicate ApprovalsOk(p: Policy, s: State)
  {
    forall id | id in s.approvals ::
      Evaluate(p, s.approvals[id].command) == DecisionAsk && s.approvals[id].epoch <= s.epoch && s.approvals[id].tick < s.tick
  }

  ghost predicate HandlersOk(p: Policy, s: State)
  {
    forall h | h in s.handlers && s.handlers[h].Cleared? ::
      TicketOk(p, s, s.handlers[h].command, s.handlers[h].ticket, s.epoch)
  }

  ghost predicate ExecutionsOk(p: Policy, s: State)
  {
    forall i | 0 <= i < |s.executions| ::
      var x := s.executions[i];
      && x.command != "" && TicketOk(p, s, x.command, x.ticket, x.epoch)
      && (x.ticket.ByApproval? ==> s.approvals[x.ticket.id].tick < x.tick)
  }

  /** No approval stands behind two executions, two waiting handlers, or one of each. */
  ghost predicate TicketsDistinct(s: State)
  {
    && (forall i, j | 0 <= i < j < |s.executions| && s.executions[i].ticket.ByApproval? ::
          !Uses(s.executions[j].ticket, s.executions[i].ticket.id))
    && (forall h, i | h in s.handlers && s.handlers[h].Cleared? && s.handlers[h].ticket.ByApproval? && 0 <= i < |s.executions| ::
          !Uses(s.executions[i].ticket, s.handlers[h].ticket.id))
    && (forall h, k | h in s.handlers && k in s.handlers && h != k
                      && s.handlers[h].Cleared? && s.handlers[k].Cleared? && s.handlers[h].ticket.ByApproval? ::
          !Uses(s.handlers[k].ticket, s.handlers[h].ticket.id))
  }

  ghost predicate Inv(p: Policy, s: State)
  {
    GrantsOk(s) && ApprovalsOk(p, s) && HandlersOk(p, s) && ExecutionsOk(p, s) && TicketsDistinct(s)
  }

  lemma ApprovalRuleKeepsInv(p: Policy, s: State, h: HandlerId, now: Time, entropy: Option<ApprovalEntropy>)
    requires Inv(p, s) && h in s.handlers && s.handlers[h].Admitted? && s.handlers[h].approvalId != ""
    ensures Inv(p, StepRule(p, s, h, now, entropy))
  {
  }

  lemma AskRuleKeepsInv(p: Policy, s: State, h: HandlerId, now: Time, entropy: Option<ApprovalEntropy>)
    requires Inv(p, s) && h in s.handlers && s.handlers[h].Admitted? && s.handlers[h].approvalId == ""
    requires Evaluate(p, s.handlers[h].command) == DecisionAsk && entropy.Some? && FreshEntropy(s, entropy)
    ensures Inv(p, StepRule(p, s, h, now, entropy))
  {
    var s' := StepRule(p, s, h, now, entropy);
    var id := RandID(entropy.value);
    assert s'.approvals == s.approvals[id := Approval(s.handlers[h].command, now, s.epoch, s.tick)];
    assert s'.handlers == s.handlers - {h} && s'.executions == s.executions;
  }

  lemma PassRuleKeepsInv(p: Policy, s: State, h: HandlerId, now: Time, entropy: Option<ApprovalEntropy>)
    requires Inv(p, s) && h in s.handlers && s.handlers[h].Admitted? && s.handlers[h].approvalId == ""
    requires Evaluate(p, s.handlers[h].command) != DecisionAsk || entropy.None?
    ensures Inv(p, StepRule(p, s, h, now, entropy))
  {
    var s' := StepRule(p, s, h, now, entropy);
    assert s'.grants == s.grants && s'.approvals == s.approvals && s'.executions == s.executions;
  }

  lemma StartKeepsInv(p: Policy, s: State, h: HandlerId)
    requires Inv(p, s) && h in s.handlers && s.handlers[h].Cleared?
    ensures Inv(p, StepStart(s, h))
  {
  }

  lemma StepKeepsInv(p: Policy, s: State, e: Event)
    requires Inv(p, s)
    ensures Inv(p, Step(p, s, e))
  {
    match e
    case Arrive(_, _, _, _) =>
    case Rule(h, now, entropy) =>
      if h in s.handlers && s.handlers[h].Admitted? && FreshEntropy(s, entropy) {
        if s.handlers[h].approvalId != "" {
          ApprovalRuleKeepsInv(p, s, h, now, entropy);
        } else {
          if Evaluate(p, s.handlers[h].command) == DecisionAsk && entropy.Some? {
            AskRuleKeepsInv(p, s, h, now, entropy);
          } else {
            PassRuleKeepsInv(p, s, h, now, entropy);
          }
        }
      }
    case Start(h) =>
      if h in s.handlers && s.handlers[h].Cleared? {
        StartKeepsInv(p, s, h);
      }
    case Drop(_) =>
    case Restart =>
  }

  lemma {:induction false} RunKeepsInv(p: Policy, es: seq<Event>)
    ensures Inv(p, Run(p, es))
  {
    if es != [] {
      RunKeepsInv(p, es[..|es| - 1]);
      StepKeepsInv(p, Run(p, es[..|es| - 1]), es[|es| - 1]);
    }
  }

  // ----- What every run guarantees -----

  /** An execution without an approval id is one the policy allows outright; any other consumed an approval
      that the agent had asked for earlier, in the same daemon run, for the same command, at most five
      minutes before by the clock; and no two executions consumed the same approval. */
  lemma EveryExecutionIsAuthorised(p: Policy, es: seq<Event>, i: nat)
    requires i < |Run(p, es).executions|
    ensures var s := Run(p, es);
            var x := s.executions[i];
            match x.ticket
            case ByPolicy => Evaluate(p, x.command) == DecisionAllow
            case ByApproval(id, usedAt) =>
              && id in s.approvals
              && s.approvals[id].command == x.command && Evaluate(p, x.command) == DecisionAsk
              && usedAt - s.approvals[id].issuedAt <= APPROVAL_TTL
              && s.approvals[id].tick < x.tick && s.approvals[id].epoch == x.epoch
              && forall j | 0 <= j < |s.executions| && j != i :: !Uses(s.executions[j].ticket, id)
  {
    RunKeepsInv(p, es);
  }

  /** A command the policy denies is never executed, although the approval branch does not consult the
      policy; and every live approval is for a command that the policy answers with "ask". */
  lemma DeniedNeverRuns(p: Policy, es: seq<Event>)
    ensures forall i | 0 <= i < |Run(p, es).executions| :: Evaluate(p, Run(p, es).executions[i].command) != DecisionDeny
    ensures forall id | id in Run(p, es).grants :: Evaluate(p, Run(p, es).grants[id].command) == DecisionAsk
  {
    RunKeepsInv(p, es);
  }

  ghost predicate Executes(s: State, command: string)
  {
    exists i :: 0 <= i < |s.executions| && s.executions[i].command == command
  }

  ghost predicate Executable(p: Policy, command: string)
  {
    exists es :: Executes(Run(p, es), command)
  }

  lemma RunAppend(p: Policy, es: seq<Event>, e: Event)
    ensures Run(p, es + [e]) == Step(p, Run(p, es), e)
  {
    assert (es + [e])[..|es|] == es;
  }

  lemma ClearedIsExecutable(p: Policy, es: seq<Event>, h: HandlerId)
    requires var s := Run(p, es); h in s.handlers && s.handlers[h].Cleared? && s.handlers[h].command != ""
    ensures Executable(p, Run(p, es).handlers[h].command)
  {
    var s, s' := Run(p, es), Run(p, es + [Start(h)]);
    RunAppend(p, es, Start(h));
    assert s'.executions[|s.executions|].command == s.handlers[h].command;
  }

  lemma AdmittedIsExecutable(p: Policy, es: seq<Event>, h: HandlerId, now: Time)
    requires var s := Run(p, es);
             && h in s.handlers && s.handlers[h].Admitted? && s.handlers[h].command != ""
             && Decide(p, s.grants, s.handlers[h].command, s.handlers[h].approvalId, now, None).1.Proceed?
    ensures Executable(p, Run(p, es).handlers[h].command)
  {
    RunAppend(p, es, Rule(h, now, None));
    ClearedIsExecutable(p, es + [Rule(h, now, None)], h);
  }

  /** A new request that the gate would let pass leads to an execution. */
  lemma PassingRequestIsExecutable(p: Policy, es: seq<Event>, h: HandlerId, command: string, approvalId: string, now: Time)
    requires h !in Run(p, es).handlers && command != ""
    requires Decide(p, Run(p, es).grants, command, approvalId, now, None).1.Proceed?
    ensures Executable(p, command)
  {
    RunAppend(p, es, Arrive(h, command, approvalId, 0));
    AdmittedIsExecutable(p, es + [Arrive(h, command, approvalId, 0)], h, now);
  }

  lemma AskingIssuesApproval(p: Policy, command: string, entropy: ApprovalEntropy) returns (es: seq<Event>)
    requires Evaluate(p, command) == DecisionAsk
    ensures var s := Run(p, es);
            && s.grants == map[RandID(entropy) := G.Grant(command, APPROVAL_TTL)]
            && s.handlers == map[] && s.executions == []
  {
    var e1, e2 := Arrive(0, command, "", 0), Rule(0, 0, Some(entropy));
    RunAppend(p, [], e1);
    RunAppend(p, [] + [e1], e2);
    es := [] + [e1] + [e2];
    assert Run(p, [e1]).handlers == map[0 := Admitted(command, "", 0)];
  }

  /** Over all runs, the commands Deploy can ever execute are exactly the non-empty ones the policy does not
      deny. */
  lemma ExecutableIffNotDenied(p: Policy, command: string)
    ensures Executable(p, command) <==> command != "" && Evaluate(p, command) != DecisionDeny
  {
    if Executable(p, command) {
      var es :| Executes(Run(p, es), command);
      RunKeepsInv(p, es);
      DeniedNeverRuns(p, es);
    } else if command != "" {
      match Evaluate(p, command)
      case DecisionAllow => PassingRequestIsExecutable(p, [], 0, command, "", 0);
      case DecisionAsk =>
        var entropy: ApprovalEntropy := seq(18, _ => 0);
        var es := AskingIssuesApproval(p, command, entropy);
        PassingRequestIsExecutable(p, es, 0, command, RandID(entropy), 0);
      case DecisionDeny =>
    }
  }

  /** The order of policies, lifted to runs: a longer deny list can only shrink what is executable, and a
      longer allow list shrinks it only where the list turns from empty to restrictive. */
  lemma PolicyOrderLiftsToRuns(p: Policy, q: Policy, command: string)
    ensures DeniesMore(p, q) && Executable(q, command) ==> Executable(p, command)
    ensures AllowsMore(p, q) ==>
              (Executable(p, command) && !Executable(q, command) <==> command != "" && BecomesRestrictive(p, q, command))
  {
    ExecutableIffNotDenied(p, command);
    ExecutableIffNotDenied(q, command);
    if DeniesMore(p, q) {
      EnlargingDenyNeverRaises(p, q, command);
    }
    if AllowsMore(p, q) {
      EnlargingAllowLowersOnlyWhenRestrictive(p, q, command);
      assert BecomesRestrictive(p, q, command) ==> Evaluate(p, command) == DecisionAllow && Evaluate(q, command) == DecisionDeny by {
        assert Contains(q.allow, command) <==> command in q.allow;
      }
    }
  }

  // ----- The approvals follow the history of calls -----

  function CallsAfter(p: Policy, s: State, calls: seq<G.GrantOp>, e: Event): seq<G.GrantOp>
  {
    match e
    case Restart => []
    case Rule(h, now, entropy) =>
      if !(h in s.handlers && s.handlers[h].Admitted? && FreshEntropy(s, entropy)) then calls
      else if s.handlers[h].approvalId != "" then calls + [G.Tried(s.handlers[h].approvalId, s.handlers[h].command, now)]
      else if Evaluate(p, s.handlers[h].command) == DecisionAsk && entropy.Some? then
        calls + [G.Issued(RandID(entropy.value), s.handlers[h].command, APPROVAL_TTL, now)]
      else calls
    case _ => calls
  }

  /** The calls made to the approval store since the daemon last started. */
  function Calls(p: Policy, es: seq<Event>): seq<G.GrantOp>
  {
    if es == [] then []
    else CallsAfter(p, Run(p, es[..|es| - 1]), Calls(p, es[..|es| - 1]), es[|es| - 1])
  }

  lemma RuleAppliesCall(p: Policy, s: State, calls: seq<G.GrantOp>, e: Event)
    requires e.Rule?
    ensures var calls' := CallsAfter(p, s, calls, e);
            || (calls' == calls && Step(p, s, e).grants == s.grants)
            || (|calls'| == |calls| + 1 && calls' == calls + [calls'[|calls|]]
                && Step(p, s, e).grants == G.Apply(s.grants, calls'[|calls|]))
  {
  }

  lemma RuleFollowsCalls(p: Policy, s: State, calls: seq<G.GrantOp>, e: Event)
    requires e.Rule? && s.grants == G.After(calls)
    ensures Step(p, s, e).grants == G.After(CallsAfter(p, s, calls, e))
  {
    RuleAppliesCall(p, s, calls, e);
    var calls' := CallsAfter(p, s, calls, e);
    if calls' != calls {
      G.AfterAppend(calls, calls'[|calls|]);
    }
  }

  lemma RuleKeepsFresh(p: Policy, s: State, calls: seq<G.GrantOp>, e: Event)
    requires e.Rule? && G.FreshIds(calls) && G.IssuedIds(calls) <= s.approvals.Keys
    ensures var calls' := CallsAfter(p, s, calls, e);
            G.FreshIds(calls') && G.IssuedIds(calls') <= Step(p, s, e).approvals.Keys
  {
    assert forall i | 0 <= i < |calls| && calls[i].Issued? :: calls[i].id in G.IssuedIds(calls);
  }

  /** Since the daemon last started, the live approvals are what the history of calls leaves behind. */
  lemma {:induction false} ApprovalsFollowCalls(p: Policy, es: seq<Event>)
    ensures Run(p, es).grants == G.After(Calls(p, es))
    ensures G.FreshIds(Calls(p, es)) && G.IssuedIds(Calls(p, es)) <= Run(p, es).approvals.Keys
  {
    if es != [] {
      var init, e := es[..|es| - 1], es[|es| - 1];
      ApprovalsFollowCalls(p, init);
      if e.Rule? {
        RuleFollowsCalls(p, Run(p, init), Calls(p, init), e);
        RuleKeepsFresh(p, Run(p, init), Calls(p, init), e);
      }
    }
  }

  /** A waiting request that carries an id is cleared exactly when, since the daemon last started, the agent
      asked for approval of this very command under this id, nobody tried the id since, and the clock reading
      is at most five minutes after that of the question. */
  lemma IdIsHonouredIff(p: Policy, es: seq<Event>, h: HandlerId, now: Time)
    requires var s := Run(p, es); h in s.handlers && s.handlers[h].Admitted? && s.handlers[h].approvalId != ""
    ensures var a := Run(p, es).handlers[h];
            var s' := Run(p, es + [Rule(h, now, None)]);
            var calls := Calls(p, es);
            && (h in s'.handlers <==>
                  exists i: nat :: G.InTime(calls, i, a.approvalId, now) && calls[i].command == a.command)
            && a.approvalId !in s'.grants
  {
    var a := Run(p, es).handlers[h];
    RunAppend(p, es, Rule(h, now, None));
    ApprovalsFollowCalls(p, es);
    G.ConsumeAnswersFromHistory(Calls(p, es), a.approvalId, a.command, now);
  }

  // ----- One handler alone -----

  /** What a ruling does, in terms of policy, approvals and clock. */
  lemma RulingIsPermission(p: Policy, s: State, h: HandlerId, now: Time, entropy: Option<ApprovalEntropy>)
    requires h in s.handlers && s.handlers[h].Admitted? && FreshEntropy(s, entropy)
    ensures var a := s.handlers[h];
            var s' := StepRule(p, s, h, now, entropy);
            && (Permitted(p, s.grants, a.command, a.approvalId, now) ==>
                  && s'.handlers == s.handlers[h := Cleared(a.command, a.cert, TicketOf(a.approvalId, now))]
                  && s'.approvals == s.approvals)
            && (!Permitted(p, s.grants, a.command, a.approvalId, now) ==> s'.handlers == s.handlers - {h})
            && (Asks(p, a.command, a.approvalId, entropy) <==> s'.approvals != s.approvals)
            && s'.executions == s.executions && s'.epoch == s.epoch && s'.tick == s.tick + 1
  {
    var a := s.handlers[h];
    var id := if entropy.Some? then RandID(entropy.value) else "";
    if Asks(p, a.command, a.approvalId, entropy) {
      assert id in StepRule(p, s, h, now, entropy).approvals && id !in s.approvals;
    }
  }

  /** A Deploy handler that nothing interrupts does to the approvals what the Deploy method does, and executes
      its own command, on its own certificate and ticket, exactly when that method starts a process that can be
      started. */
  lemma HandlerAloneIsDeploy(p: Policy, s: State, h: HandlerId, command: string, approvalId: string, cert: nat,
                             now: Time, entropy: Option<ApprovalEntropy>, w: Work) returns (s': State)
    requires h !in s.handlers && FreshEntropy(s, entropy)
    ensures s' == Step(p, Step(p, Step(p, s, Arrive(h, command, approvalId, cert)), Rule(h, now, entropy)), Start(h))
    ensures var d := HandleDeploy(p, s.grants, command, approvalId, now, entropy, w);
            && s'.grants == d.grants && s'.handlers == s.handlers && s'.epoch == s.epoch
            && (d.verdict.AskFor? <==> s'.approvals != s.approvals)
            && (d.launched ==> |s'.executions| == |s.executions| + 1)
    ensures s'.executions == s.executions
              + if Permitted(p, s.grants, command, approvalId, now) && command != ""
                then [Execution(command, cert, TicketOf(approvalId, now), s.epoch, s.tick + 2)] else []
  {
    var s1 := Step(p, s, Arrive(h, command, approvalId, cert));
    assert s1.handlers[h] == Admitted(command, approvalId, cert);
    var s2 := StepRule(p, s1, h, now, entropy);
    RulingIsPermission(p, s1, h, now, entropy);
    HandleDeployMeans(p, s.grants, command, approvalId, now, entropy, w);
    assert s.handlers == s1.handlers - {h};
    s' := Step(p, s2, Start(h));
  }

  // ----- Restarts and retired ids -----

  lemma {:induction false} RunConcat(p: Policy, s: State, es: seq<Event>, more: seq<Event>)
    ensures RunFrom(p, s, es + more) == RunFrom(p, RunFrom(p, s, es), more)
  {
    if more == [] {
      assert es + more == es;
    } else {
      var n := |more| - 1;
      assert (es + more)[..|es + more| - 1] == es + more[..n];
      RunConcat(p, s, es, more[..n]);
    }
  }

  /** An issued approval that is no longer live, and what it authorised so far. */
  ghost predicate Retired(s: State, id: string)
  {
    id in s.approvals && id !in s.grants
  }

  /** No handler is about to run on this approval. */
  ghost predicate NobodyHolds(s: State, id: string)
  {
    forall h | h in s.handlers && s.handlers[h].Cleared? :: !Uses(s.handlers[h].ticket, id)
  }

  lemma {:induction false} RetiredForever(p: Policy, s: State, more: seq<Event>, id: string)
    requires Retired(s, id)
    ensures Retired(RunFrom(p, s, more), id)
    ensures NobodyHolds(s, id) ==>
              && NobodyHolds(RunFrom(p, s, more), id)
              && s.executions <= RunFrom(p, s, more).executions
              && forall i | |s.executions| <= i < |RunFrom(p, s, more).executions| ::
                   !Uses(RunFrom(p, s, more).executions[i].ticket, id)
  {
    if more != [] {
      var n := |more| - 1;
      RetiredForever(p, s, more[..n], id);
      RetiredStep(p, RunFrom(p, s, more[..n]), more[n], id);
    }
  }

  lemma RetiredStep(p: Policy, s: State, e: Event, id: string)
    requires Retired(s, id)
    ensures var s' := Step(p, s, e);
            && Retired(s', id)
            && s.executions <= s'.executions
            && (NobodyHolds(s, id) ==>
                  NobodyHolds(s', id)
                  && forall i | |s.executions| <= i < |s'.executions| :: !Uses(s'.executions[i].ticket, id))
  {
  }

  /** Once an approval was consumed, expired on use, or was tried with another command, it is retired and
      never live again, through any number of restarts. */
  lemma RetiredIdsNeverReturn(p: Policy, es: seq<Event>, more: seq<Event>, id: string)
    requires Retired(Run(p, es), id)
    ensures Retired(Run(p, es + more), id)
  {
    RunConcat(p, INIT, es, more);
    RetiredForever(p, Run(p, es), more, id);
  }

  /** A handler that dies between its ruling and the start of its process has spent its approval for nothing:
      whatever happens later, nothing ever runs on it and it is never live again. */
  lemma DroppedHandlerSpendsApproval(p: Policy, es: seq<Event>, h: HandlerId, more: seq<Event>)
    requires var s := Run(p, es); h in s.handlers && s.handlers[h].Cleared? && s.handlers[h].ticket.ByApproval?
    ensures var id := Run(p, es).handlers[h].ticket.id;
            var s' := Run(p, es + [Drop(h)] + more);
            && id in s'.approvals && id !in s'.grants
            && forall i | 0 <= i < |s'.executions| :: !Uses(s'.executions[i].ticket, id)
  {
    var id := Run(p, es).handlers[h].ticket.id;
    RunKeepsInv(p, es);
    RunAppend(p, es, Drop(h));
    RunConcat(p, INIT, es + [Drop(h)], more);
    assert TicketOk(p, Run(p, es), Run(p, es).handlers[h].command, Run(p, es).handlers[h].ticket, Run(p, es).epoch);
    assert Retired(Run(p, es + [Drop(h)]), id) && NobodyHolds(Run(p, es + [Drop(h)]), id);
    RetiredForever(p, Run(p, es + [Drop(h)]), more, id);
  }

  /** After a restart, nothing that happens later is authorised by an approval asked for before it. */
  lemma ApprovalsDieWithTheDaemon(p: Policy, es: seq<Event>, more: seq<Event>, id: string, i: nat)
    requires id in Run(p, es).approvals
    requires |Run(p, es).executions| <= i < |Run(p, es + [Restart] + more).executions|
    ensures !Uses(Run(p, es + [Restart] + more).executions[i].ticket, id)
  {
    RunAppend(p, es, Restart);
    RunConcat(p, INIT, es + [Restart], more);
    RetiredForever(p, Run(p, es + [Restart]), more, id);
  }

  // ----- What ends an approval -----

  /** The event ends the approval: the daemon restarts, or a handler that carries the id is ruled on. */
  predicate Ends(s: State, e: Event, id: string)
  {
    || e.Restart?
    || (e.Rule? && e.h in s.handlers && s.handlers[e.h].Admitted? && s.handlers[e.h].approvalId == id
        && FreshEntropy(s, e.entropy))
  }

  ghost predicate NothingEnds(p: Policy, s: State, es: seq<Event>, id: string)
  {
    forall j | 0 <= j < |es| :: !Ends(RunFrom(p, s, es[..j]), es[j], id)
  }

  lemma EndsOrKeeps(p: Policy, s: State, e: Event, id: string)
    requires id != "" && id in s.approvals
    ensures var s' := Step(p, s, e);
            && id in s'.approvals && s'.approvals[id] == s.approvals[id]
            && (id in s'.grants <==> id in s.grants && !Ends(s, e, id))
            && (id in s'.grants ==> s'.grants[id] == s.grants[id])
  {
  }

  lemma NothingEndsStep(p: Policy, s: State, es: seq<Event>, id: string)
    requires es != []
    ensures var init := es[..|es| - 1];
            NothingEnds(p, s, es, id) <==> NothingEnds(p, s, init, id) && !Ends(RunFrom(p, s, init), es[|es| - 1], id)
  {
    var n := |es| - 1;
    assert forall j | 0 <= j <= n :: es[..n][..j] == es[..j];
    assert forall j | 0 <= j < n :: es[..n][j] == es[j];
  }

  /** A live approval survives a run, with its record, exactly when the run neither restarts the daemon nor
      rules on a request that carries the id. */
  lemma {:induction false} SurvivesIffNothingEnds(p: Policy, s: State, es: seq<Event>, id: string)
    requires id != "" && id in s.approvals && id in s.grants
    ensures var s' := RunFrom(p, s, es);
            && id in s'.approvals && s'.approvals[id] == s.approvals[id]
            && (id in s'.grants <==> NothingEnds(p, s, es, id))
            && (id in s'.grants ==> s'.grants[id] == s.grants[id])
  {
    if es != [] {
      var n := |es| - 1;
      SurvivesIffNothingEnds(p, s, es[..n], id);
      EndsOrKeeps(p, RunFrom(p, s, es[..n]), es[n], id);
      NothingEndsStep(p, s, es, id);
    }
  }

  /** Event j of the run ended the approval, which had been asked for before. */
  ghost predicate EndedAt(p: Policy, es: seq<Event>, j: nat, id: string)
  {
    j < |es| && id in Run(p, es[..j]).approvals && Ends(Run(p, es[..j]), es[j], id)
  }

  lemma EndedAtStep(p: Policy, es: seq<Event>, id: string)
    requires es != []
    ensures var n := |es| - 1;
            (exists j: nat :: EndedAt(p, es, j, id)) <==> (exists j: nat :: EndedAt(p, es[..n], j, id)) || EndedAt(p, es, n, id)
  {
    var n := |es| - 1;
    assert es[..n][..n] == es[..n];
    forall j: nat | j < n
      ensures EndedAt(p, es, j, id) <==> EndedAt(p, es[..n], j, id)
    {
      assert es[..n][..j] == es[..j] && es[..n][j] == es[j];
    }
  }

  lemma NewApprovalIsLive(p: Policy, s: State, e: Event, id: string)
    requires GrantsOk(s) && id !in s.approvals
    ensures id in Step(p, s, e).approvals <==> id in Step(p, s, e).grants
    ensures id in Step(p, s, e).approvals ==> id != ""
  {
  }

  lemma {:induction false} LiveIffNeverEnded(p: Policy, es: seq<Event>, id: string)
    ensures var s := Run(p, es);
            && (id in s.approvals ==> id != "")
            && (id in s.grants <==> id in s.approvals && !exists j: nat :: EndedAt(p, es, j, id))
  {
    if es != [] {
      var n := |es| - 1;
      var s := Run(p, es[..n]);
      LiveIffNeverEnded(p, es[..n], id);
      EndedAtStep(p, es, id);
      RunKeepsInv(p, es[..n]);
      if id in s.approvals {
        EndsOrKeeps(p, s, es[n], id);
      } else {
        NewApprovalIsLive(p, s, es[n], id);
        NeverAskedNeverEnded(p, es[..n], id);
      }
    }
  }

  lemma NeverAskedNeverEnded(p: Policy, es: seq<Event>, id: string)
    requires id !in Run(p, es).approvals
    ensures forall j: nat :: !EndedAt(p, es, j, id)
  {
    forall j: nat
      ensures !EndedAt(p, es, j, id)
    {
      if j < |es| && id in Run(p, es[..j]).approvals {
        assert es == es[..j] + es[j..];
        RunConcat(p, INIT, es[..j], es[j..]);
        ApprovalsGrow(p, Run(p, es[..j]), es[j..], id);
      }
    }
  }

  lemma {:induction false} ApprovalsGrow(p: Policy, s: State, more: seq<Event>, id: string)
    requires id in s.approvals
    ensures id in RunFrom(p, s, more).approvals
  {
    if more != [] {
      ApprovalsGrow(p, s, more[..|more| - 1], id);
    }
  }

  /** The ids that some event of the run ended. */
  ghost function EndedIds(p: Policy, es: seq<Event>): set<string>
  {
    set id | id in Run(p, es).approvals && exists j: nat :: EndedAt(p, es, j, id)
  }

  /** Over any run, restarts included, the ids ever asked for are the disjoint union of those still live and
      those that a restart or a ruling ended; and an execution's id is among the latter. */
  lemma ApprovalsAreConserved(p: Policy, es: seq<Event>)
    ensures var s := Run(p, es);
            && s.grants.Keys + EndedIds(p, es) == s.approvals.Keys
            && s.grants.Keys !! EndedIds(p, es)
            && forall i | 0 <= i < |s.executions| && s.executions[i].ticket.ByApproval? ::
                 s.executions[i].ticket.id in EndedIds(p, es)
  {
    RunKeepsInv(p, es);
    forall id
      ensures id in Run(p, es).grants <==> id in Run(p, es).approvals && id !in EndedIds(p, es)
    {
      LiveIffNeverEnded(p, es, id);
    }
  }
}
