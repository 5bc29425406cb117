/** What the whole agent can always do: a live token buys its certificate, a certificate with rex:admin starts
    what the policy does not deny, and no state is so broken that this is over. The laws of `Daemon` say what no
    run does; these say that runs do something. */
module Progress {
  import opened Prelude
  import opened RandomIds
  import opened AtomicTokens
  import opened Policy
  import opened Authz
  import opened AgentServer
  import opened Enroll
  import opened Daemon
  import G = Grants
  import T = TokenMachine
  import R = TokenRuns
  import Gate

  /** The instance that the `token new` process of the witness runs uses. */
  const OPERATOR: Instance := 1

  // ----- Steps of the token file, seen from the whole agent -----

  function Lift(ts: seq<T.Event>): seq<Event>
  {
    seq(|ts|, i requires 0 <= i < |ts| => StoreEvent(ts[i]))
  }

  lemma NewRolesSplit(a: T.State, b: T.State, c: T.State)
    requires a.responses <= b.responses <= c.responses
    ensures NewRoles(a, c) == NewRoles(a, b) + NewRoles(b, c)
  {
    forall k
      ensures k in NewRoles(a, c) <==> k in NewRoles(a, b) + NewRoles(b, c)
    {
    }
  }

  lemma {:induction false} StoreRunLifts(p: Policy, s: State, ts: seq<T.Event>)
    requires forall i | 0 <= i < |ts| :: InRole(ts[i])
    ensures var store := T.RunFrom(s.store, ts);
            RunFrom(p, s, Lift(ts)) == s.(store := store, signing := s.signing + NewRoles(s.store, store))
  {
    if ts != [] {
      var n := |ts| - 1;
      StoreRunLifts(p, s, ts[..n]);
      assert Lift(ts)[..n] == Lift(ts[..n]);
      var mid := T.RunFrom(s.store, ts[..n]);
      assert [ts[n]][..0] == [] && T.RunFrom(mid, [ts[n]]) == T.Step(mid, ts[n]);
      R.HistoryGrows(s.store, ts[..n]);
      R.StepGrows(mid, ts[n]);
      NewRolesSplit(s.store, mid, T.RunFrom(s.store, ts));
    }
  }

  lemma UndisturbedIsInRole(q: Instance, op: Op, now: Time)
    requires q == DAEMON <==> op.ConsumeOp?
    ensures forall i | 0 <= i < |R.Undisturbed(q, op, now, T.NoFault)| :: InRole(R.Undisturbed(q, op, now, T.NoFault)[i])
  {
  }

  /** One call on the token file that nothing disturbs, seen from the whole agent. */
  lemma CallLifts(p: Policy, s: State, q: Instance, op: Op, now: Time) returns (s': State)
    requires s.store.lock == None && T.CanBegin(s.store, q, op) && !s.store.main.Torn?
    requires q == DAEMON <==> op.ConsumeOp?
    ensures s' == RunFrom(p, s, Lift(R.Undisturbed(q, op, now, T.NoFault)))
    ensures s'.gate == s.gate && s'.issued == s.issued
    ensures s'.signing == s.signing + NewRoles(s.store, s'.store)
    ensures R.Committed(s.store, s'.store, q, T.Txn(op, |s.store.log|, now, false, R.Contents(s.store.main)))
  {
    var ts := R.Undisturbed(q, op, now, T.NoFault);
    UndisturbedIsInRole(q, op, now);
    StoreRunLifts(p, s, ts);
    R.UndisturbedCallSucceeds(s.store, q, op, now, T.NoFault);
    s' := RunFrom(p, s, Lift(ts));
  }

  // ----- From a token to a certificate -----

  lemma SignOnce(p: Policy, s: State, k: nat)
    requires CanSign(s, k)
    ensures RunFrom(p, s, [Sign(k, Signed)])
            == s.(signing := s.signing - {k}, issued := s.issued + [Issued(Cert([s.store.responses[k].reply.out.role], true), k)])
  {
    var es := [Sign(k, Signed)];
    assert es[..0] == [] && RunFrom(p, s, es) == Step(p, s, es[0]);
  }

  /** A successful signing hands out exactly one certificate more: a client certificate whose one role is the
      one recorded when its token was issued. */
  lemma SigningAddsOneCertificate(p: Policy, es: seq<Event>, k: nat) returns (v: string, j: nat)
    requires CanSign(Run(p, es), k)
    ensures var s, s' := Run(p, es), Run(p, es + [Sign(k, Signed)]);
            && j < |s.store.log| && Issues(s.store.log[j], v) && s.store.responses[k].op == ConsumeOp(v)
            && s'.issued == s.issued + [Issued(Cert([s.store.log[j].op.role], true), k)]
            && PaidWith(s', |s.issued|, v, j)
            && !CanSign(s', k)
  {
    var s, s' := Run(p, es), Run(p, es + [Sign(k, Signed)]);
    RunConcat(p, INIT, es, [Sign(k, Signed)]);
    SignOnce(p, s, k);
    v, j := CertificateHasToken(p, es + [Sign(k, Signed)], |s.issued|);
  }

  function ConsumeAndSign(v: string, now: Time, k: nat): seq<Event>
  {
    Lift(R.Undisturbed(DAEMON, ConsumeOp(v), now, T.NoFault)) + [Sign(k, Signed)]
  }

  /** A live token buys a certificate with its role: from any state in which the lock is free and the daemon is
      not using it, an enrollment in time that nothing disturbs adds exactly that certificate and removes
      exactly that token. */
  lemma LiveTokenBuysCertificate(p: Policy, s: State, v: string, now: Time)
    requires s.store.lock == None && T.PhaseOf(s.store, DAEMON).Idle?
    requires v in R.Contents(s.store.main) && now <= R.Contents(s.store.main)[v].expiry
    ensures var held := R.Contents(s.store.main);
            var s' := RunFrom(p, s, ConsumeAndSign(v, now, |s.store.responses|));
            && s'.issued == s.issued + [Issued(Cert([held[v].role], true), |s.store.responses|)]
            && R.Contents(s'.store.main) == held - {v}
            && s'.gate == s.gate && s'.store.lock == None && s'.store.drawn == s.store.drawn
  {
    var k := |s.store.responses|;
    var mid := CallLifts(p, s, DAEMON, ConsumeOp(v), now);
    RunConcat(p, s, Lift(R.Undisturbed(DAEMON, ConsumeOp(v), now, T.NoFault)), [Sign(k, Signed)]);
    assert ReturnedRole(mid.store.responses[k]);
    assert k in NewRoles(s.store, mid.store);
    SignOnce(p, mid, k);
  }

  /** Any role can be handed out: a fresh token issued with it and then enrolled. */
  lemma EveryRoleCanBeEnrolled(p: Policy, s: State, v: string, role: string, now: Time) returns (es: seq<Event>)
    requires s.store.lock == None && T.PhaseOf(s.store, DAEMON).Idle? && T.PhaseOf(s.store, OPERATOR).Idle?
    requires !s.store.main.Torn? && v !in s.store.drawn
    ensures var s' := RunFrom(p, s, es);
            && |s'.issued| == |s.issued| + 1 && s.issued <= s'.issued
            && s'.issued[|s.issued|].cert == Cert([role], true)
            && s'.gate == s.gate
  {
    var op := IssueOp(v, role, 0);
    var mid := CallLifts(p, s, OPERATOR, op, now);
    assert R.Contents(mid.store.main)[v] == Record(role, now);
    LiveTokenBuysCertificate(p, mid, v, now);
    var issue, enroll := Lift(R.Undisturbed(OPERATOR, op, now, T.NoFault)), ConsumeAndSign(v, now, |mid.store.responses|);
    RunConcat(p, s, issue, enroll);
    es := issue + enroll;
  }

  // ----- From a certificate to an execution -----

  /** One Deploy call with certificate c, served to its end. */
  function Served(c: nat, h: Gate.HandlerId, command: string, approvalId: string, now: Time, entropy: Option<ApprovalEntropy>): seq<Event>
  {
    [Call(h, command, approvalId, Some(c)), GateEvent(Gate.Rule(h, now, entropy)), GateEvent(Gate.Start(h))]
  }

  lemma ThreeSteps(p: Policy, s: State, es: seq<Event>)
    requires |es| == 3
    ensures RunFrom(p, s, es) == Step(p, Step(p, Step(p, s, es[0]), es[1]), es[2])
  {
    assert es[..2][..1] == es[..1] && es[..1][..0] == [];
    assert RunFrom(p, s, es[..1]) == Step(p, s, es[0]);
    assert RunFrom(p, s, es[..2]) == Step(p, RunFrom(p, s, es[..1]), es[1]);
  }

  lemma AdminIsAdmitted(p: Policy, s: State, c: nat, h: Gate.HandlerId, command: string, approvalId: string)
    requires IsAdmin(s, c)
    ensures Step(p, s, Call(h, command, approvalId, Some(c)))
            == s.(gate := Gate.Step(p, s.gate, Gate.Arrive(h, command, approvalId, c)))
  {
    var e := Call(h, command, approvalId, Some(c));
    DeployNeedsAdmin(PeerOf(s, Some(c)));
    var gs := GateEvents(s, e);
    assert gs[..0] == [] && Gate.RunFrom(p, s.gate, gs) == Gate.Step(p, s.gate, gs[0]);
    assert T.RunFrom(s.store, StoreEvents(e)) == s.store;
  }

  lemma GateStepLifts(p: Policy, s: State, g: Gate.Event)
    requires g.Rule? || g.Start?
    ensures Step(p, s, GateEvent(g)) == s.(gate := Gate.Step(p, s.gate, g))
  {
    var gs := GateEvents(s, GateEvent(g));
    assert gs[..0] == [] && Gate.RunFrom(p, s.gate, gs) == Gate.Step(p, s.gate, gs[0]);
  }

  /** An admitted call that nothing disturbs does to the whole agent what the Deploy method does: it executes its
      command, with its certificate, exactly when policy, approvals and clock permit. */
  lemma ServedCallIsDeploy(p: Policy, s: State, c: nat, h: Gate.HandlerId, command: string, approvalId: string,
                           now: Time, entropy: Option<ApprovalEntropy>, w: Work) returns (s': State)
    requires IsAdmin(s, c) && h !in s.gate.handlers && Gate.FreshEntropy(s.gate, entropy)
    ensures s' == RunFrom(p, s, Served(c, h, command, approvalId, now, entropy))
    ensures s' == s.(gate := s'.gate) && s'.gate.handlers == s.gate.handlers
    ensures s'.gate.grants == HandleDeploy(p, s.gate.grants, command, approvalId, now, entropy, w).grants
    ensures s'.gate.executions == s.gate.executions
              + if Permitted(p, s.gate.grants, command, approvalId, now) && command != ""
                then [Gate.Execution(command, c, Gate.TicketOf(approvalId, now), s.gate.epoch, s.gate.tick + 2)] else []
  {
    ServedSteps(p, s, c, h, command, approvalId, now, entropy);
    var g := Gate.HandlerAloneIsDeploy(p, s.gate, h, command, approvalId, c, now, entropy, w);
    s' := s.(gate := g);
  }

  lemma ServedSteps(p: Policy, s: State, c: nat, h: Gate.HandlerId, command: string, approvalId: string,
                    now: Time, entropy: Option<ApprovalEntropy>)
    requires IsAdmin(s, c)
    ensures RunFrom(p, s, Served(c, h, command, approvalId, now, entropy))
            == s.(gate := Gate.Step(p, Gate.Step(p, Gate.Step(p, s.gate, Gate.Arrive(h, command, approvalId, c)),
                                                 Gate.Rule(h, now, entropy)), Gate.Start(h)))
  {
    ThreeSteps(p, s, Served(c, h, command, approvalId, now, entropy));
    AdminIsAdmitted(p, s, c, h, command, approvalId);
    var s1 := s.(gate := Gate.Step(p, s.gate, Gate.Arrive(h, command, approvalId, c)));
    GateStepLifts(p, s1, Gate.Rule(h, now, entropy));
    var s2 := s1.(gate := Gate.Step(p, s1.gate, Gate.Rule(h, now, entropy)));
    GateStepLifts(p, s2, Gate.Start(h));
  }

  /** Exactly one execution more, of this command and on this certificate. */
  ghost predicate RanOnce(s: State, s': State, command: string, c: nat)
  {
    && |s'.gate.executions| == |s.gate.executions| + 1 && s.gate.executions <= s'.gate.executions
    && s'.gate.executions[|s.gate.executions|].command == command
    && s'.gate.executions[|s.gate.executions|].cert == c
  }

  /** A certificate with rex:admin executes every non-empty command that is not denied: at once where the policy
      allows it, by way of a question and its answer where it asks. */
  lemma AdminCertificateExecutes(p: Policy, s: State, c: nat, h: Gate.HandlerId, command: string, now: Time, entropy: ApprovalEntropy)
    returns (es: seq<Event>)
    requires IsAdmin(s, c) && h !in s.gate.handlers && Gate.FreshEntropy(s.gate, Some(entropy))
    requires command != "" && Evaluate(p, command) != DecisionDeny
    ensures RanOnce(s, RunFrom(p, s, es), command, c)
  {
    var w := Work(Execute.Process([], [], Execute.Exited(0)), [], false);
    var plain := Served(c, h, command, "", now, Some(entropy));
    var mid := ServedCallIsDeploy(p, s, c, h, command, "", now, Some(entropy), w);
    if Evaluate(p, command) == DecisionAllow {
      es := plain;
    } else {
      var id := RandID(entropy);
      HandleDeployMeans(p, s.gate.grants, command, "", now, Some(entropy), w);
      assert Permitted(p, mid.gate.grants, command, id, now);
      var approved := Served(c, h, command, id, now, None);
      var end := ServedCallIsDeploy(p, mid, c, h, command, id, now, None, w);
      RunConcat(p, s, plain, approved);
      es := plain + approved;
    }
  }

  // ----- From any state to an execution -----

  /** The daemon restarts, and every process that could be in the way of the lock dies. */
  function Clear(lock: Option<Instance>): seq<Event>
  {
    [Restart, StoreEvent(T.Crash(OPERATOR)), StoreEvent(T.Crash(if lock.Some? && lock.value != DAEMON then lock.value else OPERATOR))]
  }

  /** Instance q died between s and s', and nothing else changed but what that takes away. */
  ghost predicate Died(s: State, s': State, q: Instance)
  {
    && s'.store.main == s.store.main && s'.store.drawn == s.store.drawn && s'.issued == s.issued
    && T.PhaseOf(s'.store, q).Idle? && (forall r | r != q :: T.PhaseOf(s'.store, r) == T.PhaseOf(s.store, r))
    && s'.store.lock == (if s.store.lock == Some(q) then None else s.store.lock)
    && s'.gate.executions == s.gate.executions && s'.gate.approvals == s.gate.approvals
    && (s.gate.handlers == map[] || q == DAEMON ==> s'.gate.handlers == map[])
  }

  lemma CrashStep(p: Policy, s: State, q: Instance)
    requires q != DAEMON
    ensures Died(s, Step(p, s, StoreEvent(T.Crash(q))), q)
  {
    var ts := StoreEvents(StoreEvent(T.Crash(q)));
    assert ts[..0] == [] && T.RunFrom(s.store, ts) == T.Step(s.store, ts[0]);
    R.CrashIsHarmless(s.store, q);
  }

  lemma RestartStep(p: Policy, s: State)
    ensures Died(s, Step(p, s, Restart), DAEMON)
  {
    var ts, gs := StoreEvents(Restart), GateEvents(s, Restart);
    assert ts[..0] == [] && T.RunFrom(s.store, ts) == T.Step(s.store, ts[0]);
    assert gs[..0] == [] && Gate.RunFrom(p, s.gate, gs) == Gate.Step(p, s.gate, gs[0]);
    R.CrashIsHarmless(s.store, DAEMON);
  }

  lemma ClearFreesLock(p: Policy, s: State) returns (s': State)
    ensures s' == RunFrom(p, s, Clear(s.store.lock))
    ensures s'.store.lock == None && T.PhaseOf(s'.store, DAEMON).Idle? && T.PhaseOf(s'.store, OPERATOR).Idle?
    ensures s'.store.main == s.store.main && s'.store.drawn == s.store.drawn && s'.issued == s.issued
    ensures s'.gate.executions == s.gate.executions && s'.gate.approvals == s.gate.approvals && s'.gate.handlers == map[]
  {
    var es := Clear(s.store.lock);
    ThreeSteps(p, s, es);
    RestartStep(p, s);
    var s1 := Step(p, s, es[0]);
    CrashStep(p, s1, OPERATOR);
    var s2 := Step(p, s1, es[1]);
    CrashStep(p, s2, es[2].t.who);
    s' := Step(p, s2, es[2]);
  }

  /** From a state in which the lock is free and no call is under way: a new token, a new certificate for it and
      one execution. */
  lemma FreeAgentExecutes(p: Policy, s: State, command: string, v: string, entropy: ApprovalEntropy) returns (es: seq<Event>)
    requires s.store.lock == None && T.PhaseOf(s.store, DAEMON).Idle? && T.PhaseOf(s.store, OPERATOR).Idle?
    requires !s.store.main.Torn? && s.gate.handlers == map[]
    requires command != "" && Evaluate(p, command) != DecisionDeny
    requires v !in s.store.drawn && Gate.FreshEntropy(s.gate, Some(entropy))
    ensures var s' := RunFrom(p, s, es);
            && RanOnce(s, s', command, |s.issued|)
            && |s.issued| < |s'.issued| && s'.issued[|s.issued|].cert == Cert([ROLE_ADMIN], true)
  {
    var enroll := EveryRoleCanBeEnrolled(p, s, v, ROLE_ADMIN, 0);
    var mid := RunFrom(p, s, enroll);
    assert IsAdmin(mid, |s.issued|);
    var deploy := AdminCertificateExecutes(p, mid, |s.issued|, 0, command, 0, entropy);
    RunConcat(p, s, enroll, deploy);
    IssuedGrows(p, mid, deploy);
    es := enroll + deploy;
  }

  /** No state is a dead end: whatever a run of the agent did, crashed or left locked, it can go on to execute any
      non-empty command that is not denied, exactly once more, on a new certificate; given random values that
      were never drawn. */
  lemma EveryRunCanGoOn(p: Policy, es: seq<Event>, command: string, v: string, entropy: ApprovalEntropy) returns (more: seq<Event>)
    requires command != "" && Evaluate(p, command) != DecisionDeny
    requires v !in Run(p, es).store.drawn && Gate.FreshEntropy(Run(p, es).gate, Some(entropy))
    ensures var s, s' := Run(p, es), Run(p, es + more);
            && RanOnce(s, s', command, |s.issued|)
            && |s.issued| < |s'.issued| && s'.issued[|s.issued|].cert == Cert([ROLE_ADMIN], true)
  {
    var s := Run(p, es);
    assert !s.store.main.Torn? by {
      RunProjects(p, INIT, es);
      R.EveryRunRefinesAtomicMap(StoreTrace(es));
    }
    var clear := Clear(s.store.lock);
    var s1 := ClearFreesLock(p, s);
    var rest := FreeAgentExecutes(p, s1, command, v, entropy);
    more := clear + rest;
    RunInThree(p, es, clear, rest);
  }

  lemma RunInThree(p: Policy, es: seq<Event>, a: seq<Event>, b: seq<Event>)
    ensures Run(p, es + (a + b)) == RunFrom(p, RunFrom(p, Run(p, es), a), b)
  {
    RunConcat(p, INIT, es, a + b);
    RunConcat(p, Run(p, es), a, b);
  }

  lemma {:induction false} IssuedGrows(p: Policy, s: State, more: seq<Event>)
    ensures s.issued <= RunFrom(p, s, more).issued
  {
    if more != [] {
      IssuedGrows(p, s, more[..|more| - 1]);
    }
  }

  /** Some run of the whole agent executes this command. */
  ghost predicate Executable(p: Policy, command: string)
  {
    exists es :: Gate.Executes(Run(p, es).gate, command)
  }

  /** Over all runs of the whole agent, from an empty token file and without any certificate, the commands Deploy
      can ever execute are exactly the non-empty ones the policy does not deny. */
  lemma AgentExecutesIffNotDenied(p: Policy, command: string)
    ensures Executable(p, command) <==> command != "" && Evaluate(p, command) != DecisionDeny
  {
    if Executable(p, command) {
      var es :| Gate.Executes(Run(p, es).gate, command);
      RunProjects(p, INIT, es);
      assert Gate.Executes(Gate.Run(p, GateTrace(p, INIT, es)), command);
      assert Gate.Executable(p, command);
      Gate.ExecutableIffNotDenied(p, command);
    } else if command != "" && Evaluate(p, command) != DecisionDeny {
      var entropy: ApprovalEntropy := seq(18, _ => 0);
      var more := EveryRunCanGoOn(p, [], command, "", entropy);
      assert Gate.Executes(Run(p, [] + more).gate, command);
    }
  }
}
