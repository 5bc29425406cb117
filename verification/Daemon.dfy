/** The whole agent as one machine: the token file with its instances (instance 0 is the daemon's store, the
    others are `token new` processes), enrollment, the role check and the Deploy gate, and restarts of the
    daemon. The only client certificates that pass TLS verification are those enrollment handed out. */
module Daemon {
  import opened Prelude
  import opened AtomicTokens
  import opened Policy
  import opened Authz
  import T = TokenMachine
  import R = TokenRuns
  import opened Enroll
  import Gate

  const DAEMON: Instance := 0

  /** A certificate handed to a controller, and the finished Consume call that paid for it. */
  datatype Issued = Issued(cert: Cert, paidBy: nat)

  /** `signing`: the finished Consume calls whose enrollment handler has not signed yet. */
  datatype State = State(store: T.State, signing: set<nat>, issued: seq<Issued>, gate: Gate.State)

  const INIT := State(T.INIT, {}, [], Gate.INIT)

  /** StoreEvent: a step of the token file. Sign: an enrollment handler whose Consume call returned a role
      signs. Call: a Deploy request arrives, presenting an issued certificate or none. GateEvent: a step of
      a Deploy handler. Restart: the daemon dies and starts again. */
  datatype Event =
    | StoreEvent(t: T.Event)
    | Sign(call: nat, outcome: Signing)
    | Call(h: Gate.HandlerId, command: string, approvalId: string, presented: Option<nat>)
    | GateEvent(g: Gate.Event)
    | Restart

  predicate ReturnedRole(r: T.Response)
  {
    r.who == DAEMON && r.op.ConsumeOp? && r.reply.Replied? && r.reply.out.Granted?
  }

  /** The daemon only consumes tokens, the other processes only issue them; the daemon's death is Restart. */
  predicate InRole(t: T.Event)
  {
    && (t.Begin? || t.MkdirFails? ==> (t.who == DAEMON <==> t.op.ConsumeOp?))
    && !(t.Crash? && t.who == DAEMON)
  }

  /** The calls that returned a role to the daemon between two states of the store. */
  function NewRoles(before: T.State, after: T.State): set<nat>
  {
    set k | |before.responses| <= k < |after.responses| && ReturnedRole(after.responses[k])
  }

  function PeerOf(s: State, presented: Option<nat>): Peer
  {
    if presented.Some? && presented.value < |s.issued| then Chain([s.issued[presented.value].cert.orgs]) else Chain([])
  }

  /** The stream interceptor lets this Deploy call through. */
  ghost predicate Admitted(s: State, e: Event)
  {
    e.Call? && Admits(AGENT_TABLE, DEPLOY, PeerOf(s, e.presented))
  }

  predicate CanSign(s: State, k: nat)
  {
    k in s.signing && k < |s.store.responses| && ReturnedRole(s.store.responses[k])
  }

  /** What an event does to the token file and to the gate. */
  function StoreEvents(e: Event): seq<T.Event>
  {
    match e
    case StoreEvent(t) => if InRole(t) then [t] else []
    case Restart => [T.Crash(DAEMON)]
    case _ => []
  }

  ghost function GateEvents(s: State, e: Event): seq<Gate.Event>
  {
    match e
    case Call(h, command, approvalId, presented) =>
      if Admitted(s, e) then [Gate.Arrive(h, command, approvalId, if presented.Some? then presented.value else 0)] else []
    case GateEvent(g) => if g.Arrive? || g.Restart? then [] else [g]
    case Restart => [Gate.Event.Restart]
    case _ => []
  }

  ghost function Step(p: Policy, s: State, e: Event): State
  {
    var store := T.RunFrom(s.store, StoreEvents(e));
    var gate := Gate.RunFrom(p, s.gate, GateEvents(s, e));
    match e
    case StoreEvent(_) => s.(store := store, signing := s.signing + NewRoles(s.store, store))
    case Sign(k, outcome) =>
      if !CanSign(s, k) then s
      else
        var cert := IssuedCert(s.store.responses[k].reply.out.role, outcome);
        s.(signing := s.signing - {k}, issued := s.issued + if cert.Some? then [Issued(cert.value, k)] else [])
    case Call(_, _, _, _) => s.(gate := gate)
    case GateEvent(_) => s.(gate := gate)
    case Restart => s.(store := store, signing := {}, gate := gate)
  }

  ghost function RunFrom(p: Policy, s: State, es: seq<Event>): State
  {
    if es == [] then s else Step(p, RunFrom(p, s, es[..|es| - 1]), es[|es| - 1])
  }

  ghost function Run(p: Policy, es: seq<Event>): State
  {
    RunFrom(p, INIT, es)
  }

  lemma {:induction false} RunConcat(p: Policy, s: State, es: seq<Event>, more: seq<Event>)
    ensures RunFrom(p, s, es + more) == RunFrom(p, RunFrom(p, s, es), more)
  {
    if more == [] {
      assert es + more == es;
    } else {
      var n := |more| - 1;
      assert (es + more)[..|es + more| - 1] == es + more[..n];
      RunConcat(p, s, es, more[..n]);
    }
  }

  // ----- Projections: what the parts see is a run of their own -----

  ghost function StoreTrace(es: seq<Event>): seq<T.Event>
  {
    if es == [] then [] else StoreTrace(es[..|es| - 1]) + StoreEvents(es[|es| - 1])
  }

  ghost function GateTrace(p: Policy, s: State, es: seq<Event>): seq<Gate.Event>
  {
    if es == [] then []
    else GateTrace(p, s, es[..|es| - 1]) + GateEvents(RunFrom(p, s, es[..|es| - 1]), es[|es| - 1])
  }

  lemma StepProjects(p: Policy, s: State, e: Event)
    ensures Step(p, s, e).store == T.RunFrom(s.store, StoreEvents(e))
    ensures Step(p, s, e).gate == Gate.RunFrom(p, s.gate, GateEvents(s, e))
  {
  }

  lemma {:induction false} RunProjects(p: Policy, s: State, es: seq<Event>)
    ensures RunFrom(p, s, es).store == T.RunFrom(s.store, StoreTrace(es))
    ensures RunFrom(p, s, es).gate == Gate.RunFrom(p, s.gate, GateTrace(p, s, es))
  {
    if es != [] {
      var init, e := es[..|es| - 1], es[|es| - 1];
      var mid := RunFrom(p, s, init);
      RunProjects(p, s, init);
      StepProjects(p, mid, e);
      R.RunConcat(s.store, StoreTrace(init), StoreEvents(e));
      Gate.RunConcat(p, s.gate, GateTrace(p, s, init), GateEvents(mid, e));
    }
  }

  // ----- Certificates -----

  ghost predicate SigningOk(s: State)
  {
    forall k | k in s.signing :: k < |s.store.responses| && ReturnedRole(s.store.responses[k])
  }

  /** Every issued certificate is a client certificate with exactly the role its token carried, and was paid
      for by a call of its own. */
  ghost predicate IssuedOk(s: State)
  {
    && (forall c | 0 <= c < |s.issued| ::
          var k := s.issued[c].paidBy;
          && k < |s.store.responses| && ReturnedRole(s.store.responses[k]) && k !in s.signing
          && s.issued[c].cert == Cert([s.store.responses[k].reply.out.role], true))
    && (forall c, d | 0 <= c < d < |s.issued| :: s.issued[c].paidBy != s.issued[d].paidBy)
  }

  ghost predicate IsAdmin(s: State, c: nat)
  {
    c < |s.issued| && ROLE_ADMIN in s.issued[c].cert.orgs
  }

  /** Every handler and every execution goes back to an issued certificate that carries rex:admin. */
  ghost predicate CallersOk(s: State)
  {
    && (forall h | h in s.gate.handlers :: IsAdmin(s, s.gate.handlers[h].cert))
    && (forall i | 0 <= i < |s.gate.executions| :: IsAdmin(s, s.gate.executions[i].cert))
  }

  ghost predicate Inv(s: State)
  {
    SigningOk(s) && IssuedOk(s) && CallersOk(s)
  }

  lemma CertsComeFromArrivals(p: Policy, s: State, g: Gate.Event)
    requires CallersOk(s) && (g.Arrive? ==> IsAdmin(s, g.cert))
    ensures CallersOk(s.(gate := Gate.Step(p, s.gate, g)))
  {
  }

  lemma CallKeepsInv(p: Policy, s: State, e: Event)
    requires Inv(s) && (e.Call? || e.GateEvent?)
    ensures Inv(Step(p, s, e))
  {
    var gs := GateEvents(s, e);
    if gs != [] {
      assert gs[..0] == [] && Gate.RunFrom(p, s.gate, gs) == Gate.Step(p, s.gate, gs[0]);
      if e.Call? {
        DeployNeedsAdmin(PeerOf(s, e.presented));
      }
      CertsComeFromArrivals(p, s, gs[0]);
    }
  }

  lemma StoreKeepsInv(p: Policy, s: State, e: Event)
    requires Inv(s) && (e.StoreEvent? || e.Restart?)
    ensures Inv(Step(p, s, e))
  {
    R.HistoryGrows(s.store, StoreEvents(e));
    if e.Restart? {
      var gs := GateEvents(s, e);
      assert gs[..0] == [] && Gate.RunFrom(p, s.gate, gs) == Gate.Step(p, s.gate, gs[0]);
    }
  }

  lemma SignKeepsInv(p: Policy, s: State, e: Event)
    requires Inv(s) && e.Sign?
    ensures Inv(Step(p, s, e))
  {
  }

  lemma {:induction false} RunKeepsInv(p: Policy, es: seq<Event>)
    ensures Inv(Run(p, es))
  {
    if es != [] {
      var s, e := Run(p, es[..|es| - 1]), es[|es| - 1];
      RunKeepsInv(p, es[..|es| - 1]);
      if e.Sign? {
        SignKeepsInv(p, s, e);
      } else if e.StoreEvent? || e.Restart? {
        StoreKeepsInv(p, s, e);
      } else {
        CallKeepsInv(p, s, e);
      }
    }
  }

  // ----- Provenance -----

  /** Certificate c was paid for with token v, which was issued by commit j of the token file with the one
      role the certificate carries, and which the file no longer holds. */
  ghost predicate PaidWith(s: State, c: nat, v: string, j: nat)
  {
    && c < |s.issued| && s.issued[c].paidBy < |s.store.responses|
    && s.store.responses[s.issued[c].paidBy].op == ConsumeOp(v)
    && j < |s.store.log| && Issues(s.store.log[j], v)
    && s.issued[c].cert == Cert([s.store.log[j].op.role], true)
    && v !in R.Contents(s.store.main)
  }

  lemma CertificateHasToken(p: Policy, es: seq<Event>, c: nat) returns (v: string, j: nat)
    requires c < |Run(p, es).issued|
    ensures PaidWith(Run(p, es), c, v, j)
  {
    var s := Run(p, es);
    RunKeepsInv(p, es);
    RunProjects(p, INIT, es);
    var k := s.issued[c].paidBy;
    v := s.store.responses[k].op.value;
    var role := s.store.responses[k].reply.out.role;
    j := R.RoleComesFromIssue(StoreTrace(es), k, v, role);
    R.RoleImpliesDurableDeletion(StoreTrace(es), k, v, role);
  }

  /** Issued certificates map injectively into issued tokens: no token pays for two. */
  lemma OneCertificatePerToken(p: Policy, es: seq<Event>, c: nat, d: nat, v: string, j: nat, j': nat)
    requires PaidWith(Run(p, es), c, v, j) && PaidWith(Run(p, es), d, v, j')
    ensures c == d && j == j'
  {
    var s := Run(p, es);
    RunKeepsInv(p, es);
    RunProjects(p, INIT, es);
    var k, l := s.issued[c].paidBy, s.issued[d].paidBy;
    R.AtMostOneRolePerToken(StoreTrace(es), k, l, v, s.store.responses[k].reply.out.role, s.store.responses[l].reply.out.role);
    R.EveryRunRefinesAtomicMap(StoreTrace(es));
  }

  /** Every Deploy execution goes back to an admitted client certificate whose one role is rex:admin, paid for
      by exactly one token, which was issued with that role. */
  lemma EveryExecutionHasAdminToken(p: Policy, es: seq<Event>, i: nat) returns (v: string, j: nat)
    requires i < |Run(p, es).gate.executions|
    ensures var s := Run(p, es);
            var c := s.gate.executions[i].cert;
            && PaidWith(s, c, v, j)
            && s.issued[c].cert == Cert([ROLE_ADMIN], true) && s.store.log[j].op.role == ROLE_ADMIN
            && forall d, j' | PaidWith(s, d, v, j') :: d == c && j' == j
  {
    var s := Run(p, es);
    RunKeepsInv(p, es);
    var c := s.gate.executions[i].cert;
    assert IsAdmin(s, c);
    v, j := CertificateHasToken(p, es, c);
    forall d, j' | PaidWith(s, d, v, j')
      ensures d == c && j' == j
    {
      OneCertificatePerToken(p, es, c, d, v, j, j');
    }
  }

  /** In the whole agent, too, a denied command never runs, and executions are authorised one by one. */
  lemma AgentNeverRunsDenied(p: Policy, es: seq<Event>)
    ensures var xs := Run(p, es).gate.executions;
            && (forall i | 0 <= i < |xs| :: Evaluate(p, xs[i].command) != DecisionDeny)
            && (forall i, k | 0 <= i < k < |xs| && xs[i].ticket.ByApproval? :: !Gate.Uses(xs[k].ticket, xs[i].ticket.id))
  {
    RunProjects(p, INIT, es);
    Gate.DeniedNeverRuns(p, GateTrace(p, INIT, es));
    Gate.RunKeepsInv(p, GateTrace(p, INIT, es));
  }

  // ----- Failed signing -----

  /** Call k neither paid nor will pay for a certificate. */
  ghost predicate Forfeited(s: State, k: nat)
  {
    && k < |s.store.responses| && k !in s.signing
    && forall c | 0 <= c < |s.issued| :: s.issued[c].paidBy != k
  }

  lemma ForfeitedStep(p: Policy, s: State, e: Event, k: nat)
    requires Forfeited(s, k)
    ensures Forfeited(Step(p, s, e), k)
  {
    R.HistoryGrows(s.store, StoreEvents(e));
  }

  lemma {:induction false} ForfeitedForever(p: Policy, s: State, more: seq<Event>, k: nat)
    requires Forfeited(s, k)
    ensures Forfeited(RunFrom(p, s, more), k)
  {
    if more != [] {
      ForfeitedForever(p, s, more[..|more| - 1], k);
      ForfeitedStep(p, RunFrom(p, s, more[..|more| - 1]), more[|more| - 1], k);
    }
  }

  /** A failed signing, or a restart before signing, spends the token without a certificate, for good. */
  lemma FailedSigningSpendsToken(p: Policy, es: seq<Event>, k: nat, e: Event, more: seq<Event>)
    requires CanSign(Run(p, es), k)
    requires e == Restart || (e.Sign? && e.call == k && e.outcome != Signed)
    ensures var s := Run(p, es + [e] + more);
            && k < |s.store.responses| && s.store.responses[k] == Run(p, es).store.responses[k]
            && s.store.responses[k].op.value !in R.Contents(s.store.main)
            && forall c | 0 <= c < |s.issued| :: s.issued[c].paidBy != k
  {
    var s := Run(p, es);
    RunKeepsInv(p, es);
    RunConcat(p, INIT, es, [e] + more);
    RunConcat(p, s, [e], more);
    assert es + [e] + more == es + ([e] + more);
    assert [e][..0] == [] && RunFrom(p, s, [e]) == Step(p, s, e);
    R.HistoryGrows(s.store, StoreEvents(e));
    assert Forfeited(Step(p, s, e), k);
    ForfeitedForever(p, Step(p, s, e), more, k);
    RunProjects(p, s, [e] + more);
    R.HistoryGrows(s.store, StoreTrace([e] + more));
    RunProjects(p, INIT, es + [e] + more);
    var r := s.store.responses[k];
    R.RoleImpliesDurableDeletion(StoreTrace(es + [e] + more), k, r.op.value, r.reply.out.role);
  }

  // ----- Restarts -----

  lemma {:induction false} StoreTraceExtends(es: seq<Event>, more: seq<Event>)
    ensures StoreTrace(es + more) == StoreTrace(es) + StoreTrace(more)
  {
    if more == [] {
      assert es + more == es;
    } else {
      var n := |more| - 1;
      assert (es + more)[..|es + more| - 1] == es + more[..n];
      StoreTraceExtends(es, more[..n]);
      AppendAssoc(StoreTrace(es), StoreTrace(more[..n]), StoreEvents(more[n]));
    }
  }

  lemma {:induction false} GateTraceExtends(p: Policy, s: State, es: seq<Event>, more: seq<Event>)
    ensures GateTrace(p, s, es + more) == GateTrace(p, s, es) + GateTrace(p, RunFrom(p, s, es), more)
  {
    if more == [] {
      assert es + more == es;
    } else {
      var n := |more| - 1;
      assert (es + more)[..|es + more| - 1] == es + more[..n];
      GateTraceExtends(p, s, es, more[..n]);
      RunConcat(p, s, es, more[..n]);
      var mid := RunFrom(p, s, es);
      AppendAssoc(GateTrace(p, s, es), GateTrace(p, mid, more[..n]), GateEvents(RunFrom(p, mid, more[..n]), more[n]));
    }
  }

  /** Any number of restarts keep the token file exactly and drop every approval. */
  lemma {:induction false} RestartsKeepTokensDropApprovals(p: Policy, s: State, restarts: seq<Event>)
    requires forall i | 0 <= i < |restarts| :: restarts[i].Restart?
    ensures var s' := RunFrom(p, s, restarts);
            && s'.store.main == s.store.main && s'.store.log == s.store.log && s'.issued == s.issued
            && (restarts != [] ==> s'.gate.grants == map[] && s'.gate.handlers == map[])
  {
    if restarts != [] {
      var n := |restarts| - 1;
      var mid := RunFrom(p, s, restarts[..n]);
      RestartsKeepTokensDropApprovals(p, s, restarts[..n]);
      var ts, gs := StoreEvents(restarts[n]), GateEvents(mid, restarts[n]);
      assert ts[..0] == [] && T.RunFrom(mid.store, ts) == T.Step(mid.store, ts[0]);
      assert gs[..0] == [] && Gate.RunFrom(p, mid.gate, gs) == Gate.Step(p, mid.gate, gs[0]);
    }
  }

  /** One half of the asymmetry: whatever happens after a restart, no approval asked for before it
      authorises anything. */
  lemma ApprovalsDieAtRestart(p: Policy, es: seq<Event>, more: seq<Event>, id: string, i: nat)
    requires id in Run(p, es).gate.approvals
    requires |Run(p, es).gate.executions| <= i < |Run(p, es + ([Restart] + more)).gate.executions|
    ensures !Gate.Uses(Run(p, es + ([Restart] + more)).gate.executions[i].ticket, id)
  {
    var s := Run(p, es);
    var gs, rest := GateTrace(p, INIT, es), GateTrace(p, RunFrom(p, s, [Restart]), more);
    assert GateTrace(p, INIT, es + ([Restart] + more)) == gs + [Gate.Event.Restart] + rest by {
      GateTraceExtends(p, INIT, es, [Restart] + more);
      GateTraceExtends(p, s, [Restart], more);
      GateTraceOfRestart(p, s);
      AppendAssoc(gs, [Gate.Event.Restart], rest);
    }
    RunProjects(p, INIT, es);
    RunProjects(p, INIT, es + ([Restart] + more));
    Gate.ApprovalsDieWithTheDaemon(p, gs, rest, id, i);
  }

  /** The other half: a token spent at some time stays spent, through restarts and everything else. */
  lemma SpentTokensStaySpent(p: Policy, es: seq<Event>, more: seq<Event>, v: string)
    requires v in SpentValues(Run(p, es).store.log)
    ensures v !in R.Contents(Run(p, es + more).store.main)
  {
    RunProjects(p, INIT, es);
    RunProjects(p, INIT, es + more);
    StoreTraceExtends(es, more);
    R.SpentForever(StoreTrace(es), StoreTrace(more), v);
  }

  lemma GateTraceOfRestart(p: Policy, s: State)
    ensures GateTrace(p, s, [Restart]) == [Gate.Event.Restart]
  {
    var es: seq<Event> := [Restart];
    assert es[..0] == [];
    assert GateTrace(p, s, es) == [] + GateEvents(s, es[0]);
  }
}
