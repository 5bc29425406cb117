/** The Deploy and Run handlers of internal/agentserver/agentserver.go. */
module AgentServer {
  import opened Prelude
  import opened RandomIds
  import opened Policy
  import G = Grants
  import opened Wire
  import opened Execute

  /** Five minutes. */
  const APPROVAL_TTL: Time := 5 * 60 * 1_000_000_000

  datatype Refusal = BadApproval(error: G.ConsumeError) | NoRandomness | PolicyDenies

  datatype Verdict = Proceed | AskFor(id: string) | Refuse(reason: Refusal)

  /** The three-way gate: the approvals left afterwards, and what is to happen. A request that carries an
      approval id is judged by the approval alone. */
  function Decide(p: Policy, m: G.GrantMap, command: string, approvalId: string, now: Time, entropy: Option<ApprovalEntropy>)
    : (G.GrantMap, Verdict)
  {
    if approvalId != "" then
      var error := G.Verdict(G.Lookup(m, approvalId), command, now);
      (m - {approvalId}, if error.Some? then Refuse(BadApproval(error.value)) else Proceed)
    else match Evaluate(p, command)
      case DecisionAllow => (m, Proceed)
      case DecisionAsk =>
        if entropy.None? then (m, Refuse(NoRandomness))
        else
          var id := RandID(entropy.value);
          (m[id := G.Grant(command, now + APPROVAL_TTL)], AskFor(id))
      case DecisionDeny => (m, Refuse(PolicyDenies))
  }

  /** What happens while a handler runs: the process, the interleaving of its pumps, and whether the
      handler's own final send fails. */
  datatype Work = Work(process: Process, turns: seq<Turn>, lastFault: bool)

  predicate Finished(w: Work)
  {
    Drained(PumpRun(w.process, w.turns))
  }

  function SentOutput(w: Work): seq<ExecChunk>
  {
    PumpRun(w.process, w.turns).sent
  }

  function OutputCut(w: Work): bool
  {
    CopyFailed(PumpRun(w.process, w.turns))
  }

  /** The messages that went out, and whether the handler returned without an error. */
  datatype Answer = Answer(sent: seq<ExecChunk>, ok: bool)

  predicate Launches(command: string, w: Work)
  {
    command != "" && !w.process.ending.StartFailed?
  }

  function RunStreamAnswer(command: string, w: Work): Answer
  {
    var output := if Launches(command, w) then SentOutput(w) else [];
    match RunResult(command, w.process.ending, OutputCut(w))
    case None => Answer(output, false)
    case Some(code) =>
      if w.lastFault then Answer(output, false) else Answer(output + [ExitCode(ToInt32(code))], true)
  }

  datatype Handled = Handled(grants: G.GrantMap, verdict: Verdict, launched: bool, answer: Answer)

  function HandleDeploy(p: Policy, m: G.GrantMap, command: string, approvalId: string,
                        now: Time, entropy: Option<ApprovalEntropy>, w: Work): Handled
  {
    var (m', verdict) := Decide(p, m, command, approvalId, now, entropy);
    match verdict
    case Proceed => Handled(m', verdict, Launches(command, w), RunStreamAnswer(command, w))
    case AskFor(id) =>
      Handled(m', verdict, false,
              if w.lastFault then Answer([], false) else Answer([NeedsApproval(ApprovalRequest(id))], true))
    case Refuse(_) => Handled(m', verdict, false, Answer([], false))
  }

  /** A request may start its process: with an approval id, if that very approval is held for this command and
      not too old; without one, if the policy allows the command outright. */
  predicate Permitted(p: Policy, m: G.GrantMap, command: string, approvalId: string, now: Time)
  {
    if approvalId == "" then Evaluate(p, command) == DecisionAllow
    else approvalId in m && m[approvalId].command == command && now <= m[approvalId].expiry
  }

  /** A request is answered with a question. */
  predicate Asks(p: Policy, command: string, approvalId: string, entropy: Option<ApprovalEntropy>)
  {
    approvalId == "" && Evaluate(p, command) == DecisionAsk && entropy.Some?
  }

  /** The gate in terms of policy, approvals and clock: what it starts, what it answers, which approvals it
      leaves. */
  lemma HandleDeployMeans(p: Policy, m: G.GrantMap, command: string, approvalId: string,
                          now: Time, entropy: Option<ApprovalEntropy>, w: Work)
    ensures var h := HandleDeploy(p, m, command, approvalId, now, entropy, w);
            var permitted := Permitted(p, m, command, approvalId, now);
            && (h.launched <==> permitted && Launches(command, w))
            && (h.verdict.Proceed? <==> permitted)
            && (h.verdict.AskFor? <==> Asks(p, command, approvalId, entropy))
            && (permitted ==> h.answer == RunStreamAnswer(command, w))
            && (h.verdict.AskFor? ==> h.verdict.id == RandID(entropy.value))
            && (h.verdict.AskFor? && !w.lastFault ==> h.answer == Answer([NeedsApproval(ApprovalRequest(RandID(entropy.value)))], true))
            && (!permitted && !(h.verdict.AskFor? && !w.lastFault) ==> h.answer == Answer([], false))
            && h.grants == if approvalId != "" then m - {approvalId}
                           else if h.verdict.AskFor? then m[RandID(entropy.value) := G.Grant(command, now + APPROVAL_TTL)]
                           else m
  {
  }

  class Server {
    const policy: Policy
    const grants: G.Grants
    const host: Host

    constructor (policy: Policy, grants: G.Grants, host: Host)
      ensures this.policy == policy && this.grants == grants && this.host == host
    {
      this.policy, this.grants, this.host := policy, grants, host;
    }

    /** The request's own process is started when that is permitted, and nothing is ever started otherwise; a
        request that carries an id uses the id up; a question makes one new approval. */
    method Deploy(req: ExecRequest, stream: Stream, now: Time, entropy: Option<ApprovalEntropy>, w: Work)
      returns (ok: bool)
      requires Finished(w) && grants.Valid()
      modifies grants, stream, host
      ensures grants.Valid()
      ensures host.started == old(host.started)
                + if Permitted(policy, old(grants.m), req.command, req.approvalId, now) && Launches(req.command, w)
                  then [Spec(req.command, req.args, req.workingDir, req.env)] else []
      ensures grants.m == if req.approvalId != "" then old(grants.m) - {req.approvalId}
                          else if Asks(policy, req.command, "", entropy) then
                            old(grants.m)[RandID(entropy.value) := G.Grant(req.command, now + APPROVAL_TTL)]
                          else old(grants.m)
      ensures var run := RunStreamAnswer(req.command, w);
              if Permitted(policy, old(grants.m), req.command, req.approvalId, now) then
                stream.sent == old(stream.sent) + run.sent && ok == run.ok
              else if Asks(policy, req.command, req.approvalId, entropy) && !w.lastFault then
                stream.sent == old(stream.sent) + [NeedsApproval(ApprovalRequest(RandID(entropy.value)))] && ok
              else stream.sent == old(stream.sent) && !ok
    {
      var command := req.command;
      if req.approvalId != "" {
        var error := grants.Consume(req.approvalId, command, now);
        if error.Some? {
          return false;
        }
        ok := RunStream(req, stream, w, host);
        return;
      }
      match Evaluate(policy, command) {
        case DecisionAllow =>
          ok := RunStream(req, stream, w, host);
        case DecisionAsk =>
          var id := grants.Issue(command, APPROVAL_TTL, entropy, now);
          if id.None? {
            return false;
          }
          ok := stream.Send(NeedsApproval(ApprovalRequest(id.value)), w.lastFault);
        case DecisionDeny =>
          return false;
      }
    }
  }

  method RunStream(req: ExecRequest, stream: Stream, w: Work, host: Host) returns (ok: bool)
    requires Finished(w)
    modifies stream, host
    ensures var a := RunStreamAnswer(req.command, w);
            stream.sent == old(stream.sent) + a.sent && ok == a.ok
    ensures host.started == old(host.started)
              + if Launches(req.command, w) then [Spec(req.command, req.args, req.workingDir, req.env)] else []
  {
    var emitter := new Emitter(stream);
    var code, error := Execute.Run(Spec(req.command, req.args, req.workingDir, req.env), w.process, w.turns, emitter, host);
    if error {
      return false;
    }
    ok := stream.Send(ExitCode(ToInt32(code)), w.lastFault);
  }

  // ----- The grammar of the stream -----

  ghost predicate OnlyOutput(msgs: seq<ExecChunk>)
  {
    forall i | 0 <= i < |msgs| :: IsOutput(msgs[i])
  }

  /** A run that ends cleanly sent output and then one exit code; one that does not sent only output. */
  lemma RunGrammar(command: string, w: Work)
    ensures var a := RunStreamAnswer(command, w);
            if a.ok then
              && Launches(command, w) && w.process.ending.Exited?
              && a.sent == SentOutput(w) + [ExitCode(ToInt32(w.process.ending.code))]
              && OnlyOutput(SentOutput(w))
            else OnlyOutput(a.sent)
  {
    NothingLostOrReordered(w.process, w.turns);
  }

  /** A stream that ends cleanly is either a lone approval request, with nothing run, or the output followed
      by one exit code; a stream that ends in an error holds nothing but output. */
  lemma StreamGrammar(p: Policy, m: G.GrantMap, command: string, approvalId: string,
                      now: Time, entropy: Option<ApprovalEntropy>, w: Work)
    ensures var h := HandleDeploy(p, m, command, approvalId, now, entropy, w);
            var sent := h.answer.sent;
            if !h.answer.ok then OnlyOutput(sent)
            else if h.verdict.Proceed? then
              h.launched && sent != [] && OnlyOutput(sent[..|sent| - 1]) && sent[|sent| - 1].ExitCode?
            else
              && !h.launched && h.verdict.AskFor? && h.verdict.id != ""
              && sent == [NeedsApproval(ApprovalRequest(h.verdict.id))]
  {
    RunGrammar(command, w);
    var a := RunStreamAnswer(command, w);
    assert a.ok ==> a.sent[..|a.sent| - 1] == SentOutput(w);
  }

  /** Every send after a failed one fails too. */
  predicate StickyFailures(w: Work)
  {
    OutputCut(w) ==> w.lastFault
  }

  /** A run that ends cleanly has sent every byte the process wrote, in order, and its exit status, provided
      failed sends are sticky; for a process that succeeded that proviso is not needed. */
  lemma CleanRunSendsEverything(command: string, w: Work)
    requires Finished(w) && RunStreamAnswer(command, w).ok
    requires StickyFailures(w) || w.process.ending == Exited(0)
    ensures var a := RunStreamAnswer(command, w);
            && w.process.ending.Exited?
            && Bytes(Out, a.sent) == Flatten(w.process.out)
            && Bytes(Err, a.sent) == Flatten(w.process.err)
            && LastExit(a.sent) == ToInt32(w.process.ending.code)
  {
    FaultlessRunSendsAll(w.process, w.turns);
    var code := ExitCode(ToInt32(w.process.ending.code));
    BytesAppend(Out, SentOutput(w), code);
    BytesAppend(Err, SentOutput(w), code);
  }

  /** When a copy of the output failed, the stream ends cleanly all the same exactly when the process ended with
      a non-zero status and the handler's last send worked. */
  lemma FailedCopyIsHiddenIff(command: string, w: Work)
    requires OutputCut(w)
    ensures RunStreamAnswer(command, w).ok
       <==> command != "" && w.process.ending.Exited? && w.process.ending.code != 0 && !w.lastFault
  {
  }

  /** What a failed pump did not send, in bytes. */
  function Unsent(w: Work): (nat, nat)
  {
    var ps := PumpRun(w.process, w.turns);
    (|Flatten(ps.out.left)|, |Flatten(ps.err.left)|)
  }

  /** A run that ends cleanly sent every byte the process wrote exactly when its pumps left nothing behind;
      and they can have left something behind only if a copy failed under a non-zero status. */
  lemma CleanEndIsCompleteIff(command: string, w: Work)
    requires Finished(w) && RunStreamAnswer(command, w).ok
    ensures var a := RunStreamAnswer(command, w);
            Bytes(Out, a.sent) == Flatten(w.process.out) && Bytes(Err, a.sent) == Flatten(w.process.err)
            <==> Unsent(w) == (0, 0)
    ensures Unsent(w) != (0, 0) ==> OutputCut(w) && w.process.ending.code != 0
  {
    RunGrammar(command, w);
    NothingLostOrReordered(w.process, w.turns);
    var code := ExitCode(ToInt32(w.process.ending.code));
    BytesAppend(Out, SentOutput(w), code);
    BytesAppend(Err, SentOutput(w), code);
    var ps := PumpRun(w.process, w.turns);
    PrefixIsWholeIff(Bytes(Out, ps.sent), Flatten(ps.out.left));
    PrefixIsWholeIff(Bytes(Err, ps.sent), Flatten(ps.err.left));
  }

  lemma PrefixIsWholeIff(a: seq<byte>, b: seq<byte>)
    ensures a == a + b <==> |b| == 0
  {
    if b != [] {
      assert |a| != |a + b|;
    }
  }

  /** Without stickiness a failing process can lose output behind a clean end: the exit status hides the
      failed copy. */
  lemma FailingProcessMayHideLostOutput()
    ensures var w := Work(Process([[1]], [], Exited(3)), [Turn(Out, true)], false);
            && Finished(w) && RunStreamAnswer("cmd", w) == Answer([ExitCode(3)], true)
            && Flatten(w.process.out) == [1]
  {
    var p := Process([[1]], [], Exited(3));
    var turns := [Turn(Out, true)];
    assert turns[..0] == [];
    assert PumpRun(p, turns) == PumpStep(PumpRun(p, []), turns[0]);
    assert "cmd"[0] == 'c';
    assert Flatten([[1 as byte]]) == [1] + Flatten([]);
  }
}
