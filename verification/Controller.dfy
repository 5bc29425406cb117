/** `exec run` and `exec deploy` on the controller's side (cmd/rexec/controllercmds.go), composed with the
    agent's handler over an ordered channel that ends cleanly exactly when the handler returned no error and
    nothing broke on the way. */
module Controller {
  import opened Prelude
  import opened RandomIds
  import opened Policy
  import G = Grants
  import opened Wire
  import opened Execute
  import opened AgentServer

  /** How an answer reaches the controller: whole, or cut off after some messages. */
  datatype Delivery = Whole | Cut(after: nat)

  datatype Incoming = Incoming(msgs: seq<ExecChunk>, clean: bool)

  function Deliver(a: Answer, d: Delivery): Incoming
  {
    match d
    case Whole => Incoming(a.sent, a.ok)
    case Cut(n) => Incoming(if n < |a.sent| then a.sent[..n] else a.sent, false)
  }

  /** What the command itself says about an approval; the wording is not part of this model. */
  datatype Notice = ApprovalNeeded(id: string) | AutoApproving

  /** What the controller's own standard output and standard error got. */
  class Terminal {
    var stdout: seq<byte>
    var stderr: seq<byte>
    var notices: seq<Notice>

    constructor ()
      ensures stdout == [] && stderr == [] && notices == []
    {
      stdout, stderr, notices := [], [], [];
    }
  }

  /** Local writes may fail, and their errors are ignored: for the i-th message of a stream, None when all
      its bytes get through, Some(n) when only the first n do. */
  type Tty = nat -> Option<nat>

  function Kept(data: seq<byte>, limit: Option<nat>): (got: seq<byte>)
    ensures got <= data && |got| == if limit.Some? && limit.value < |data| then limit.value else |data|
  {
    if limit.Some? && limit.value < |data| then data[..limit.value] else data
  }

  /** What gets through to the terminal of one source's bytes. */
  function Shown(src: Source, msgs: seq<ExecChunk>, tty: Tty): seq<byte>
  {
    if msgs == [] then []
    else Shown(src, msgs[..|msgs| - 1], tty) + Kept(Payload(src, msgs[|msgs| - 1]), tty(|msgs| - 1))
  }

  /** Every local write takes all the bytes it is given. */
  ghost predicate AllThrough(msgs: seq<ExecChunk>, tty: Tty)
  {
    forall i | 0 <= i < |msgs| && IsOutput(msgs[i]) :: tty(i).None? || |msgs[i].data| <= tty(i).value
  }

  /** The terminal shows everything received exactly when every local write took all its bytes. */
  lemma {:induction false} ShowsAllIffAllThrough(msgs: seq<ExecChunk>, tty: Tty)
    ensures |Shown(Out, msgs, tty)| <= |Bytes(Out, msgs)| && |Shown(Err, msgs, tty)| <= |Bytes(Err, msgs)|
    ensures Shown(Out, msgs, tty) == Bytes(Out, msgs) && Shown(Err, msgs, tty) == Bytes(Err, msgs)
       <==> AllThrough(msgs, tty)
  {
    if msgs != [] {
      var n := |msgs| - 1;
      ShowsAllIffAllThrough(msgs[..n], tty);
      assert AllThrough(msgs, tty) <==>
             AllThrough(msgs[..n], tty)
             && (IsOutput(msgs[n]) ==> tty(n).None? || |msgs[n].data| <= tty(n).value) by {
        assert forall i | 0 <= i < n :: msgs[..n][i] == msgs[i];
      }
      LastWriteMatters(Out, msgs, tty);
      LastWriteMatters(Err, msgs, tty);
    }
  }

  lemma LastWriteMatters(src: Source, msgs: seq<ExecChunk>, tty: Tty)
    requires msgs != [] && |Shown(src, msgs[..|msgs| - 1], tty)| <= |Bytes(src, msgs[..|msgs| - 1])|
    ensures var n := |msgs| - 1;
            var data := Payload(src, msgs[n]);
            && |Shown(src, msgs, tty)| <= |Bytes(src, msgs)|
            && (Shown(src, msgs, tty) == Bytes(src, msgs) <==>
                  Shown(src, msgs[..n], tty) == Bytes(src, msgs[..n]) && Kept(data, tty(n)) == data)
  {
    var n := |msgs| - 1;
    var a, b := Shown(src, msgs[..n], tty), Bytes(src, msgs[..n]);
    var k, d := Kept(Payload(src, msgs[n]), tty(n)), Payload(src, msgs[n]);
    if a + k == b + d {
      assert |a| == |b| && a == (a + k)[..|a|] == (b + d)[..|b|] == b;
      assert k == (a + k)[|a|..] == (b + d)[|b|..] == d;
    }
  }

  /** What consumeStream makes of a stream: its results and the output bytes it received. */
  datatype Seen = Seen(exit: int, approval: Option<ApprovalRequest>, err: bool, stdout: seq<byte>, stderr: seq<byte>)

  /** The number of messages before the first approval request. */
  function BeforeApproval(msgs: seq<ExecChunk>): (k: nat)
    ensures k <= |msgs|
    ensures forall i | 0 <= i < k :: !msgs[i].NeedsApproval?
    ensures k < |msgs| ==> msgs[k].NeedsApproval?
  {
    if msgs == [] || msgs[0].NeedsApproval? then 0 else 1 + BeforeApproval(msgs[1..])
  }

  /** The messages consumeStream reads before it returns. */
  function Read(input: Incoming): seq<ExecChunk>
  {
    input.msgs[..BeforeApproval(input.msgs)]
  }

  function View(input: Incoming): Seen
  {
    var k, read := BeforeApproval(input.msgs), Read(input);
    if k < |input.msgs| then
      Seen(LastExit(read), Some(input.msgs[k].request), false, Bytes(Out, read), Bytes(Err, read))
    else
      Seen(LastExit(read), None, !input.clean, Bytes(Out, read), Bytes(Err, read))
  }

  /** The result of a stream, whatever an agent put into it. A question, if there is one, is the first and ends
      the reading, and then it does not matter how the stream ends; without one, an unclean end is an error.
      The exit code is the last one read, or 0. */
  lemma ViewMeans(input: Incoming)
    ensures var v, read := View(input), Read(input);
            && read <= input.msgs && (forall i | 0 <= i < |read| :: !read[i].NeedsApproval?)
            && (v.approval.Some? <==> exists i :: 0 <= i < |input.msgs| && input.msgs[i].NeedsApproval?)
            && (v.approval.Some? ==> |read| < |input.msgs| && input.msgs[|read|] == NeedsApproval(v.approval.value))
            && (v.approval.None? ==> read == input.msgs)
            && (v.err <==> v.approval.None? && !input.clean)
            && v.stdout == Bytes(Out, read) && v.stderr == Bytes(Err, read)
            && ((forall i | 0 <= i < |read| :: !read[i].ExitCode?) ==> v.exit == 0)
            && (forall i | 0 <= i < |read| && read[i].ExitCode? && (forall j | i < j < |read| :: !read[j].ExitCode?) ::
                  v.exit == read[i].code)
  {
    LastExitIsLast(Read(input));
  }

  lemma {:induction false} LastExitIsLast(msgs: seq<ExecChunk>)
    ensures (forall i | 0 <= i < |msgs| :: !msgs[i].ExitCode?) ==> LastExit(msgs) == 0
    ensures forall i | 0 <= i < |msgs| && msgs[i].ExitCode? && (forall j | i < j < |msgs| :: !msgs[j].ExitCode?) ::
              LastExit(msgs) == msgs[i].code
  {
    if msgs != [] {
      LastExitIsLast(msgs[..|msgs| - 1]);
      assert forall i | 0 <= i < |msgs| - 1 :: msgs[..|msgs| - 1][i] == msgs[i];
    }
  }

  lemma ReadStep(msgs: seq<ExecChunk>, i: nat, tty: Tty)
    requires i < |msgs|
    ensures Shown(Out, msgs[..i + 1], tty) == Shown(Out, msgs[..i], tty) + Kept(Payload(Out, msgs[i]), tty(i))
    ensures Shown(Err, msgs[..i + 1], tty) == Shown(Err, msgs[..i], tty) + Kept(Payload(Err, msgs[i]), tty(i))
    ensures LastExit(msgs[..i + 1]) == if msgs[i].ExitCode? then msgs[i].code else LastExit(msgs[..i])
  {
    assert msgs[..i + 1] == msgs[..i] + [msgs[i]] && msgs[..i + 1][..i] == msgs[..i];
  }

  /** Writes one message to the terminal, as far as it gets; the result is the exit code so far. */
  method Show(c: ExecChunk, exit: int, limit: Option<nat>, term: Terminal) returns (exit': int)
    modifies term
    ensures exit' == if c.ExitCode? then c.code else exit
    ensures term.stdout == old(term.stdout) + Kept(Payload(Out, c), limit)
    ensures term.stderr == old(term.stderr) + Kept(Payload(Err, c), limit)
    ensures term.notices == old(term.notices)
  {
    exit' := exit;
    match c {
      case Stdout(data) => term.stdout := term.stdout + Kept(data, limit);
      case Stderr(data) => term.stderr := term.stderr + Kept(data, limit);
      case ExitCode(code) => exit' := code;
      case NeedsApproval(_) =>
    }
  }

  /** What it returns depends on the stream alone, what the terminal shows on the local writes as well. */
  method ConsumeStream(input: Incoming, tty: Tty, term: Terminal)
    returns (exit: int, approval: Option<ApprovalRequest>, err: bool)
    modifies term
    ensures Seen(exit, approval, err, View(input).stdout, View(input).stderr) == View(input)
    ensures term.stdout == old(term.stdout) + Shown(Out, Read(input), tty)
    ensures term.stderr == old(term.stderr) + Shown(Err, Read(input), tty)
    ensures term.notices == old(term.notices)
  {
    var msgs := input.msgs;
    ghost var k := BeforeApproval(msgs);
    exit := 0;
    var i := 0;
    while i < |msgs|
      invariant 0 <= i <= k
      invariant exit == LastExit(msgs[..i])
      invariant term.stdout == old(term.stdout) + Shown(Out, msgs[..i], tty)
      invariant term.stderr == old(term.stderr) + Shown(Err, msgs[..i], tty)
      invariant term.notices == old(term.notices)
    {
      if msgs[i].NeedsApproval? {
        assert i == k;
        return exit, Some(msgs[i].request), false;
      }
      ReadStep(msgs, i, tty);
      AppendAssoc(old(term.stdout), Shown(Out, msgs[..i], tty), Kept(Payload(Out, msgs[i]), tty(i)));
      AppendAssoc(old(term.stderr), Shown(Err, msgs[..i], tty), Kept(Payload(Err, msgs[i]), tty(i)));
      exit := Show(msgs[i], exit, tty(i), term);
      i := i + 1;
    }
    return exit, None, !input.clean;
  }

  // ----- One stream, end to end -----

  /** An execution never asks for approval, wherever its stream is cut. */
  lemma ExecutionAsksNothing(command: string, w: Work, d: Delivery)
    ensures var msgs := Deliver(RunStreamAnswer(command, w), d).msgs;
            BeforeApproval(msgs) == |msgs| && msgs[..|msgs|] == msgs
  {
    RunGrammar(command, w);
    var msgs := Deliver(RunStreamAnswer(command, w), d).msgs;
    forall i | 0 <= i < |msgs|
      ensures !msgs[i].NeedsApproval?
    {
      assert msgs[i] == RunStreamAnswer(command, w).sent[i];
      assert i < |SentOutput(w)| ==> RunStreamAnswer(command, w).sent[i] == SentOutput(w)[i];
    }
  }

  /** The controller, reading what an execution sent: exit status, standard output and standard error come
      back as the process produced them, for every interleaving and every split into writes. */
  lemma StreamRoundTrip(command: string, w: Work)
    requires Finished(w) && Launches(command, w) && w.process.ending.Exited?
    requires !OutputCut(w) && !w.lastFault
    ensures View(Deliver(RunStreamAnswer(command, w), Whole))
            == Seen(ToInt32(w.process.ending.code), None, false, Flatten(w.process.out), Flatten(w.process.err))
  {
    CleanRunSendsEverything(command, w);
    ExecutionAsksNothing(command, w, Whole);
  }

  /** Everything went well: the process ran and succeeded, every send worked, the stream arrived whole. */
  predicate Perfect(command: string, w: Work, d: Delivery)
  {
    Launches(command, w) && w.process.ending == Exited(0) && !OutputCut(w) && !w.lastFault && d.Whole?
  }

  /** The command's exit status reaches the controller: it ran to an exit, no copy failed that the agent
      reports, and the last send and the delivery worked. */
  predicate ExitArrives(command: string, w: Work, d: Delivery)
  {
    && Launches(command, w) && w.process.ending.Exited? && (OutputCut(w) ==> w.process.ending.code != 0)
    && !w.lastFault && d.Whole?
  }

  /** What the controller sees of an execution: its exit code if that arrives, else an error. */
  lemma RunSeenIff(command: string, w: Work, d: Delivery)
    requires Finished(w)
    ensures var v := View(Deliver(RunStreamAnswer(command, w), d));
            && v.approval.None?
            && (v.err <==> !ExitArrives(command, w, d))
            && (!v.err ==> v.exit == ToInt32(w.process.ending.code))
  {
    ExecutionAsksNothing(command, w, d);
    if OutputCut(w) {
      FailedCopyIsHiddenIff(command, w);
    }
    RunGrammar(command, w);
  }

  /** What the controller sees of an execution, when it sees neither an error nor a code: a perfect run. */
  lemma RunLooksGoodIffPerfect(command: string, w: Work, d: Delivery)
    requires Finished(w)
    ensures var v := View(Deliver(RunStreamAnswer(command, w), d));
            && v.approval.None?
            && (!v.err && v.exit == 0 <==> Perfect(command, w, d))
  {
    RunSeenIff(command, w, d);
    if ExitArrives(command, w, d) {
      NarrowingKeepsSuccess(w.process.ending.code);
    }
  }

  datatype Call = RunCall(req: ExecRequest) | DeployCall(req: ExecRequest)

  /** The connection to the agent: what the network brings back for the i-th call, and the calls made. */
  class Client {
    const answers: (nat, Call) -> Incoming
    var calls: seq<Call>

    constructor (answers: (nat, Call) -> Incoming)
      ensures this.answers == answers && calls == []
    {
      this.answers, calls := answers, [];
    }

    method Invoke(call: Call) returns (input: Incoming)
      modifies this
      ensures calls == old(calls) + [call] && input == answers(|old(calls)|, call)
    {
      input := answers(|calls|, call);
      calls := calls + [call];
    }
  }

  /** How a process that ended is reported: as a success exactly when its status is 0, else by that status
      modulo 2^32 in the signed range. */
  function ExitOf(p: Process): (outcome: Outcome)
    requires p.ending.Exited?
    ensures outcome == Succeeded <==> p.ending.code == 0
    ensures outcome != Succeeded ==>
              outcome.ExitedWith? && outcome.code != 0 && IsInt32(outcome.code) && (p.ending.code - outcome.code) % 0x1_0000_0000 == 0
  {
    NarrowingKeepsSuccess(p.ending.code);
    if p.ending.code == 0 then Succeeded else ExitedWith(ToInt32(p.ending.code))
  }

  /** `exec run`: one call, whose approval result is ignored. It fails exactly when the exit status does not
      arrive, and else reports that status; the local writes make no difference to that. In every case the
      terminal gets what they let through of the messages received, after what it had; and if no copy failed
      on the agent, that is the process's whole output exactly when every local write took all its bytes. */
  method ExecRun(client: Client, req: ExecRequest, w: Work, d: Delivery, tty: Tty, term: Terminal) returns (outcome: Outcome)
    requires Finished(w) && client.calls == []
    requires client.answers(0, RunCall(req)) == Deliver(RunStreamAnswer(req.command, w), d)
    modifies client, term
    ensures client.calls == [RunCall(req)]
    ensures outcome == CallFailed <==> !ExitArrives(req.command, w, d)
    ensures ExitArrives(req.command, w, d) ==> outcome == ExitOf(w.process)
    ensures outcome == Succeeded <==> Perfect(req.command, w, d)
    ensures var msgs := Deliver(RunStreamAnswer(req.command, w), d).msgs;
            && term.stdout == old(term.stdout) + Shown(Out, msgs, tty)
            && term.stderr == old(term.stderr) + Shown(Err, msgs, tty)
            && term.notices == old(term.notices)
    ensures ExitArrives(req.command, w, d) && !OutputCut(w) ==>
              (term.stdout == old(term.stdout) + Flatten(w.process.out)
               && term.stderr == old(term.stderr) + Flatten(w.process.err)
               <==> AllThrough(RunStreamAnswer(req.command, w).sent, tty))
  {
    ghost var input := Deliver(RunStreamAnswer(req.command, w), d);
    ghost var before, before' := term.stdout, term.stderr;
    var answer := client.Invoke(RunCall(req));
    var exitCode, ignored, err := ConsumeStream(answer, tty, term);
    RunSeenIff(req.command, w, d);
    ExecutionAsksNothing(req.command, w, d);
    if ExitArrives(req.command, w, d) {
      NarrowingKeepsSuccess(w.process.ending.code);
      if !OutputCut(w) {
        StreamRoundTrip(req.command, w);
        ShowsAllIffAllThrough(Read(input), tty);
        SameTail(before, Shown(Out, Read(input), tty), Flatten(w.process.out));
        SameTail(before', Shown(Err, Read(input), tty), Flatten(w.process.err));
      }
    }
    if err {
      return CallFailed;
    }
    if exitCode != 0 {
      return ExitedWith(exitCode);
    }
    return Succeeded;
  }

  lemma SameTail(a: seq<byte>, b: seq<byte>, c: seq<byte>)
    ensures a + b == a + c <==> b == c
  {
    assert b == (a + b)[|a|..] && c == (a + c)[|a|..];
  }

  // ----- The deploy command's two calls -----

  /** One attempted RPC: not handled at all (no connection, or turned away before the handler), or handled
      with the approvals the daemon held at that moment. Between two calls anything may have happened to
      those approvals: other handlers, expiry, a restart. */
  datatype Attempt =
    | NotHandled
    | Reached(grants: G.GrantMap, now: Time, entropy: Option<ApprovalEntropy>, work: Work, delivery: Delivery)

  predicate AttemptOk(a: Attempt)
  {
    a.Reached? ==> Finished(a.work)
  }

  function HandledBy(p: Policy, command: string, id: string, a: Attempt): Handled
    requires a.Reached?
  {
    HandleDeploy(p, a.grants, command, id, a.now, a.entropy, a.work)
  }

  function Received(p: Policy, command: string, id: string, a: Attempt): Incoming
  {
    if a.NotHandled? then Incoming([], false) else Deliver(HandledBy(p, command, id, a).answer, a.delivery)
  }

  datatype Outcome =
    | Succeeded
    | ExitedWith(code: int)
    | CallFailed
    | ApprovalRequired(id: string)
    | StillRequested

  /** The ids of the calls made, the outcome, and the output received. */
  datatype Report = Report(calls: seq<string>, outcome: Outcome, stdout: seq<byte>, stderr: seq<byte>)

  function FromExit(exit: int): Outcome
  {
    if exit != 0 then ExitedWith(exit) else Succeeded
  }

  /** What the command makes of its calls' streams; `u` matters only if a second call is made. */
  function Conclude(approvalId: string, autoYes: bool, v: Seen, u: Seen): Report
  {
    if v.err then Report([approvalId], CallFailed, v.stdout, v.stderr)
    else if v.approval.None? then Report([approvalId], FromExit(v.exit), v.stdout, v.stderr)
    else
      var id := v.approval.value.approvalId;
      if !autoYes then Report([approvalId], ApprovalRequired(id), v.stdout, v.stderr)
      else
        var outcome := if u.err then CallFailed else if u.approval.Some? then StillRequested else FromExit(u.exit);
        Report([approvalId, id], outcome, v.stdout + u.stdout, v.stderr + u.stderr)
  }

  function RequestedId(v: Seen): string
  {
    if v.approval.Some? then v.approval.value.approvalId else ""
  }

  /** What the command says itself, given the first call's result. */
  function Notices(autoYes: bool, v: Seen): seq<Notice>
  {
    if v.approval.None? || v.err then []
    else if autoYes then [AutoApproving]
    else [ApprovalNeeded(v.approval.value.approvalId)]
  }

  /** `send`: one Deploy call with this approval id, and the reading of its stream. */
  method Send(client: Client, req: ExecRequest, id: string, tty: Tty, term: Terminal)
    returns (exit: int, approval: Option<ApprovalRequest>, err: bool)
    modifies client, term
    ensures client.calls == old(client.calls) + [DeployCall(req.(approvalId := id))]
    ensures var input := client.answers(|old(client.calls)|, DeployCall(req.(approvalId := id)));
            && Seen(exit, approval, err, View(input).stdout, View(input).stderr) == View(input)
            && term.stdout == old(term.stdout) + Shown(Out, Read(input), tty)
            && term.stderr == old(term.stderr) + Shown(Err, Read(input), tty)
            && term.notices == old(term.notices)
  {
    var input := client.Invoke(DeployCall(ExecRequest(req.command, req.args, req.workingDir, req.env, id)));
    exit, approval, err := ConsumeStream(input, tty, term);
  }

  /** The user's request, as given and with the id asked about. */
  function Requests(req: ExecRequest, again: bool, id: string): seq<Call>
  {
    [DeployCall(req)] + if again then [DeployCall(req.(approvalId := id))] else []
  }

  /** A second call is made exactly with --yes after a question; it repeats the user's request, with the id
      asked about. */
  method ExecDeploy(client: Client, req: ExecRequest, autoYes: bool, firstTty: Tty, secondTty: Tty, term: Terminal)
    returns (outcome: Outcome)
    requires client.calls == []
    modifies client, term
    ensures var input := client.answers(0, DeployCall(req));
            var v := View(input);
            var again := autoYes && v.approval.Some?;
            var input' := client.answers(1, DeployCall(req.(approvalId := RequestedId(v))));
            var read' := if again then Read(input') else [];
            && client.calls == Requests(req, again, RequestedId(v))
            && outcome == Conclude(req.approvalId, autoYes, v, View(input')).outcome
            && term.notices == old(term.notices) + Notices(autoYes, v)
            && term.stdout == old(term.stdout) + Shown(Out, Read(input), firstTty) + Shown(Out, read', secondTty)
            && term.stderr == old(term.stderr) + Shown(Err, Read(input), firstTty) + Shown(Err, read', secondTty)
  {
    var exitCode, approval, err := Send(client, req, req.approvalId, firstTty, term);
    if err {
      return CallFailed;
    }
    if approval.Some? {
      if !autoYes {
        term.notices := term.notices + [ApprovalNeeded(approval.value.approvalId)];
        return ApprovalRequired(approval.value.approvalId);
      }
      term.notices := term.notices + [AutoApproving];
      exitCode, approval, err := Send(client, req, approval.value.approvalId, secondTty, term);
      if err {
        return CallFailed;
      }
      if approval.Some? {
        return StillRequested;
      }
    }
    if exitCode != 0 {
      return ExitedWith(exitCode);
    }
    return Succeeded;
  }

  /** Without --yes there is one call, whatever comes back and whatever a second call would bring; a question
      is printed with its id and is the outcome. With --yes the question is announced and its id is sent. */
  lemma OnlyYesCallsAgain(approvalId: string, v: Seen, u: Seen)
    ensures var r := Conclude(approvalId, false, v, u);
            && r.calls == [approvalId] && r.stdout == v.stdout && r.stderr == v.stderr
            && (!v.err && v.approval.Some? ==>
                  && r.outcome == ApprovalRequired(v.approval.value.approvalId)
                  && Notices(false, v) == [ApprovalNeeded(v.approval.value.approvalId)])
    ensures !v.err && v.approval.Some? ==>
              && Conclude(approvalId, true, v, u).calls == [approvalId, v.approval.value.approvalId]
              && Notices(true, v) == [AutoApproving]
    ensures forall autoYes :: v.approval.None? ==> Notices(autoYes, v) == [] && Conclude(approvalId, autoYes, v, u).calls == [approvalId]
  {
  }

  /** The command against the agent's handler. */
  function Invoke(p: Policy, command: string, approvalId: string, autoYes: bool, first: Attempt, second: Attempt): Report
  {
    var v := View(Received(p, command, approvalId, first));
    Conclude(approvalId, autoYes, v, View(Received(p, command, RequestedId(v), second)))
  }

  predicate Launched(p: Policy, command: string, id: string, a: Attempt)
  {
    a.Reached? && HandledBy(p, command, id, a).launched
  }

  /** How many processes one invocation starts on the agent. */
  function LaunchCount(p: Policy, command: string, approvalId: string, autoYes: bool, first: Attempt, second: Attempt): nat
  {
    var calls := Invoke(p, command, approvalId, autoYes, first, second).calls;
    (if Launched(p, command, approvalId, first) then 1 else 0)
    + (if |calls| == 2 && Launched(p, command, calls[1], second) then 1 else 0)
  }

  /** An approval request seen by the controller is the handler's: nothing ran, the id is not empty, and the
      daemon holds the grant for this command. */
  lemma ApprovalSeenIsGenuine(p: Policy, command: string, id: string, a: Attempt)
    requires AttemptOk(a) && View(Received(p, command, id, a)).approval.Some?
    ensures a.Reached? && id == "" && Evaluate(p, command) == DecisionAsk && a.entropy.Some?
    ensures var v := View(Received(p, command, id, a));
            && !HandledBy(p, command, id, a).launched
            && !v.err && v.stdout == [] && v.stderr == []
            && v.approval.value.approvalId == RandID(a.entropy.value)
            && HandledBy(p, command, id, a).grants == a.grants[RandID(a.entropy.value) := G.Grant(command, a.now + APPROVAL_TTL)]
  {
    StreamGrammar(p, a.grants, command, id, a.now, a.entropy, a.work);
    var h := HandledBy(p, command, id, a);
    if h.verdict.Proceed? {
      RunLooksGoodIffPerfect(command, a.work, a.delivery);
      assert false;
    }
  }

  /** The call is answered with a question, and the question arrives; how the stream ends then is not looked at. */
  predicate Questioned(p: Policy, command: string, id: string, a: Attempt)
  {
    a.Reached? && Asks(p, command, id, a.entropy) && !a.work.lastFault && a.delivery != Cut(0)
  }

  /** The call starts a process. */
  predicate Starts(p: Policy, command: string, id: string, a: Attempt)
  {
    a.Reached? && Permitted(p, a.grants, command, id, a.now) && Launches(command, a.work)
  }

  /** The call brings the exit status of the process it started. */
  predicate Exits(p: Policy, command: string, id: string, a: Attempt)
  {
    a.Reached? && Permitted(p, a.grants, command, id, a.now) && ExitArrives(command, a.work, a.delivery)
  }

  /** One call, seen from the controller, in terms of policy, approvals, clock, process and network. */
  lemma CallSeenIff(p: Policy, command: string, id: string, a: Attempt)
    requires AttemptOk(a)
    ensures var v := View(Received(p, command, id, a));
            && (v.approval.Some? <==> Questioned(p, command, id, a))
            && (v.approval.Some? ==>
                  !v.err && v.approval.value == ApprovalRequest(RandID(a.entropy.value)) && v.stdout == [] && v.stderr == [])
            && (v.approval.None? && !v.err <==> Exits(p, command, id, a))
            && (Exits(p, command, id, a) ==> v.exit == ToInt32(a.work.process.ending.code))
    ensures Launched(p, command, id, a) <==> Starts(p, command, id, a)
  {
    if a.Reached? {
      HandleDeployMeans(p, a.grants, command, id, a.now, a.entropy, a.work);
      if Permitted(p, a.grants, command, id, a.now) {
        RunSeenIff(command, a.work, a.delivery);
      }
    }
  }

  /** The whole command: which calls it makes, what starts on the agent, and every outcome, each exactly when. */
  lemma DeployOutcomeIff(p: Policy, command: string, approvalId: string, autoYes: bool, first: Attempt, second: Attempt)
    requires AttemptOk(first) && AttemptOk(second)
    ensures var r := Invoke(p, command, approvalId, autoYes, first, second);
            var asked := Questioned(p, command, approvalId, first);
            var again := asked && autoYes;
            var id := if again then RandID(first.entropy.value) else approvalId;
            var last := if again then second else first;
            && r.calls == (if again then [approvalId, id] else [approvalId])
            && LaunchCount(p, command, approvalId, autoYes, first, second) == (if Starts(p, command, id, last) then 1 else 0)
            && (r.outcome.ApprovalRequired? <==> asked && !autoYes)
            && (r.outcome.ApprovalRequired? ==> r.outcome.id == RandID(first.entropy.value))
            && (Exits(p, command, id, last) ==> r.outcome == ExitOf(last.work.process))
            && (r.outcome == CallFailed <==> !Exits(p, command, id, last) && !(asked && !autoYes))
            && !r.outcome.StillRequested?
  {
    CallSeenIff(p, command, approvalId, first);
    if Questioned(p, command, approvalId, first) {
      CallSeenIff(p, command, RandID(first.entropy.value), second);
      if second.Reached? && second.work.process.ending.Exited? {
        NarrowingKeepsSuccess(second.work.process.ending.code);
      }
    } else if first.Reached? && first.work.process.ending.Exited? {
      NarrowingKeepsSuccess(first.work.process.ending.code);
    }
  }

  lemma NothingBeforeSecondCall(approvalId: string, autoYes: bool, v: Seen, u: Seen)
    requires v.approval.Some? && !v.err ==> v.stdout == [] && v.stderr == []
    ensures var r := Conclude(approvalId, autoYes, v, u);
            if v.approval.Some? && !v.err && autoYes then r.stdout == u.stdout && r.stderr == u.stderr
            else r.stdout == v.stdout && r.stderr == v.stderr
  {
    assert [] + u.stdout == u.stdout && [] + u.stderr == u.stderr;
  }

  /** The output reported is that of the last call: a question comes without any. */
  lemma OutputIsLastCalls(p: Policy, command: string, approvalId: string, autoYes: bool, first: Attempt, second: Attempt)
    requires AttemptOk(first)
    ensures var r := Invoke(p, command, approvalId, autoYes, first, second);
            var again := Questioned(p, command, approvalId, first) && autoYes;
            var last := if again then Received(p, command, RandID(first.entropy.value), second)
                        else Received(p, command, approvalId, first);
            r.stdout == View(last).stdout && r.stderr == View(last).stderr
  {
    CallSeenIff(p, command, approvalId, first);
    var v := View(Received(p, command, approvalId, first));
    NothingBeforeSecondCall(approvalId, autoYes, v, View(Received(p, command, RequestedId(v), second)));
  }

  /** Without --yes a command the policy asks about is never started: there is one call, and if the question
      arrives its id is both printed and the outcome, else the call failed. */
  lemma WithoutYesNothingStarts(p: Policy, command: string, first: Attempt, second: Attempt)
    requires AttemptOk(first) && AttemptOk(second) && Evaluate(p, command) == DecisionAsk
    ensures var r := Invoke(p, command, "", false, first, second);
            && r.calls == [""] && LaunchCount(p, command, "", false, first, second) == 0
            && var notices := Notices(false, View(Received(p, command, "", first)));
               if Questioned(p, command, "", first) then
                 r.outcome == ApprovalRequired(RandID(first.entropy.value)) && notices == [ApprovalNeeded(RandID(first.entropy.value))]
               else
                 r.outcome == CallFailed && notices == []
  {
    DeployOutcomeIff(p, command, "", false, first, second);
    CallSeenIff(p, command, "", first);
  }

  /** At most two calls and at most one execution, whatever happened to the approvals in between. */
  lemma AtMostTwoCallsOneExecution(p: Policy, command: string, approvalId: string, autoYes: bool, first: Attempt, second: Attempt)
    requires AttemptOk(first) && AttemptOk(second)
    ensures |Invoke(p, command, approvalId, autoYes, first, second).calls| <= 2
    ensures LaunchCount(p, command, approvalId, autoYes, first, second) <= 1
  {
    if View(Received(p, command, approvalId, first)).approval.Some? {
      ApprovalSeenIsGenuine(p, command, approvalId, first);
    }
  }

  /** The branch "agent still requests approval after --yes" is dead: the second call carries a non-empty id,
      and a request with an id is never answered by another approval request. */
  lemma StillRequestedIsUnreachable(p: Policy, command: string, approvalId: string, autoYes: bool, first: Attempt, second: Attempt)
    requires AttemptOk(first) && AttemptOk(second)
    ensures !Invoke(p, command, approvalId, autoYes, first, second).outcome.StillRequested?
  {
    var v := View(Received(p, command, approvalId, first));
    if v.approval.Some? {
      ApprovalSeenIsGenuine(p, command, approvalId, first);
      var id := v.approval.value.approvalId;
      if View(Received(p, command, id, second)).approval.Some? {
        ApprovalSeenIsGenuine(p, command, id, second);
      }
    }
  }

  /** Truthful success: when the command reports success, one process ran, it exited with status 0, and the
      controller received every byte it wrote, standard output and standard error each in order. What of that
      the terminal shows is ShowsAllIffAllThrough. */
  lemma SuccessIsTruthful(p: Policy, command: string, approvalId: string, autoYes: bool, first: Attempt, second: Attempt)
    returns (a: Attempt)
    requires AttemptOk(first) && AttemptOk(second)
    requires Invoke(p, command, approvalId, autoYes, first, second).outcome == Succeeded
    ensures a == first || a == second
    ensures var r := Invoke(p, command, approvalId, autoYes, first, second);
            && LaunchCount(p, command, approvalId, autoYes, first, second) == 1
            && a.Reached? && a.work.process.ending == Exited(0)
            && r.stdout == Flatten(a.work.process.out) && r.stderr == Flatten(a.work.process.err)
  {
    DeployOutcomeIff(p, command, approvalId, autoYes, first, second);
    OutputIsLastCalls(p, command, approvalId, autoYes, first, second);
    if Questioned(p, command, approvalId, first) && autoYes {
      a := second;
      SuccessfulCall(p, command, RandID(first.entropy.value), second);
    } else {
      a := first;
      SuccessfulCall(p, command, approvalId, first);
    }
  }

  lemma SuccessfulCall(p: Policy, command: string, id: string, a: Attempt)
    requires AttemptOk(a) && Exits(p, command, id, a) && a.work.process.ending.code == 0
    ensures Starts(p, command, id, a) && Perfect(command, a.work, a.delivery)
    ensures View(Received(p, command, id, a))
            == Seen(0, None, false, Flatten(a.work.process.out), Flatten(a.work.process.err))
  {
    HandleDeployMeans(p, a.grants, command, id, a.now, a.entropy, a.work);
    StreamRoundTrip(command, a.work);
  }

  lemma QuestionArrives(p: Policy, command: string, a: Attempt)
    requires Evaluate(p, command) == DecisionAsk && a.Reached?
    requires a.entropy.Some? && !a.work.lastFault && a.delivery.Whole?
    ensures View(Received(p, command, "", a)) == Seen(0, Some(ApprovalRequest(RandID(a.entropy.value))), false, [], [])
    ensures !Launched(p, command, "", a)
  {
    var msgs := [NeedsApproval(ApprovalRequest(RandID(a.entropy.value)))];
    assert Received(p, command, "", a) == Incoming(msgs, true);
    assert BeforeApproval(msgs) == 0 && msgs[..0] == [];
  }

  lemma ApprovalIsHonoured(p: Policy, command: string, id: string, expiry: Time, a: Attempt)
    requires id != "" && command != "" && a.Reached? && AttemptOk(a)
    requires G.Lookup(a.grants, id) == Some(G.Grant(command, expiry)) && a.now <= expiry
    requires a.work.process.ending.Exited? && !OutputCut(a.work) && !a.work.lastFault && a.delivery.Whole?
    ensures View(Received(p, command, id, a))
            == Seen(ToInt32(a.work.process.ending.code), None, false, Flatten(a.work.process.out), Flatten(a.work.process.err))
    ensures Launched(p, command, id, a)
  {
    assert Received(p, command, id, a) == Deliver(RunStreamAnswer(command, a.work), Whole);
    StreamRoundTrip(command, a.work);
  }

  /** Both calls arrive whole and nothing fails on the way, apart from what the daemon does with the approval. */
  predicate GoesWell(first: Attempt, second: Attempt)
  {
    && first.Reached? && second.Reached? && AttemptOk(first) && AttemptOk(second)
    && first.entropy.Some? && !first.work.lastFault && first.delivery.Whole?
    && second.work.process.ending.Exited? && !OutputCut(second.work) && !second.work.lastFault && second.delivery.Whole?
  }

  /** With --yes under an "ask" policy, when nothing fails on the way, exactly one process is started and its
      exit is reported if the daemon holds the approval in time at the second call; else none is started and
      the call fails. */
  lemma YesFollowsTheApproval(p: Policy, command: string, first: Attempt, second: Attempt)
    requires Evaluate(p, command) == DecisionAsk && command != "" && GoesWell(first, second)
    ensures var id := RandID(first.entropy.value);
            var r := Invoke(p, command, "", true, first, second);
            if G.Verdict(G.Lookup(second.grants, id), command, second.now).None? then
              && LaunchCount(p, command, "", true, first, second) == 1
              && r == Report(["", id], ExitOf(second.work.process),
                             Flatten(second.work.process.out), Flatten(second.work.process.err))
            else
              && LaunchCount(p, command, "", true, first, second) == 0
              && r == Report(["", id], CallFailed, [], [])
  {
    var id := RandID(first.entropy.value);
    QuestionArrives(p, command, first);
    if G.Verdict(G.Lookup(second.grants, id), command, second.now).None? {
      ApprovalIsHonoured(p, command, id, second.grants[id].expiry, second);
      NarrowingKeepsSuccess(second.work.process.ending.code);
    } else {
      assert Received(p, command, id, second) == Incoming([], false);
    }
  }

  /** Without --yes the same takes two invocations: the first starts nothing and gives the id, and the second,
      which passes that id on, starts one process and reports its exit if the daemon holds the approval in time
      then; else it starts none and fails. `other` stands for a second call that neither makes. */
  lemma RerunFollowsTheApproval(p: Policy, command: string, autoYes: bool, first: Attempt, second: Attempt, other: Attempt)
    requires Evaluate(p, command) == DecisionAsk && command != "" && GoesWell(first, second)
    ensures Invoke(p, command, "", false, first, other) == Report([""], ApprovalRequired(RandID(first.entropy.value)), [], [])
    ensures LaunchCount(p, command, "", false, first, other) == 0
    ensures var id := RandID(first.entropy.value);
            var r := Invoke(p, command, id, autoYes, second, other);
            if G.Verdict(G.Lookup(second.grants, id), command, second.now).None? then
              && LaunchCount(p, command, id, autoYes, second, other) == 1
              && r == Report([id], ExitOf(second.work.process), Flatten(second.work.process.out), Flatten(second.work.process.err))
            else
              && LaunchCount(p, command, id, autoYes, second, other) == 0
              && r == Report([id], CallFailed, [], [])
  {
    var id := RandID(first.entropy.value);
    QuestionArrives(p, command, first);
    if G.Verdict(G.Lookup(second.grants, id), command, second.now).None? {
      ApprovalIsHonoured(p, command, id, second.grants[id].expiry, second);
      NarrowingKeepsSuccess(second.work.process.ending.code);
    } else {
      assert Received(p, command, id, second) == Incoming([], false);
    }
  }
}
