/** `exec deploy --yes` against a daemon that serves other handlers meanwhile: the controller's two calls placed
    in a run of the gate. */
module Session {
  import opened Prelude
  import opened RandomIds
  import opened Policy
  import opened Wire
  import opened Execute
  import opened AgentServer
  import opened Controller
  import G = Grants
  import Gate

  /** The first call is handler h of a daemon that ran `before`; the gate rules on it, then does `between`,
      and then rules on the second call. The other handlers' events in `between` are arbitrary. */
  ghost predicate Placed(p: Policy, command: string, before: seq<Gate.Event>, h: Gate.HandlerId, between: seq<Gate.Event>,
                         first: Attempt, second: Attempt)
  {
    && GoesWell(first, second)
    && (var s := Gate.Run(p, before);
        && h in s.handlers && s.handlers[h].Admitted?
        && s.handlers[h].command == command && s.handlers[h].approvalId == ""
        && Gate.FreshEntropy(s, first.entropy)
        && first.grants == s.grants)
    && second.grants == Gate.RunFrom(p, Asked(p, before, h, first), between).grants
  }

  /** The gate after it has ruled on the first call. */
  function Asked(p: Policy, before: seq<Gate.Event>, h: Gate.HandlerId, first: Attempt): Gate.State
    requires first.Reached?
  {
    Gate.Step(p, Gate.Run(p, before), Gate.Rule(h, first.now, first.entropy))
  }

  lemma AskingMakesApprovalLive(p: Policy, command: string, before: seq<Gate.Event>, h: Gate.HandlerId, between: seq<Gate.Event>,
                                first: Attempt, second: Attempt)
    requires Evaluate(p, command) == DecisionAsk && Placed(p, command, before, h, between, first, second)
    ensures var s, id := Asked(p, before, h, first), RandID(first.entropy.value);
            id in s.approvals && id in s.grants && s.grants[id] == G.Grant(command, first.now + APPROVAL_TTL)
  {
  }

  /** With --yes under an "ask" policy, when nothing fails on the way: exactly one process is started, and its
      result reported, if between the two rulings the daemon did not restart and no handler that carried this
      id was ruled on, and the second reading is at most five minutes after the first; in every other case no
      process is started and the command reports a failed call. Whatever other handlers do, with whatever
      other ids and commands, makes no difference. */
  lemma YesExecutesExactlyOnceIff(p: Policy, command: string, before: seq<Gate.Event>, h: Gate.HandlerId, between: seq<Gate.Event>,
                                  first: Attempt, second: Attempt)
    requires Evaluate(p, command) == DecisionAsk && command != ""
    requires Placed(p, command, before, h, between, first, second)
    ensures var id := RandID(first.entropy.value);
            var r := Invoke(p, command, "", true, first, second);
            if Gate.NothingEnds(p, Asked(p, before, h, first), between, id) && second.now - first.now <= 300 * 1_000_000_000 then
              && LaunchCount(p, command, "", true, first, second) == 1
              && r == Report(["", id], ExitOf(second.work.process),
                             Flatten(second.work.process.out), Flatten(second.work.process.err))
            else
              && LaunchCount(p, command, "", true, first, second) == 0
              && r == Report(["", id], CallFailed, [], [])
  {
    var id := RandID(first.entropy.value);
    AskingMakesApprovalLive(p, command, before, h, between, first, second);
    Gate.SurvivesIffNothingEnds(p, Asked(p, before, h, first), between, id);
    YesFollowsTheApproval(p, command, first, second);
  }

  /** The same by hand: `exec deploy` prints the id and starts nothing; `exec deploy --approval id` later
      succeeds in exactly the same cases as --yes would have, and otherwise starts nothing. */
  lemma PrintedApprovalWorksIff(p: Policy, command: string, before: seq<Gate.Event>, h: Gate.HandlerId, between: seq<Gate.Event>,
                                first: Attempt, second: Attempt, autoYes: bool, other: Attempt)
    requires Evaluate(p, command) == DecisionAsk && command != ""
    requires Placed(p, command, before, h, between, first, second)
    ensures Invoke(p, command, "", false, first, other) == Report([""], ApprovalRequired(RandID(first.entropy.value)), [], [])
    ensures LaunchCount(p, command, "", false, first, other) == 0
    ensures var id := RandID(first.entropy.value);
            var r := Invoke(p, command, id, autoYes, second, other);
            if Gate.NothingEnds(p, Asked(p, before, h, first), between, id) && second.now - first.now <= 300 * 1_000_000_000 then
              && LaunchCount(p, command, id, autoYes, second, other) == 1
              && r == Report([id], ExitOf(second.work.process), Flatten(second.work.process.out), Flatten(second.work.process.err))
            else
              && LaunchCount(p, command, id, autoYes, second, other) == 0
              && r == Report([id], CallFailed, [], [])
  {
    var id := RandID(first.entropy.value);
    AskingMakesApprovalLive(p, command, before, h, between, first, second);
    Gate.SurvivesIffNothingEnds(p, Asked(p, before, h, first), between, id);
    RerunFollowsTheApproval(p, command, autoYes, first, second, other);
  }

  lemma FirstRequest(p: Policy, command: string)
    ensures var s := Gate.Run(p, [Gate.Arrive(0, command, "", 0)]);
            s == Gate.INIT.(handlers := map[0 := Gate.Admitted(command, "", 0)], tick := 1)
  {
    Gate.RunAppend(p, [], Gate.Arrive(0, command, "", 0));
    assert [] + [Gate.Arrive(0, command, "", 0)] == [Gate.Arrive(0, command, "", 0)];
  }

  /** Such sessions exist: a fresh daemon, one request, nothing in between, and --yes succeeds. */
  lemma YesCanSucceed(p: Policy, command: string, entropy: ApprovalEntropy, now: Time) returns (first: Attempt, second: Attempt)
    requires Evaluate(p, command) == DecisionAsk && command != ""
    ensures Placed(p, command, [Gate.Arrive(0, command, "", 0)], 0, [], first, second)
    ensures Invoke(p, command, "", true, first, second) == Report(["", RandID(entropy)], Succeeded, [], [])
  {
    var w := Work(Process([], [], Exited(0)), [], false);
    var before := [Gate.Arrive(0, command, "", 0)];
    first := Reached(map[], now, Some(entropy), w, Whole);
    second := Reached(Asked(p, before, 0, first).grants, now, None, w, Whole);
    assert Placed(p, command, before, 0, [], first, second) by {
      FirstRequest(p, command);
    }
    YesExecutesExactlyOnceIff(p, command, before, 0, [], first, second);
  }
}
