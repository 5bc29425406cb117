/** What every run of the token-file machine guarantees. */
module TokenRuns {
  import opened Prelude
  import opened AtomicTokens
  import opened TokenMachine

  function Contents(f: File): Tokens
  {
    if f.Full? then f.tokens else map[]
  }

  // ----- Refinement -----

  /** At every instant of every run the file, read without error, holds what the atomic map would hold after
      the commits made so far; it is missing or whole, never cut short, whatever torn temporary file is
      lying about; and every commit's answer is the atomic map's answer. */
  lemma EveryRunRefinesAtomicMap(es: seq<Event>)
    ensures Contents(Run(es).main) == Replay(Run(es).log)
    ensures Run(es).main == if Run(es).log == [] then Absent else Full(Replay(Run(es).log))
    ensures Consistent(Run(es).log)
  {
    RunKeepsInv(es);
  }

  /** A call takes effect in the one step that renames its temporary file, and then as a whole: the file
      becomes what the atomic operation makes of the map it held (or, after a read that failed without
      data, of the empty map). No other step, crashes included, changes the file. */
  lemma EffectIsAtomicAtRename(es: seq<Event>, e: Event)
    ensures var s, s' := Run(es), Run(es + [e]);
            || (s'.main == s.main && s'.log == s.log)
            || (&& e.RenameTmp? && PhaseOf(s, e.who).Written?
                && var t := PhaseOf(s, e.who).txn;
                && var view := View(t.lossy, Contents(s.main));
                && s'.main == Full(ApplyOp(t.op, t.now, view).0)
                && s'.log == s.log + [Commit(e.who, t.op, t.now, t.lossy, ApplyOp(t.op, t.now, view).1)])
  {
    var s := Run(es);
    RunAppend(es, e);
    RunKeepsInv(es);
    assert PhaseOk(s, e.who, PhaseOf(s, e.who));
  }

  /** Between these points of the log, instance p committed `at` and nothing else. */
  ghost predicate CommittedOnly(log: seq<Commit>, p: Instance, start: nat, end: nat, at: Option<nat>)
    requires end <= |log|
  {
    forall i: nat | start <= i < end && log[i].who == p :: at == Some(i)
  }

  /** A call under way has committed nothing before its rename, and afterwards only what it will answer for. */
  ghost predicate PhaseCommits(s: State, p: Instance)
  {
    match PhaseOf(s, p)
    case Idle => true
    case Waiting(_, start) => CommittedOnly(s.log, p, start, |s.log|, None)
    case Holding(_, start) => CommittedOnly(s.log, p, start, |s.log|, None)
    case Loaded(_, start, _, _) => CommittedOnly(s.log, p, start, |s.log|, None)
    case Applied(t) => CommittedOnly(s.log, p, t.start, |s.log|, None)
    case Writing(t) => CommittedOnly(s.log, p, t.start, |s.log|, None)
    case Written(t) => CommittedOnly(s.log, p, t.start, |s.log|, None)
    case Leaving(_, start, _, at) => CommittedOnly(s.log, p, start, |s.log|, at)
  }

  ghost predicate ResponseCommits(log: seq<Commit>, r: Response)
  {
    r.end <= |log| && CommittedOnly(log, r.who, r.start, r.end, r.at)
  }

  ghost predicate CommitsOk(s: State)
  {
    && (forall p: Instance :: PhaseCommits(s, p))
    && (forall k | 0 <= k < |s.responses| :: ResponseCommits(s.log, s.responses[k]))
  }

  lemma OnlyItsOwnCommit(s: State, e: Event)
    ensures var log' := Step(s, e).log;
            log' == s.log || (|log'| == |s.log| + 1 && s.log <= log' && log'[|s.log|].who == e.who)
  {
  }

  lemma StepKeepsOwnCommits(s: State, e: Event)
    requires PhaseCommits(s, e.who)
    ensures PhaseCommits(Step(s, e), e.who)
  {
  }

  lemma StepKeepsPhaseCommits(s: State, e: Event, p: Instance)
    requires PhaseCommits(s, p)
    ensures PhaseCommits(Step(s, e), p)
  {
    if e.who == p {
      StepKeepsOwnCommits(s, e);
    } else {
      OtherLeavesPhase(s, e, p);
      OnlyItsOwnCommit(s, e);
    }
  }

  lemma StepKeepsResponseCommits(s: State, e: Event, k: nat)
    requires CommitsOk(s) && k < |Step(s, e).responses|
    ensures ResponseCommits(Step(s, e).log, Step(s, e).responses[k])
  {
    if k < |s.responses| {
      assert ResponseCommits(s.log, s.responses[k]);
    } else {
      assert PhaseCommits(s, e.who);
    }
  }

  lemma {:induction false} RunKeepsCommits(es: seq<Event>)
    ensures CommitsOk(Run(es))
  {
    if es != [] {
      var s, e := Run(es[..|es| - 1]), es[|es| - 1];
      RunKeepsCommits(es[..|es| - 1]);
      forall p: Instance
        ensures PhaseCommits(Run(es), p)
      {
        StepKeepsPhaseCommits(s, e, p);
      }
      forall k | 0 <= k < |Run(es).responses|
        ensures ResponseCommits(Run(es).log, Run(es).responses[k])
      {
        StepKeepsResponseCommits(s, e, k);
      }
    }
  }

  /** Each finished call either answered with the outcome of the one commit its instance made between the
      call's beginning and its end, or reported a failure, and then its instance committed nothing in that
      time; and no commit answers two calls. */
  lemma CallsAreLinearizable(es: seq<Event>)
    ensures var s := Run(es);
            && (forall k | 0 <= k < |s.responses| ::
                  var r := s.responses[k];
                  && Answers(s.log, r.who, r.op, r.start, r.reply, r.at, r.end)
                  && (r.reply.Failed? <==> r.at.None?)
                  && forall i: nat | r.start <= i < r.end && s.log[i].who == r.who :: r.at == Some(i))
            && (forall j, k | 0 <= j < k < |s.responses| && s.responses[j].at.Some? ::
                  s.responses[j].at != s.responses[k].at)
  {
    RunKeepsInv(es);
    RunKeepsCommits(es);
    var s := Run(es);
    forall k | 0 <= k < |s.responses|
      ensures var r := s.responses[k];
              && Answers(s.log, r.who, r.op, r.start, r.reply, r.at, r.end)
              && (r.reply.Failed? <==> r.at.None?)
              && forall i: nat | r.start <= i < r.end && s.log[i].who == r.who :: r.at == Some(i)
    {
      var r := s.responses[k];
      assert Answers(s.log, r.who, r.op, r.start, r.reply, r.at, r.end);
      assert ResponseCommits(s.log, r);
    }
  }

  /** The decoding error cannot happen to a store that started without a file. */
  lemma DecodeErrorUnreachable(es: seq<Event>, p: Instance)
    ensures ReadFile(Run(es).main, NoFault).Success?
    ensures PhaseOf(Run(es), p).Leaving? && PhaseOf(Run(es), p).reply.Failed? ==> PhaseOf(Run(es), p).reply.cause != Decode
    ensures forall k | 0 <= k < |Run(es).responses| && Run(es).responses[k].reply.Failed? ::
              Run(es).responses[k].reply.cause != Decode
  {
    RunKeepsInv(es);
    assert PhaseOk(Run(es), p, PhaseOf(Run(es), p));
  }

  /** The lock does its work: two instances are never both between reading the file and unlocking. */
  lemma OneInstanceAtATime(es: seq<Event>, p: Instance, q: Instance)
    requires InCritical(PhaseOf(Run(es), p)) && InCritical(PhaseOf(Run(es), q))
    ensures p == q
  {
    RunKeepsInv(es);
    assert PhaseOk(Run(es), p, PhaseOf(Run(es), p)) && PhaseOk(Run(es), q, PhaseOf(Run(es), q));
  }

  // ----- Single use -----

  /** Call k consumed a token and handed its role to the caller. */
  ghost predicate Paid(s: State, k: nat, v: string, role: string)
  {
    k < |s.responses| && s.responses[k].op == ConsumeOp(v) && s.responses[k].reply == Replied(Granted(role))
  }

  /** At most once: over all instances, crashes and clock readings, one call at most is ever given the role
      of a token. */
  lemma AtMostOneRolePerToken(es: seq<Event>, j: nat, k: nat, v: string, role: string, role': string)
    requires Paid(Run(es), j, v, role) && Paid(Run(es), k, v, role')
    ensures j == k
  {
    var s := Run(es);
    RunKeepsInv(es);
    var rj, rk := s.responses[j], s.responses[k];
    assert Answers(s.log, rj.who, rj.op, rj.start, rj.reply, rj.at, rj.end);
    assert Answers(s.log, rk.who, rk.op, rk.start, rk.reply, rk.at, rk.end);
    if rj.at.value < rk.at.value {
      SecondConsumeFindsNothing(s.log, rj.at.value, rk.at.value);
    } else if rk.at.value < rj.at.value {
      SecondConsumeFindsNothing(s.log, rk.at.value, rj.at.value);
    }
  }

  /** What the answer to a Consume call means, over every run: the call was answered "expired" exactly when, at
      the commit it stands for, the token was issued, nothing had removed it and its time was over; "unknown"
      exactly when it was not there, or the read brought nothing back. */
  lemma AnswersTellTheTruth(es: seq<Event>, k: nat, v: string)
    requires k < |Run(es).responses| && Run(es).responses[k].op == ConsumeOp(v) && Run(es).responses[k].reply.Replied?
    ensures var s := Run(es);
            var r := s.responses[k];
            && r.at.Some? && r.at.value < |s.log|
            && var c, before := s.log[r.at.value], s.log[..r.at.value];
            && (r.reply.out == UnknownToken <==> c.lossy || !exists j: nat :: Unspent(before, j, v))
            && (r.reply.out == Expired <==>
                  !c.lossy && exists j: nat :: Unspent(before, j, v) && c.now > s.log[j].now + s.log[j].op.ttl)
            && (r.reply.out.Granted? <==>
                  !c.lossy && exists j: nat :: Unspent(before, j, v) && c.now <= s.log[j].now + s.log[j].op.ttl)
  {
    var s := Run(es);
    RunKeepsInv(es);
    var r := s.responses[k];
    assert Answers(s.log, r.who, r.op, r.start, r.reply, r.at, r.end);
    RecordedAnswerIff(s.log, r.at.value);
  }

  /** The role handed out is the one the token was issued with, in time, by a commit i before the commit
      that deleted it. */
  lemma RoleComesFromIssue(es: seq<Event>, k: nat, v: string, role: string) returns (i: nat)
    requires Paid(Run(es), k, v, role)
    ensures var s := Run(es);
            && s.responses[k].at.Some?
            && i < s.responses[k].at.value < |s.log|
            && Issues(s.log[i], v) && s.log[i].op.role == role
            && s.log[s.responses[k].at.value].now <= s.log[i].now + s.log[i].op.ttl
  {
    var s := Run(es);
    RunKeepsInv(es);
    var r := s.responses[k];
    assert Answers(s.log, r.who, r.op, r.start, r.reply, r.at, r.end);
    i := GrantHasIssue(s.log, r.at.value);
  }

  /** Durable before success: from the moment a caller has the role, the file no longer holds the token,
      and it never will again. */
  lemma RoleImpliesDurableDeletion(es: seq<Event>, k: nat, v: string, role: string)
    requires Paid(Run(es), k, v, role)
    ensures v !in Contents(Run(es).main)
  {
    var s := Run(es);
    RunKeepsInv(es);
    var i := RoleComesFromIssue(es, k, v, role);
    var at := s.responses[k].at.value;
    assert Answers(s.log, s.responses[k].who, s.responses[k].op, s.responses[k].start, s.responses[k].reply, s.responses[k].at, s.responses[k].end);
    assert Removes(s.log[at], v);
    assert v in SpentValues(s.log);
    ValuesAreConserved(s.log);
  }

  // ----- History only grows -----

  lemma {:induction false} RunConcat(s: State, es: seq<Event>, more: seq<Event>)
    ensures RunFrom(s, es + more) == RunFrom(RunFrom(s, es), more)
  {
    if more == [] {
      assert es + more == es;
    } else {
      var n := |more| - 1;
      assert (es + more)[..|es + more| - 1] == es + more[..n];
      RunConcat(s, es, more[..n]);
    }
  }

  lemma StepGrows(s: State, e: Event)
    ensures s.log <= Step(s, e).log && s.responses <= Step(s, e).responses
    ensures s.drawn.Keys <= Step(s, e).drawn.Keys
  {
  }

  lemma {:induction false} HistoryGrows(s: State, more: seq<Event>)
    ensures s.log <= RunFrom(s, more).log && s.responses <= RunFrom(s, more).responses
    ensures s.drawn.Keys <= RunFrom(s, more).drawn.Keys
  {
    if more != [] {
      HistoryGrows(s, more[..|more| - 1]);
      StepGrows(RunFrom(s, more[..|more| - 1]), more[|more| - 1]);
    }
  }

  lemma SpentWasDrawn(es: seq<Event>, v: string)
    requires v in SpentValues(Run(es).log)
    ensures v in Run(es).drawn
  {
    RunKeepsInv(es);
  }

  /** What other instances do leaves an instance where it is. */
  lemma {:induction false} OthersLeavePhase(s: State, es: seq<Event>, p: Instance)
    requires forall i | 0 <= i < |es| :: es[i].who != p
    ensures PhaseOf(RunFrom(s, es), p) == PhaseOf(s, p)
  {
    if es != [] {
      OthersLeavePhase(s, es[..|es| - 1], p);
      OtherLeavesPhase(RunFrom(s, es[..|es| - 1]), es[|es| - 1], p);
    }
  }

  lemma OtherLeavesPhase(s: State, e: Event, p: Instance)
    requires e.who != p
    ensures PhaseOf(Step(s, e), p) == PhaseOf(s, p)
  {
  }

  /** A token that was spent is in no later file, and its value is never drawn again. */
  lemma SpentForever(es: seq<Event>, more: seq<Event>, v: string)
    requires v in SpentValues(Run(es).log)
    ensures v !in Contents(Run(es + more).main)
    ensures v in Run(es + more).drawn
  {
    var log, log' := Run(es).log, Run(es + more).log;
    assert log <= log' && v in Run(es + more).drawn by {
      RunConcat(INIT, es, more);
      HistoryGrows(Run(es), more);
      SpentWasDrawn(es, v);
    }
    EveryRunRefinesAtomicMap(es + more);
    assert log' == log + log'[|log|..];
    SpentStaysSpent(log, log'[|log|..], v);
  }

  // ----- Calls that nothing disturbs -----

  function Prepare(p: Instance, op: Op, now: Time, fault: ReadFault): seq<Event>
  {
    [Begin(p, op), Acquire(p), ReadMain(p, fault), RunFn(p, now)]
  }

  function Persist(p: Instance): seq<Event>
  {
    [OpenTmp(p), WriteRest(p), RenameTmp(p), Unlock(p, true)]
  }

  /** The steps of one call in which nothing fails except, possibly, the read without data. */
  function Undisturbed(p: Instance, op: Op, now: Time, fault: ReadFault): seq<Event>
  {
    Prepare(p, op, now, fault) + Persist(p)
  }

  lemma FourSteps(s: State, es: seq<Event>)
    requires |es| == 4
    ensures RunFrom(s, es) == Step(Step(Step(Step(s, es[0]), es[1]), es[2]), es[3])
  {
    assert es[..3][..2] == es[..2] && es[..2][..1] == es[..1] && es[..1][..0] == [];
    assert RunFrom(s, es[..1]) == Step(s, es[0]);
    assert RunFrom(s, es[..2]) == Step(RunFrom(s, es[..1]), es[1]);
    assert RunFrom(s, es[..3]) == Step(RunFrom(s, es[..2]), es[2]);
  }

  /** s' is s after instance p has entered the critical section, read the file and run its function. */
  ghost predicate Prepared(s: State, s': State, p: Instance, t: Txn)
  {
    && s' == Draw(s, p, t.op).(lock := Some(p), phases := s'.phases)
    && PhaseOf(s', p) == Applied(t)
    && forall q | q != p :: PhaseOf(s', q) == PhaseOf(s, q)
  }

  /** s' is s after transaction t of instance p took effect and was answered. */
  ghost predicate Committed(s: State, s': State, p: Instance, t: Txn)
  {
    && s'.main == Full(Next(t)) && s'.tmp == Absent && s'.lock == None && PhaseOf(s', p) == Idle
    && s'.drawn == Draw(s, p, t.op).drawn
    && s'.log == s.log + [CommitOf(p, t)]
    && s'.responses == s.responses + [Response(p, t.op, t.start, Replied(Out(t)), Some(|s.log|), |s.log| + 1)]
    && forall q | q != p :: PhaseOf(s', q) == PhaseOf(s, q)
  }

  lemma PrepareLoads(s: State, p: Instance, op: Op, now: Time, fault: ReadFault) returns (s': State)
    requires s.lock == None && CanBegin(s, p, op) && ReadFile(s.main, fault).Success?
    ensures s' == Step(Step(Step(Step(s, Begin(p, op)), Acquire(p)), ReadMain(p, fault)), RunFn(p, now))
    ensures Prepared(s, s', p, Txn(op, |s.log|, now, fault.NoData? && s.main.Full?, ReadFile(s.main, fault).value))
  {
    var s1 := Step(s, Begin(p, op));
    var s2 := Step(s1, Acquire(p));
    var s3 := Step(s2, ReadMain(p, fault));
    assert PhaseOf(s1, p) == Waiting(op, |s.log|);
    assert PhaseOf(s2, p) == Holding(op, |s.log|);
    assert PhaseOf(s3, p).Loaded?;
    s' := Step(s3, RunFn(p, now));
  }

  lemma WriteFillsTmp(s: State, p: Instance, t: Txn)
    requires PhaseOf(s, p) == Applied(t)
    ensures var s' := Step(Step(s, OpenTmp(p)), WriteRest(p));
            s' == s.(tmp := Full(Next(t)), phases := s'.phases) && PhaseOf(s', p) == Written(t)
            && forall q | q != p :: PhaseOf(s', q) == PhaseOf(s, q)
  {
    assert PhaseOf(Step(s, OpenTmp(p)), p) == Writing(t);
  }

  lemma RenameAnswers(s: State, p: Instance, t: Txn)
    requires PhaseOf(s, p) == Written(t)
    ensures var s' := Step(Step(s, RenameTmp(p)), Unlock(p, true));
            s' == State(s.tmp, Absent, Release(s, p).lock, s'.phases, s.drawn, s.log + [CommitOf(p, t)],
                        s.responses + [Response(p, t.op, t.start, Replied(Out(t)), Some(|s.log|), |s.log| + 1)])
            && PhaseOf(s', p) == Idle
            && forall q | q != p :: PhaseOf(s', q) == PhaseOf(s, q)
  {
    assert PhaseOf(Step(s, RenameTmp(p)), p).Leaving?;
  }

  lemma PersistCommits(s0: State, s: State, p: Instance, t: Txn) returns (s': State)
    requires Prepared(s0, s, p, t)
    ensures s' == Step(Step(Step(Step(s, OpenTmp(p)), WriteRest(p)), RenameTmp(p)), Unlock(p, true))
    ensures Committed(s0, s', p, t)
  {
    var mid := Step(Step(s, OpenTmp(p)), WriteRest(p));
    WriteFillsTmp(s, p, t);
    RenameAnswers(mid, p, t);
    s' := Step(Step(mid, RenameTmp(p)), Unlock(p, true));
  }

  /** From any state in which the lock is free, a call that nothing disturbs commits and answers. */
  lemma UndisturbedCallSucceeds(s: State, p: Instance, op: Op, now: Time, fault: ReadFault)
    requires s.lock == None && CanBegin(s, p, op) && ReadFile(s.main, fault).Success?
    ensures Committed(s, RunFrom(s, Undisturbed(p, op, now, fault)), p,
                      Txn(op, |s.log|, now, fault.NoData? && s.main.Full?, ReadFile(s.main, fault).value))
  {
    RunConcat(s, Prepare(p, op, now, fault), Persist(p));
    var mid := PrepareLoads(s, p, op, now, fault);
    FourSteps(s, Prepare(p, op, now, fault));
    var end := PersistCommits(s, mid, p, Txn(op, |s.log|, now, fault.NoData? && s.main.Full?, ReadFile(s.main, fault).value));
    FourSteps(mid, Persist(p));
  }

  /** A crash changes neither the file nor the history, and leaves no lock behind. */
  lemma CrashIsHarmless(s: State, p: Instance)
    ensures var s' := Step(s, Crash(p));
            && s'.main == s.main && s'.log == s.log && s'.responses == s.responses && s'.drawn == s.drawn
            && s'.lock != Some(p) && (s.lock == None ==> s'.lock == None) && (s.lock == Some(p) ==> s'.lock == None)
            && PhaseOf(s', p) == Idle && forall q | q != p :: PhaseOf(s', q) == PhaseOf(s, q)
  {
  }

  /** No crash wedges the store: wherever in its call the holder of the lock dies, and whatever it leaves in
      the temporary file, the next undisturbed call reads the file, commits and answers. */
  lemma CallSucceedsAfterAnyCrash(es: seq<Event>, holder: Instance, p: Instance, op: Op, now: Time)
    requires Run(es).lock == None || Run(es).lock == Some(holder)
    requires p != holder && CanBegin(Run(es), p, op)
    ensures var s := Run(es + [Crash(holder)]);
            Committed(s, RunFrom(s, Undisturbed(p, op, now, NoFault)), p, Txn(op, |s.log|, now, false, Contents(Run(es).main)))
  {
    RunAppend(es, Crash(holder));
    CrashIsHarmless(Run(es), holder);
    EveryRunRefinesAtomicMap(es);
    UndisturbedCallSucceeds(Run(es + [Crash(holder)]), p, op, now, NoFault);
  }

  // ----- Why the lock hypothesis is needed -----

  lemma PersistAnswers(s: State, p: Instance, t: Txn)
    requires PhaseOf(s, p) == Applied(t)
    ensures var s' := RunFrom(s, Persist(p));
            && s'.responses == s.responses + [Response(p, t.op, t.start, Replied(Out(t)), Some(|s.log|), |s.log| + 1)]
            && forall q | q != p :: PhaseOf(s', q) == PhaseOf(s, q)
  {
    FourSteps(s, Persist(p));
    WriteFillsTmp(s, p, t);
    RenameAnswers(Step(Step(s, OpenTmp(p)), WriteRest(p)), p, t);
  }

  /** Two callers that the lock has let in together, about to read the file. */
  function LetInTogether(m: Tokens, op: Op): State
  {
    State(Full(m), Absent, Some(0), map[0 := Holding(op, 0), 1 := Holding(op, 0)], map[], [], [])
  }

  function BothRead(now: Time): seq<Event>
  {
    [ReadMain(0, NoFault), ReadMain(1, NoFault), RunFn(0, now), RunFn(1, now)]
  }

  lemma ReadLoads(s: State, p: Instance)
    requires PhaseOf(s, p).Holding? && s.main.Full?
    ensures var ph := PhaseOf(s, p);
            Step(s, ReadMain(p, NoFault)) == Go(s, p, Loaded(ph.op, ph.start, false, s.main.tokens))
  {
  }

  lemma FnApplies(s: State, p: Instance, now: Time)
    requires PhaseOf(s, p).Loaded?
    ensures var ph := PhaseOf(s, p);
            Step(s, RunFn(p, now)) == Go(s, p, Applied(Txn(ph.op, ph.start, now, ph.lossy, ph.view)))
  {
  }

  lemma BothSeeTheToken(m: Tokens, op: Op, now: Time) returns (s: State)
    ensures s == RunFrom(LetInTogether(m, op), BothRead(now)) && s.responses == []
    ensures PhaseOf(s, 0) == PhaseOf(s, 1) == Applied(Txn(op, 0, now, false, m))
  {
    var s0 := LetInTogether(m, op);
    FourSteps(s0, BothRead(now));
    ReadLoads(s0, 0);
    var s1 := Go(s0, 0, Loaded(op, 0, false, m));
    ReadLoads(s1, 1);
    var s2 := Go(s1, 1, Loaded(op, 0, false, m));
    FnApplies(s2, 0, now);
    var s3 := Go(s2, 0, Applied(Txn(op, 0, now, false, m)));
    FnApplies(s3, 1, now);
    s := Go(s3, 1, Applied(Txn(op, 0, now, false, m)));
  }

  /** If the lock let two callers in together, a live token would be paid out twice: single use rests on
      excluding every pair of callers, those that share one store object included. */
  lemma ExclusionIsNeeded(m: Tokens, v: string, now: Time)
    requires v in m && now <= m[v].expiry
    ensures var s := RunFrom(LetInTogether(m, ConsumeOp(v)), BothRead(now) + Persist(0) + Persist(1));
            Paid(s, 0, v, m[v].role) && Paid(s, 1, v, m[v].role)
  {
    var s0 := LetInTogether(m, ConsumeOp(v));
    RunConcat(s0, BothRead(now) + Persist(0), Persist(1));
    RunConcat(s0, BothRead(now), Persist(0));
    var s1 := BothSeeTheToken(m, ConsumeOp(v), now);
    var t := Txn(ConsumeOp(v), 0, now, false, m);
    PersistAnswers(s1, 0, t);
    PersistAnswers(RunFrom(s1, Persist(0)), 1, t);
  }

  /** A read that fails without data loses tokens: after an issue of "a", an issue of another value leaves a
      file without "a" although nothing was consumed. OthersUnchangedIff says exactly when this happens. */
  lemma FailedReadForgetsTokens()
    ensures var first := Undisturbed(0, IssueOp("a", "rex:reader", 10), 0, NoFault);
            var second := Undisturbed(0, IssueOp("b", "rex:reader", 10), 0, NoData);
            "a" in Contents(Run(first).main) && "a" !in Contents(Run(first + second).main)
  {
    var opA, opB := IssueOp("a", "rex:reader", 10), IssueOp("b", "rex:reader", 10);
    var first := Undisturbed(0, opA, 0, NoFault);
    assert opA.value[0] == 'a' && opB.value[0] == 'b';
    UndisturbedCallSucceeds(INIT, 0, opA, 0, NoFault);
    RunConcat(INIT, first, Undisturbed(0, opB, 0, NoData));
    UndisturbedCallSucceeds(Run(first), 0, opB, 0, NoData);
  }
}
