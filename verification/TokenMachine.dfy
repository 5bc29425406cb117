/** The token file of internal/token/token.go as a machine of micro-steps. Any number of store instances
    (the `token new` processes and the daemon) interleave; every step may fail and an instance may die
    between any two steps.

    An instance runs one `mutate` at a time: this is the assumption made about the lock library, which is
    not part of this model, together with mutual exclusion between instances and release of the lock when
    its holder dies. A schedule is any sequence of events; an event that is not enabled changes nothing. */
module TokenMachine {
  import opened Prelude
  import opened AtomicTokens

  /** A file: missing, of length zero, a strict non-empty prefix of an encoding, or a whole encoding. */
  datatype File = Absent | Empty | Torn | Full(tokens: Tokens)

  datatype Cause = Mkdir | Lock | Read | Decode | Encode | WriteTmp | Rename

  /** What `mutate` returns. A write error is joined with the error of the function, if there was one. */
  datatype Reply =
    | Replied(out: Outcome)
    | Failed(cause: Cause, joined: Option<Outcome>)

  function FnError(out: Outcome): Option<Outcome>
  {
    if out.UnknownToken? || out.Expired? then Some(out) else None
  }

  /** How reading the file may go wrong: with no data at all, or after some of it. */
  datatype ReadFault = NoFault | NoData | SomeData

  /** `read`: whenever no data came back the answer is an empty map, also when that was an error. */
  function ReadFile(file: File, fault: ReadFault): Result<Tokens, Cause>
  {
    if file.Absent? || file.Empty? || fault.NoData? then Success(map[])
    else if fault.SomeData? then Failure(Read)
    else if file.Torn? then Failure(Decode)
    else Success(file.tokens)
  }

  /** A call under way: its view of the map, and the reading of the clock its function took. */
  datatype Txn = Txn(op: Op, start: nat, now: Time, lossy: bool, view: Tokens)

  function Next(t: Txn): Tokens
  {
    ApplyOp(t.op, t.now, t.view).0
  }

  function Out(t: Txn): Outcome
  {
    ApplyOp(t.op, t.now, t.view).1
  }

  /** Where an instance is. `start` and `at` are history: the length of the commit log when the call began,
      and the commit it made. */
  datatype Phase =
    | Idle
    | Waiting(op: Op, start: nat)
    | Holding(op: Op, start: nat)
    | Loaded(op: Op, start: nat, lossy: bool, view: Tokens)
    | Applied(txn: Txn)
    | Writing(txn: Txn)
    | Written(txn: Txn)
    | Leaving(op: Op, start: nat, reply: Reply, at: Option<nat>)

  predicate InCritical(ph: Phase)
  {
    !ph.Idle? && !ph.Waiting?
  }

  /** A finished call: when it began and ended (as lengths of the log), its answer, and its commit. */
  datatype Response = Response(who: Instance, op: Op, start: nat, reply: Reply, at: Option<nat>, end: nat)

  datatype State = State(
    main: File,
    tmp: File,
    lock: Option<Instance>,
    phases: map<Instance, Phase>,
    drawn: map<string, Instance>,
    log: seq<Commit>,
    responses: seq<Response>
  )

  const INIT := State(Absent, Absent, None, map[], map[], [], [])

  datatype Event =
    | Begin(who: Instance, op: Op)
    | MkdirFails(who: Instance, op: Op)
    | LockFails(who: Instance)
    | Acquire(who: Instance)
    | ReadMain(who: Instance, fault: ReadFault)
    | RunFn(who: Instance, now: Time)
    | EncodeFails(who: Instance)
    | OpenTmp(who: Instance)
    | OpenTmpFails(who: Instance)
    | WriteSome(who: Instance)
    | WriteRest(who: Instance)
    | WriteFails(who: Instance)
    | RenameTmp(who: Instance)
    | RenameFails(who: Instance)
    | Unlock(who: Instance, ok: bool)
    | Crash(who: Instance)

  function PhaseOf(s: State, p: Instance): Phase
  {
    if p in s.phases then s.phases[p] else Idle
  }

  /** Random values are fresh with respect to every value ever drawn. */
  predicate CanBegin(s: State, p: Instance, op: Op)
  {
    PhaseOf(s, p).Idle? && (op.IssueOp? ==> op.value !in s.drawn)
  }

  function Draw(s: State, p: Instance, op: Op): State
  {
    if op.IssueOp? then s.(drawn := s.drawn[op.value := p]) else s
  }

  function Go(s: State, p: Instance, ph: Phase): State
  {
    s.(phases := s.phases[p := ph])
  }

  function Fail(s: State, p: Instance, op: Op, start: nat, cause: Cause, joined: Option<Outcome>): State
  {
    Go(s, p, Leaving(op, start, Failed(cause, joined), None))
  }

  function Return(s: State, p: Instance, op: Op, start: nat, reply: Reply, at: Option<nat>): State
  {
    Go(s, p, Idle).(responses := s.responses + [Response(p, op, start, reply, at, |s.log|)])
  }

  function Release(s: State, p: Instance): State
  {
    if s.lock == Some(p) then s.(lock := None) else s
  }

  function CommitOf(p: Instance, t: Txn): Commit
  {
    Commit(p, t.op, t.now, t.lossy, Out(t))
  }

  function Step(s: State, e: Event): State
  {
    var p := e.who;
    match (e, PhaseOf(s, p))
    case (Begin(_, op), Idle) =>
      if CanBegin(s, p, op) then Go(Draw(s, p, op), p, Waiting(op, |s.log|)) else s
    case (MkdirFails(_, op), Idle) =>
      if CanBegin(s, p, op) then Return(Draw(s, p, op), p, op, |s.log|, Failed(Mkdir, None), None) else s
    case (LockFails(_), Waiting(op, start)) =>
      Return(s, p, op, start, Failed(Lock, None), None)
    case (Acquire(_), Waiting(op, start)) =>
      if s.lock == None || s.lock == Some(p) then Go(s, p, Holding(op, start)).(lock := Some(p)) else s
    case (ReadMain(_, fault), Holding(op, start)) =>
      (match ReadFile(s.main, fault)
       case Success(m) => Go(s, p, Loaded(op, start, fault.NoData? && s.main.Full?, m))
       case Failure(cause) => Fail(s, p, op, start, cause, None))
    case (RunFn(_, now), Loaded(op, start, lossy, view)) =>
      Go(s, p, Applied(Txn(op, start, now, lossy, view)))
    case (EncodeFails(_), Applied(t)) =>
      Fail(s, p, t.op, t.start, Encode, FnError(Out(t)))
    case (OpenTmp(_), Applied(t)) =>
      Go(s, p, Writing(t)).(tmp := Empty)
    case (OpenTmpFails(_), Applied(t)) =>
      Fail(s, p, t.op, t.start, WriteTmp, FnError(Out(t)))
    case (WriteSome(_), Writing(t)) =>
      s.(tmp := Torn)
    case (WriteRest(_), Writing(t)) =>
      Go(s, p, Written(t)).(tmp := Full(Next(t)))
    case (WriteFails(_), Writing(t)) =>
      Fail(s, p, t.op, t.start, WriteTmp, FnError(Out(t)))
    case (WriteFails(_), Written(t)) =>
      Fail(s, p, t.op, t.start, WriteTmp, FnError(Out(t)))
    case (RenameTmp(_), Written(t)) =>
      Go(s, p, Leaving(t.op, t.start, Replied(Out(t)), Some(|s.log|)))
      .(main := s.tmp, tmp := Absent, log := s.log + [CommitOf(p, t)])
    case (RenameFails(_), Written(t)) =>
      Fail(s, p, t.op, t.start, Rename, FnError(Out(t)))
    case (Unlock(_, ok), Leaving(op, start, reply, at)) =>
      var s' := Return(s, p, op, start, reply, at);
      if ok then Release(s', p) else s'
    case (Crash(_), _) =>
      Release(Go(s, p, Idle), p)
    case _ => s
  }

  function RunFrom(s: State, es: seq<Event>): State
  {
    if es == [] then s else Step(RunFrom(s, es[..|es| - 1]), es[|es| - 1])
  }

  /** The state after a schedule, starting with no file. */
  function Run(es: seq<Event>): State
  {
    RunFrom(INIT, es)
  }

  lemma RunAppend(es: seq<Event>, e: Event)
    ensures Run(es + [e]) == Step(Run(es), e)
  {
    assert (es + [e])[..|es|] == es;
  }

  // ----- The inductive invariant -----

  ghost predicate IssuedIn(log: seq<Commit>, v: string)
  {
    exists i :: 0 <= i < |log| && Issues(log[i], v)
  }

  /** The value of a call that has not committed belongs to its instance and is not in the log yet. */
  ghost predicate Pending(s: State, p: Instance, op: Op)
  {
    op.IssueOp? ==> op.value in s.drawn && s.drawn[op.value] == p && !IssuedIn(s.log, op.value)
  }

  ghost predicate TxnOk(s: State, p: Instance, t: Txn)
  {
    t.start <= |s.log| && t.view == View(t.lossy, Replay(s.log)) && Pending(s, p, t.op)
  }

  /** An answer of the function stands for one commit made between the call's beginning and its end; an
      error stands for none, and is never a decoding error. */
  ghost predicate Answers(log: seq<Commit>, p: Instance, op: Op, start: nat, reply: Reply, at: Option<nat>, end: nat)
  {
    && start <= end <= |log|
    && (at.None? ==> reply.Failed? && reply.cause != Decode)
    && (at.Some? ==>
          && start <= at.value < end
          && log[at.value].who == p && log[at.value].op == op && reply == Replied(log[at.value].out))
  }

  ghost predicate PhaseOk(s: State, p: Instance, ph: Phase)
  {
    && (InCritical(ph) ==> s.lock == Some(p))
    && match ph
       case Idle => true
       case Waiting(op, start) => start <= |s.log| && Pending(s, p, op)
       case Holding(op, start) => start <= |s.log| && Pending(s, p, op)
       case Loaded(op, start, lossy, view) =>
         start <= |s.log| && Pending(s, p, op) && view == View(lossy, Replay(s.log))
       case Applied(t) => TxnOk(s, p, t)
       case Writing(t) => TxnOk(s, p, t)
       case Written(t) => TxnOk(s, p, t) && s.tmp == Full(Next(t))
       case Leaving(op, start, reply, at) =>
         && Answers(s.log, p, op, start, reply, at, |s.log|)
         && (at.Some? ==> at.value == |s.log| - 1 && Unclaimed(s.responses, at.value))
  }

  ghost predicate Unclaimed(responses: seq<Response>, i: nat)
  {
    forall k | 0 <= k < |responses| :: responses[k].at != Some(i)
  }

  ghost predicate ResponsesOk(s: State)
  {
    && (forall k | 0 <= k < |s.responses| ::
          var r := s.responses[k];
          Answers(s.log, r.who, r.op, r.start, r.reply, r.at, r.end))
    && (forall j, k | 0 <= j < k < |s.responses| && s.responses[j].at.Some? :: s.responses[j].at != s.responses[k].at)
  }

  /** The durable file: missing until the first commit, then the whole encoding of the latest one's map. */
  ghost predicate MainOk(s: State)
  {
    s.main == if s.log == [] then Absent else Full(Replay(s.log))
  }

  ghost predicate LogOk(s: State)
  {
    && Consistent(s.log)
    && forall i | 0 <= i < |s.log| && s.log[i].op.IssueOp? :: s.log[i].op.value in s.drawn
  }

  ghost predicate Inv(s: State)
  {
    && MainOk(s) && LogOk(s) && ResponsesOk(s)
    && forall p: Instance :: PhaseOk(s, p, PhaseOf(s, p))
  }

  /** A step of the instance that holds the lock, or takes it, and commits nothing. */
  lemma MoveKeepsInv(s: State, s': State, p: Instance)
    requires Inv(s)
    requires s' == Go(s, p, PhaseOf(s', p)).(tmp := s'.tmp, lock := s'.lock)
    requires PhaseOk(s', p, PhaseOf(s', p))
    requires s'.tmp != s.tmp || s'.lock != s.lock ==> s.lock == Some(p) || (s.lock == None && s'.tmp == s.tmp)
    ensures Inv(s')
  {
    forall q: Instance
      ensures PhaseOk(s', q, PhaseOf(s', q))
    {
      if q != p {
        assert PhaseOf(s', q) == PhaseOf(s, q);
        assert PhaseOk(s, q, PhaseOf(s, q));
      }
    }
  }

  lemma DrawKeepsInv(s: State, p: Instance, op: Op)
    requires Inv(s) && CanBegin(s, p, op)
    ensures Inv(Draw(s, p, op)) && Pending(Draw(s, p, op), p, op)
  {
    var s' := Draw(s, p, op);
    forall q: Instance
      ensures PhaseOk(s', q, PhaseOf(s', q))
    {
      assert PhaseOf(s', q) == PhaseOf(s, q);
      assert PhaseOk(s, q, PhaseOf(s, q));
    }
  }

  lemma ReturnKeepsInv(s: State, p: Instance, op: Op, start: nat, reply: Reply, at: Option<nat>)
    requires Inv(s)
    requires Answers(s.log, p, op, start, reply, at, |s.log|)
    requires at.Some? ==> s.lock == Some(p) && Unclaimed(s.responses, at.value)
    ensures Inv(Return(s, p, op, start, reply, at))
  {
    var s' := Return(s, p, op, start, reply, at);
    forall q: Instance
      ensures PhaseOk(s', q, PhaseOf(s', q))
    {
      if q != p {
        assert PhaseOf(s', q) == PhaseOf(s, q);
        assert PhaseOk(s, q, PhaseOf(s, q));
      }
    }
  }

  lemma ReleaseKeepsInv(s: State, p: Instance)
    requires Inv(s) && PhaseOf(s, p).Idle?
    ensures Inv(Release(s, p))
  {
    var s' := Release(s, p);
    forall q: Instance
      ensures PhaseOk(s', q, PhaseOf(s', q))
    {
      assert PhaseOf(s', q) == PhaseOf(s, q);
      assert PhaseOk(s, q, PhaseOf(s, q));
    }
  }

  lemma RenameKeepsLog(s: State, s': State, p: Instance, t: Txn)
    requires Inv(s) && PhaseOf(s, p) == Written(t)
    requires s'.main == s.tmp && s'.drawn == s.drawn && s'.log == s.log + [CommitOf(p, t)]
    ensures LogOk(s') && MainOk(s')
  {
    assert PhaseOk(s, p, PhaseOf(s, p));
    ReplayAppend(s.log, CommitOf(p, t));
    ConsistentAppend(s.log, CommitOf(p, t));
  }

  lemma RenameKeepsOthers(s: State, s': State, p: Instance, t: Txn, q: Instance)
    requires Inv(s) && PhaseOf(s, p) == Written(t) && q != p
    requires s' == Go(s, p, PhaseOf(s', p)).(main := s'.main, tmp := s'.tmp, log := s.log + [CommitOf(p, t)])
    ensures PhaseOk(s', q, PhaseOf(s', q))
  {
    assert PhaseOf(s', q) == PhaseOf(s, q);
    assert PhaseOk(s, q, PhaseOf(s, q));
    assert PhaseOk(s, p, PhaseOf(s, p));
  }

  lemma RenameKeepsResponses(s: State, log': seq<Commit>)
    requires ResponsesOk(s) && s.log <= log'
    ensures ResponsesOk(s.(log := log')) && Unclaimed(s.responses, |s.log|)
  {
    forall k | 0 <= k < |s.responses|
      ensures var r := s.responses[k];
              Answers(log', r.who, r.op, r.start, r.reply, r.at, r.end) && r.at != Some(|s.log|)
    {
      var r := s.responses[k];
      assert Answers(s.log, r.who, r.op, r.start, r.reply, r.at, r.end);
    }
  }

  lemma RenameKeepsInv(s: State, p: Instance)
    requires Inv(s) && PhaseOf(s, p).Written?
    ensures Inv(Step(s, RenameTmp(p)))
  {
    var t := PhaseOf(s, p).txn;
    assert PhaseOk(s, p, PhaseOf(s, p));
    var s' := Step(s, RenameTmp(p));
    RenameKeepsLog(s, s', p, t);
    RenameKeepsResponses(s, s'.log);
    forall q: Instance
      ensures PhaseOk(s', q, PhaseOf(s', q))
    {
      if q != p {
        RenameKeepsOthers(s, s', p, t, q);
      }
    }
  }

  lemma AcquireKeepsInv(s: State, p: Instance)
    requires Inv(s)
    ensures Inv(Step(s, Acquire(p)))
  {
    var s' := Step(s, Acquire(p));
    if s' != s {
      assert PhaseOk(s, p, PhaseOf(s, p));
      MoveKeepsInv(s, s', p);
    }
  }

  lemma ReadKeepsInv(s: State, p: Instance, fault: ReadFault)
    requires Inv(s)
    ensures Inv(Step(s, ReadMain(p, fault)))
  {
    var s' := Step(s, ReadMain(p, fault));
    if s' != s {
      assert PhaseOk(s, p, PhaseOf(s, p));
      assert s.main.Absent? ==> Replay(s.log) == map[];
      MoveKeepsInv(s, s', p);
    }
  }

  lemma WriteKeepsInv(s: State, e: Event)
    requires Inv(s) && e.WriteRest?
    ensures Inv(Step(s, e))
  {
    var s' := Step(s, e);
    if s' != s {
      assert PhaseOk(s, e.who, PhaseOf(s, e.who));
      MoveKeepsInv(s, s', e.who);
    }
  }

  lemma TouchTmpKeepsInv(s: State, e: Event)
    requires Inv(s) && (e.OpenTmp? || e.WriteSome?)
    ensures Inv(Step(s, e))
  {
    var s' := Step(s, e);
    if s' != s {
      var ph := PhaseOf(s, e.who);
      assert PhaseOk(s, e.who, ph);
      MoveKeepsInv(s, s', e.who);
    }
  }

  lemma FailKeepsInv(s: State, e: Event)
    requires Inv(s) && (e.EncodeFails? || e.OpenTmpFails? || e.WriteFails? || e.RenameFails? || e.RunFn?)
    ensures Inv(Step(s, e))
  {
    var s' := Step(s, e);
    if s' != s {
      assert PhaseOk(s, e.who, PhaseOf(s, e.who));
      MoveKeepsInv(s, s', e.who);
    }
  }

  lemma BeginKeepsInv(s: State, e: Event)
    requires Inv(s) && (e.Begin? || e.MkdirFails?)
    ensures Inv(Step(s, e))
  {
    var p, op := e.who, e.op;
    if CanBegin(s, p, op) {
      DrawKeepsInv(s, p, op);
      if e.Begin? {
        MoveKeepsInv(Draw(s, p, op), Step(s, e), p);
      } else {
        ReturnKeepsInv(Draw(s, p, op), p, op, |s.log|, Failed(Mkdir, None), None);
      }
    }
  }

  lemma LeaveKeepsInv(s: State, e: Event)
    requires Inv(s) && (e.LockFails? || e.Unlock? || e.Crash?)
    ensures Inv(Step(s, e))
  {
    var p := e.who;
    var ph := PhaseOf(s, p);
    assert PhaseOk(s, p, ph);
    if e.LockFails? && ph.Waiting? {
      ReturnKeepsInv(s, p, ph.op, ph.start, Failed(Lock, None), None);
    } else if e.Unlock? && ph.Leaving? {
      ReturnKeepsInv(s, p, ph.op, ph.start, ph.reply, ph.at);
      ReleaseKeepsInv(Return(s, p, ph.op, ph.start, ph.reply, ph.at), p);
    } else if e.Crash? {
      MoveKeepsInv(s, Go(s, p, Idle), p);
      ReleaseKeepsInv(Go(s, p, Idle), p);
    }
  }

  lemma StepKeepsInv(s: State, e: Event)
    requires Inv(s)
    ensures Inv(Step(s, e))
  {
    match e
    case Begin(_, _) => BeginKeepsInv(s, e);
    case MkdirFails(_, _) => BeginKeepsInv(s, e);
    case Acquire(p) => AcquireKeepsInv(s, p);
    case ReadMain(p, fault) => ReadKeepsInv(s, p, fault);
    case OpenTmp(_) => TouchTmpKeepsInv(s, e);
    case WriteSome(_) => TouchTmpKeepsInv(s, e);
    case WriteRest(_) => WriteKeepsInv(s, e);
    case RenameTmp(p) => if PhaseOf(s, p).Written? { RenameKeepsInv(s, p); }
    case LockFails(_) => LeaveKeepsInv(s, e);
    case Unlock(_, _) => LeaveKeepsInv(s, e);
    case Crash(_) => LeaveKeepsInv(s, e);
    case _ => FailKeepsInv(s, e);
  }

  lemma {:induction false} RunKeepsInv(es: seq<Event>)
    ensures Inv(Run(es))
  {
    if es != [] {
      RunKeepsInv(es[..|es| - 1]);
      StepKeepsInv(Run(es[..|es| - 1]), es[|es| - 1]);
    }
  }
}
