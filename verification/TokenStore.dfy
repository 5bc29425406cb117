/** FileStore of internal/token/token.go, statement by statement over one shared disk. Every disk action is
    mirrored, as ghost state, by a step of the token-file machine, so whatever holds of all runs of the
    machine holds of the disk these methods leave behind. What may fail during a call, the clock reading and
    the random bytes are parameters. */
module TokenStore {
  import opened Prelude
  import opened RandomIds
  import opened AtomicTokens
  import opened TokenMachine
  import opened TokenRuns

  datatype WriteFault = WriteOk | AtOpen | AtTruncated | Partway | AtClose

  datatype Faults = Faults(mkdir: bool, lock: bool, read: ReadFault, encode: bool, write: WriteFault, rename: bool, unlock: bool)

  /** Nothing that makes the call report a failure goes wrong. */
  predicate Harmless(f: Faults, file: File)
  {
    !f.mkdir && !f.lock && ReadFile(file, f.read).Success? && Persists(f)
  }

  /** Encoding the map and replacing the file both work. */
  predicate Persists(f: Faults)
  {
    !f.encode && f.write.WriteOk? && !f.rename
  }

  /** What a failed call reports: what went wrong first, and, if that was in writing back, the function's own
      error as well, if it had one. */
  ghost predicate Reports(r: Reply, f: Faults, file: File, fnError: Option<Outcome>)
  {
    && r.Failed?
    && (r.cause == Mkdir <==> f.mkdir)
    && (r.cause == Cause.Lock <==> !f.mkdir && f.lock)
    && (r.cause == Cause.Read || r.cause == Decode <==> !f.mkdir && !f.lock && ReadFile(file, f.read).Failure?)
    && (r.cause == Decode ==> file.Torn? && f.read.NoFault?)
    && (r.cause == Cause.Read ==> f.read.SomeData?)
    && (r.cause == Encode ==> f.encode)
    && (r.cause == WriteTmp ==> !f.encode && !f.write.WriteOk?)
    && (r.cause == Rename ==> !f.encode && f.write.WriteOk? && f.rename)
    && r.joined == if !f.mkdir && !f.lock && ReadFile(file, f.read).Success? then fnError else None
  }

  /** What the function answers on the map that reading this file yields. */
  function OutcomeOn(op: Op, now: Time, file: File, fault: ReadFault): Outcome
  {
    var m := ReadFile(file, fault);
    ApplyOp(op, now, if m.Success? then m.value else map[]).1
  }

  datatype Files = Files(main: File, tmp: File, holder: Option<Instance>)

  function FilesOf(s: State): Files
  {
    Files(s.main, s.tmp, s.lock)
  }

  /** The files and the lock that all instances share. */
  class Disk {
    var main: File
    var tmp: File
    var holder: Option<Instance>
    ghost var trace: seq<Event>
    ghost var machine: State

    ghost predicate Valid()
      reads this
    {
      machine == Run(trace) && main == machine.main && tmp == machine.tmp && holder == machine.lock
    }

    constructor ()
      ensures Valid() && main == Absent && trace == []
    {
      main, tmp, holder, trace, machine := Absent, Absent, None, [], INIT;
    }

    ghost method Did(e: Event)
      requires machine == Run(trace)
      modifies this`trace, this`machine
      ensures machine == Step(old(machine), e) == Run(trace)
      ensures trace == old(trace) + [e]
    {
      RunAppend(trace, e);
      trace, machine := trace + [e], Step(machine, e);
    }

    /** Other instances act on the disk, which then looks like `after`. */
    method Await(after: Files, ghost others: seq<Event>)
      requires Valid() && after == FilesOf(RunFrom(machine, others))
      modifies this
      ensures Valid() && machine == RunFrom(old(machine), others) && trace == old(trace) + others
    {
      main, tmp, holder := after.main, after.tmp, after.holder;
      RunConcat(INIT, trace, others);
      trace, machine := trace + others, RunFrom(machine, others);
    }
  }

  class FileStore {
    const disk: Disk
    const id: Instance

    constructor (disk: Disk, id: Instance)
      ensures this.disk == disk && this.id == id
    {
      this.disk, this.id := disk, id;
    }

    /** `fn` of Issue and of Consume: changes the map it is given. */
    method RunClosure(op: Op, now: Time, m: Tokens) returns (m': Tokens, out: Outcome)
      requires disk.Valid() && PhaseOf(disk.machine, id).Loaded?
      requires PhaseOf(disk.machine, id).op == op && PhaseOf(disk.machine, id).view == m
      modifies disk`trace, disk`machine
      ensures disk.Valid() && old(disk.trace) <= disk.trace
      ensures disk.machine == old(disk.machine).(phases := disk.machine.phases)
      ensures var ph := PhaseOf(old(disk.machine), id);
              PhaseOf(disk.machine, id) == Applied(Txn(op, ph.start, now, ph.lossy, m))
      ensures (m', out) == ApplyOp(op, now, m)
    {
      disk.Did(RunFn(id, now));
      m' := m;
      match op {
        case IssueOp(value, role, ttl) =>
          m' := m'[value := Record(role, now + ttl)];
          out := Stored;
        case ConsumeOp(value) =>
          if value !in m' {
            return m', UnknownToken;
          }
          var rec := m'[value];
          m' := m' - {value};
          if now > rec.expiry {
            return m', Expired;
          }
          out := Granted(rec.role);
      }
    }

    method Read(fault: ReadFault) returns (r: Result<Tokens, Cause>)
      requires disk.Valid() && PhaseOf(disk.machine, id).Holding?
      modifies disk`trace, disk`machine
      ensures disk.Valid() && old(disk.trace) <= disk.trace
      ensures disk.machine == old(disk.machine).(phases := disk.machine.phases)
      ensures var ph := PhaseOf(old(disk.machine), id);
              PhaseOf(disk.machine, id) ==
              if r.Success? then Loaded(ph.op, ph.start, fault.NoData? && disk.main.Full?, r.value)
              else Leaving(ph.op, ph.start, Failed(r.error, None), None)
      ensures r == ReadFile(disk.main, fault)
      ensures r.Success? <==> fault.NoData? || disk.main.Absent? || disk.main.Empty? || (fault.NoFault? && disk.main.Full?)
      ensures r.Success? ==> r.value == if disk.main.Full? && fault.NoFault? then disk.main.tokens else map[]
      ensures r.Failure? ==> r.error == if fault.SomeData? then Cause.Read else Decode
    {
      disk.Did(ReadMain(id, fault));
      if disk.main.Absent? || disk.main.Empty? || fault.NoData? {
        return Success(map[]);
      }
      if fault.SomeData? {
        return Failure(Cause.Read);
      }
      if disk.main.Torn? {
        return Failure(Decode);
      }
      return Success(disk.main.tokens);
    }

    method WriteTmpFile(m: Tokens, fault: WriteFault) returns (ok: bool)
      requires disk.Valid() && PhaseOf(disk.machine, id).Applied? && m == Next(PhaseOf(disk.machine, id).txn)
      modifies disk`tmp, disk`trace, disk`machine
      ensures disk.Valid() && old(disk.trace) <= disk.trace
      ensures disk.machine == old(disk.machine).(tmp := disk.tmp, phases := disk.machine.phases)
      ensures ok <==> fault.WriteOk?
      ensures var t := PhaseOf(old(disk.machine), id).txn;
              if ok then disk.tmp == Full(m) && PhaseOf(disk.machine, id) == Written(t)
              else PhaseOf(disk.machine, id) == Leaving(t.op, t.start, Failed(WriteTmp, FnError(Out(t))), None)
    {
      if fault.AtOpen? {
        disk.Did(OpenTmpFails(id));
        return false;
      }
      disk.tmp := Empty;
      disk.Did(OpenTmp(id));
      ok := Fill(m, fault);
    }

    /** os.WriteFile gives up on the temporary file and leaves it as it is. */
    method Abandon()
      requires disk.Valid() && (PhaseOf(disk.machine, id).Writing? || PhaseOf(disk.machine, id).Written?)
      modifies disk`trace, disk`machine
      ensures disk.Valid() && old(disk.trace) <= disk.trace
      ensures disk.machine == old(disk.machine).(phases := disk.machine.phases)
      ensures var t := PhaseOf(old(disk.machine), id).txn;
              PhaseOf(disk.machine, id) == Leaving(t.op, t.start, Failed(WriteTmp, FnError(Out(t))), None)
    {
      disk.Did(WriteFails(id));
    }

    /** Writes the data to the temporary file just truncated. */
    method Fill(m: Tokens, fault: WriteFault) returns (ok: bool)
      requires disk.Valid() && PhaseOf(disk.machine, id).Writing? && m == Next(PhaseOf(disk.machine, id).txn)
      modifies disk`tmp, disk`trace, disk`machine
      ensures disk.Valid() && old(disk.trace) <= disk.trace
      ensures disk.machine == old(disk.machine).(tmp := disk.tmp, phases := disk.machine.phases)
      ensures ok <==> fault.WriteOk? || fault.AtOpen?
      ensures var t := PhaseOf(old(disk.machine), id).txn;
              if ok then disk.tmp == Full(m) && PhaseOf(disk.machine, id) == Written(t)
              else PhaseOf(disk.machine, id) == Leaving(t.op, t.start, Failed(WriteTmp, FnError(Out(t))), None)
    {
      if fault.Partway? {
        disk.tmp := Torn;
        disk.Did(WriteSome(id));
      } else if !fault.AtTruncated? {
        disk.tmp := Full(m);
        disk.Did(WriteRest(id));
      }
      ok := fault.WriteOk? || fault.AtOpen?;
      if !ok {
        Abandon();
      }
    }

    method RenameFile(fault: bool) returns (ok: bool)
      requires disk.Valid() && PhaseOf(disk.machine, id).Written?
      modifies disk`main, disk`tmp, disk`trace, disk`machine
      ensures disk.Valid() && old(disk.trace) <= disk.trace
      ensures ok == !fault
      ensures var t := PhaseOf(old(disk.machine), id).txn;
              var m := old(disk.machine);
              if ok then
                   && disk.machine == m.(main := m.tmp, tmp := Absent, log := m.log + [CommitOf(id, t)], phases := disk.machine.phases)
                   && PhaseOf(disk.machine, id) == Leaving(t.op, t.start, Replied(Out(t)), Some(|m.log|))
                 else
                   && disk.machine == m.(phases := disk.machine.phases)
                   && PhaseOf(disk.machine, id) == Leaving(t.op, t.start, Failed(Rename, FnError(Out(t))), None)
    {
      if fault {
        disk.Did(RenameFails(id));
        return false;
      }
      disk.main, disk.tmp := disk.tmp, Absent;
      disk.Did(RenameTmp(id));
      return true;
    }

    method Write(m: Tokens, f: Faults) returns (error: Option<Cause>)
      requires disk.Valid() && PhaseOf(disk.machine, id).Applied? && m == Next(PhaseOf(disk.machine, id).txn)
      modifies disk`main, disk`tmp, disk`trace, disk`machine
      ensures disk.Valid() && old(disk.trace) <= disk.trace
      ensures disk.machine.lock == old(disk.machine.lock) && disk.machine.responses == old(disk.machine.responses)
      ensures disk.machine.drawn == old(disk.machine.drawn)
      ensures error == if f.encode then Some(Encode) else if !f.write.WriteOk? then Some(WriteTmp)
                       else if f.rename then Some(Rename) else None
      ensures var t := PhaseOf(old(disk.machine), id).txn;
              if error.None? then
                && disk.main == Full(m) && disk.tmp == Absent
                && disk.machine.log == old(disk.machine.log) + [CommitOf(id, t)]
                && PhaseOf(disk.machine, id) == Leaving(t.op, t.start, Replied(Out(t)), Some(|old(disk.machine.log)|))
              else
                && disk.main == old(disk.main) && disk.machine.log == old(disk.machine.log)
                && PhaseOf(disk.machine, id) == Leaving(t.op, t.start, Failed(error.value, FnError(Out(t))), None)
    {
      if f.encode {
        disk.Did(EncodeFails(id));
        return Some(Encode);
      }
      var written := WriteTmpFile(m, f.write);
      if !written {
        return Some(WriteTmp);
      }
      var renamed := RenameFile(f.rename);
      if !renamed {
        return Some(Rename);
      }
      return None;
    }

    method Unlocked(fault: bool)
      requires disk.Valid() && PhaseOf(disk.machine, id).Leaving? && disk.holder == Some(id)
      modifies disk`holder, disk`trace, disk`machine
      ensures disk.Valid() && old(disk.trace) <= disk.trace
      ensures disk.machine == old(disk.machine)
              .(lock := disk.holder, phases := disk.machine.phases, responses := disk.machine.responses)
      ensures PhaseOf(disk.machine, id).Idle?
      ensures var ph := PhaseOf(old(disk.machine), id);
              disk.machine.responses == old(disk.machine.responses)
              + [Response(id, ph.op, ph.start, ph.reply, ph.at, |disk.machine.log|)]
    {
      if !fault {
        disk.holder := None;
      }
      disk.Did(Unlock(id, !fault));
    }

    /** Everything `mutate` does while it holds the lock. */
    method Locked(op: Op, now: Time, f: Faults) returns (r: Reply)
      requires disk.Valid() && disk.holder == Some(id)
      requires PhaseOf(disk.machine, id).Holding? && PhaseOf(disk.machine, id).op == op
      modifies disk`main, disk`tmp, disk`trace, disk`machine
      ensures disk.Valid() && old(disk.trace) <= disk.trace
      ensures disk.machine.lock == old(disk.machine.lock) && disk.machine.responses == old(disk.machine.responses)
      ensures disk.machine.drawn == old(disk.machine.drawn)
      ensures PhaseOf(disk.machine, id) == Leaving(op, PhaseOf(old(disk.machine), id).start, r,
                                                   if r.Replied? then Some(|old(disk.machine.log)|) else None)
      ensures r.Replied? <==> Harmless(f.(mkdir := false, lock := false), old(disk.main))
      ensures !r.Replied? ==> Reports(r, f.(mkdir := false, lock := false), old(disk.main),
                                      FnError(OutcomeOn(op, now, old(disk.main), f.read)))
      ensures if r.Replied? then
                var view := ReadFile(old(disk.main), f.read).value;
                && (disk.main, r.out) == (Full(ApplyOp(op, now, view).0), ApplyOp(op, now, view).1)
                && |disk.machine.log| == |old(disk.machine.log)| + 1
              else disk.main == old(disk.main) && disk.machine.log == old(disk.machine.log)
    {
      var read := Read(f.read);
      if read.Failure? {
        return Failed(read.error, None);
      }
      var m, out := RunClosure(op, now, read.value);
      var error := Write(m, f);
      if error.Some? {
        return Failed(error.value, FnError(out));
      }
      return Replied(out);
    }

    /** Nothing is in flight for this instance, and the value to issue is fresh. The call may have to wait:
        `others` is what the other instances do from its beginning until it can have the lock, and `granted`
        is what the disk looks like then. */
    ghost predicate Ready(op: Op, granted: Files, others: seq<Event>)
      reads this, disk
    {
      && disk.Valid() && CanBegin(disk.machine, id, op)
      && (forall i | 0 <= i < |others| :: others[i].who != id)
      && granted == FilesOf(RunFrom(Step(disk.machine, Begin(id, op)), others))
      && (granted.holder == None || granted.holder == Some(id))
    }

    /** The directory and the lock. */
    method Enter(op: Op, f: Faults, granted: Files, ghost others: seq<Event>) returns (error: Option<Cause>)
      requires Ready(op, granted, others)
      modifies disk
      ensures disk.Valid() && old(disk.trace) <= disk.trace
      ensures old(disk.machine.responses) <= disk.machine.responses
      ensures error == if f.mkdir then Some(Mkdir) else if f.lock then Some(Cause.Lock) else None
      ensures disk.main == if f.mkdir then old(disk.main) else granted.main
      ensures if error.None? then
                disk.holder == Some(id) && PhaseOf(disk.machine, id) == Holding(op, |old(disk.machine.log)|)
              else
                && PhaseOf(disk.machine, id).Idle?
                && Answered(op, Failed(error.value, None), |old(disk.machine.log)|)
    {
      if f.mkdir {
        disk.Did(MkdirFails(id, op));
        return Some(Mkdir);
      }
      disk.Did(Begin(id, op));
      ghost var begun := disk.machine;
      assert PhaseOf(begun, id) == Waiting(op, |old(disk.machine.log)|);
      OthersLeavePhase(begun, others, id);
      HistoryGrows(begun, others);
      disk.Await(granted, others);
      error := TakeLock(f.lock);
    }

    method TakeLock(fault: bool) returns (error: Option<Cause>)
      requires disk.Valid() && PhaseOf(disk.machine, id).Waiting? && (disk.holder == None || disk.holder == Some(id))
      modifies disk`holder, disk`trace, disk`machine
      ensures disk.Valid() && old(disk.trace) <= disk.trace
      ensures error == if fault then Some(Cause.Lock) else None
      ensures old(disk.machine.responses) <= disk.machine.responses
      ensures var ph := PhaseOf(old(disk.machine), id);
              if error.None? then
                disk.holder == Some(id) && PhaseOf(disk.machine, id) == Holding(ph.op, ph.start)
              else
                PhaseOf(disk.machine, id).Idle? && Answered(ph.op, Failed(error.value, None), ph.start)
    {
      if fault {
        disk.Did(LockFails(id));
        return Some(Cause.Lock);
      }
      disk.holder := Some(id);
      disk.Did(Acquire(id));
      return None;
    }

    /** The latest answer given on this disk is this one, of this instance; an answer of the function stands
        for the latest commit. */
    ghost predicate Answered(op: Op, r: Reply, start: nat)
      reads this, disk
    {
      var log, responses := disk.machine.log, disk.machine.responses;
      && responses != [] && (r.Replied? ==> log != [])
      && responses[|responses| - 1] == Response(id, op, start, r, if r.Replied? then Some(|log| - 1) else None, |log|)
    }

    /** One call answers once, and either takes effect as a whole, on the file as it was when the lock was
        granted, or leaves that file alone. */
    method Mutate(op: Op, now: Time, f: Faults, granted: Files, ghost others: seq<Event>) returns (r: Reply)
      requires Ready(op, granted, others)
      modifies disk
      ensures disk.Valid() && old(disk.trace) <= disk.trace && PhaseOf(disk.machine, id).Idle?
      ensures old(disk.machine.responses) <= disk.machine.responses
      ensures Answered(op, r, |old(disk.machine.log)|)
      ensures r.Replied? <==> Harmless(f, granted.main)
      ensures !r.Replied? ==> Reports(r, f, granted.main, FnError(OutcomeOn(op, now, granted.main, f.read)))
      ensures if r.Replied? then
                var view := ReadFile(granted.main, f.read).value;
                (disk.main, r.out) == (Full(ApplyOp(op, now, view).0), ApplyOp(op, now, view).1)
              else disk.main == if f.mkdir then old(disk.main) else granted.main
    {
      var blocked := Enter(op, f, granted, others);
      if blocked.Some? {
        return Failed(blocked.value, None);
      }
      r := Locked(op, now, f);
      Unlocked(f.unlock);
    }

    /** Issue, once the random value is drawn. */
    method IssueValue(v: string, role: string, ttl: Time, now: Time, f: Faults, granted: Files, ghost others: seq<Event>)
      returns (r: Reply)
      requires Ready(IssueOp(v, role, ttl), granted, others)
      modifies disk
      ensures disk.Valid() && old(disk.trace) <= disk.trace && PhaseOf(disk.machine, id).Idle?
      ensures r.Replied? <==> Harmless(f, granted.main)
      ensures !r.Replied? ==> Reports(r, f, granted.main, None)
      ensures disk.main == if r.Replied? then Full(ReadFile(granted.main, f.read).value[v := Record(role, now + ttl)])
                           else if f.mkdir then old(disk.main) else granted.main
    {
      r := Mutate(IssueOp(v, role, ttl), now, f, granted, others);
    }

    method Issue(role: string, ttl: Time, entropy: Option<TokenEntropy>, now: Time, f: Faults, granted: Files, ghost others: seq<Event>)
      returns (value: Result<string, Option<Reply>>)
      requires entropy.Some? ==> Ready(IssueOp(RandToken(entropy.value), role, ttl), granted, others)
      requires disk.Valid()
      modifies disk
      ensures disk.Valid() && old(disk.trace) <= disk.trace
      ensures value.Success? <==> entropy.Some? && Harmless(f, granted.main)
      ensures value.Success? ==>
                && value.value == RandToken(entropy.value)
                && disk.main == Full(ReadFile(granted.main, f.read).value[value.value := Record(role, now + ttl)])
      ensures value.Failure? && entropy.Some? ==> value.error.Some? && Reports(value.error.value, f, granted.main, None)
      ensures value.Failure? ==> disk.main == if entropy.None? || f.mkdir then old(disk.main) else granted.main
    {
      if entropy.None? {
        return Failure(None);
      }
      var v := RandToken(entropy.value);
      var r := IssueValue(v, role, ttl, now, f, granted, others);
      if r.Failed? {
        return Failure(Some(r));
      }
      return Success(v);
    }

    /** The answer, from the file as it was when the lock was granted and what went wrong: the role of a token
        held and in time; "expired" for one held too long; "unknown" when the map read does not hold it; else
        the failure, joined with whichever of the two refusals was due when only writing back failed. */
    method Consume(value: string, now: Time, f: Faults, granted: Files, ghost others: seq<Event>)
      returns (role: Result<string, Reply>)
      requires Ready(ConsumeOp(value), granted, others)
      modifies disk
      ensures disk.Valid() && old(disk.trace) <= disk.trace && PhaseOf(disk.machine, id).Idle?
      ensures old(disk.machine.responses) <= disk.machine.responses
      ensures ConsumeAnswer(role, value, now, f, granted.main)
      ensures role.Success? ==>
                && |disk.machine.responses| > 0
                && Paid(disk.machine, |disk.machine.responses| - 1, value, role.value)
      ensures disk.main == if Harmless(f, granted.main) then Full(ReadFile(granted.main, f.read).value - {value})
                           else if f.mkdir then old(disk.main) else granted.main
    {
      var r := Mutate(ConsumeOp(value), now, f, granted, others);
      match r {
        case Replied(Granted(held)) => return Success(held);
        case _ => return Failure(r);
      }
    }
  }

  ghost predicate ConsumeAnswer(role: Result<string, Reply>, value: string, now: Time, f: Faults, file: File)
  {
    var held := Contents(file);
    var found := !f.read.NoData? && value in held;
    && (Harmless(f, file) ==>
          && (!found ==> role == Failure(Replied(UnknownToken)))
          && (found && now > held[value].expiry ==> role == Failure(Replied(Expired)))
          && (found && now <= held[value].expiry ==> role == Success(held[value].role)))
    && (!Harmless(f, file) ==>
          && role.Failure?
          && Reports(role.error, f, file,
                     if !found then Some(UnknownToken) else if now > held[value].expiry then Some(Expired) else None))
  }
}
