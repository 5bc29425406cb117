/** Running a command and emitting its output (internal/execute/execute.go). A process is two byte sources,
    each cut into arbitrary writes, and the way it ends. The pumps that os/exec runs for standard output and
    standard error interleave in any order over one mutex. */
module Execute {
  import opened Prelude
  import opened Wire

  /** One direction of the RPC stream; which sends fail is a parameter of the calls. */
  class Stream {
    var sent: seq<ExecChunk>

    constructor ()
      ensures sent == []
    {
      sent := [];
    }

    method Send(c: ExecChunk, fault: bool) returns (ok: bool)
      modifies this
      ensures ok == !fault
      ensures sent == if ok then old(sent) + [c] else old(sent)
    {
      if fault {
        return false;
      }
      sent := sent + [c];
      return true;
    }
  }

  /** The source's Chunk: one of the two buffers is set. An empty buffer is still set. */
  datatype Chunk = Chunk(stdout: array?<byte>, stderr: array?<byte>)

  ghost predicate Carries(c: Chunk, src: Source, data: seq<byte>)
    reads if c.stdout != null then {c.stdout} else {}, if c.stderr != null then {c.stderr} else {}
  {
    match src
    case Out => c.stdout != null && c.stderr == null && c.stdout[..] == data
    case Err => c.stderr != null && c.stdout == null && c.stderr[..] == data
  }

  /** The emit callback, as runStream in internal/agentserver/agentserver.go supplies it; it also keeps the
      chunks it was handed. */
  class Emitter {
    const stream: Stream
    var emitted: seq<Chunk>

    constructor (stream: Stream)
      ensures this.stream == stream && emitted == []
    {
      this.stream, emitted := stream, [];
    }

    method Emit(c: Chunk, fault: bool) returns (ok: bool)
      requires (c.stdout == null) != (c.stderr == null)
      modifies this, stream
      ensures ok == !fault && emitted == old(emitted) + [c]
      ensures stream.sent == old(stream.sent) + if !ok then []
                else if c.stderr != null then [Stderr(c.stderr[..])] else [Stdout(c.stdout[..])]
    {
      emitted := emitted + [c];
      var msg: ExecChunk;
      if c.stderr != null {
        msg := Stderr(c.stderr[..]);
      } else {
        msg := Stdout(c.stdout[..]);
      }
      ok := stream.Send(msg, fault);
    }
  }

  class ChunkWriter {
    const emitter: Emitter
    const stderr: bool

    constructor (emitter: Emitter, stderr: bool)
      ensures this.emitter == emitter && this.stderr == stderr
    {
      this.emitter, this.stderr := emitter, stderr;
    }

    function Src(): Source
    {
      if stderr then Err else Out
    }

    /** Writes the first n bytes of p. The emitted chunk owns a fresh copy of them. */
    method Write(p: array<byte>, n: nat, fault: bool) returns (written: nat, ok: bool)
      requires n <= p.Length
      modifies emitter, emitter.stream
      ensures ok == !fault && written == if ok then n else 0
      ensures |emitter.emitted| == |old(emitter.emitted)| + 1 && old(emitter.emitted) <= emitter.emitted
      ensures var c := emitter.emitted[|old(emitter.emitted)|];
              && Carries(c, Src(), p[..n])
              && fresh(if stderr then c.stderr else c.stdout)
      ensures emitter.stream.sent == old(emitter.stream.sent) + if ok then [Tagged(Src(), p[..n])] else []
    {
      var buf := new byte[n];
      forall i | 0 <= i < n {
        buf[i] := p[i];
      }
      assert buf[..] == p[..n];
      var c := Chunk(buf, null);
      if stderr {
        c := Chunk(null, buf);
      }
      ok := emitter.Emit(c, fault);
      written := if ok then n else 0;
    }
  }

  // ----- Starting a process -----

  datatype Spec = Spec(command: string, args: seq<string>, workingDir: string, env: map<string, string>)

  /** The machine the agent runs on: what was started on it, in order. */
  class Host {
    var started: seq<Spec>

    constructor ()
      ensures started == []
    {
      started := [];
    }

    method Start(spec: Spec, fault: bool) returns (ok: bool)
      modifies this
      ensures ok == !fault
      ensures started == old(started) + if ok then [spec] else []
    {
      if !fault {
        started := started + [spec];
      }
      ok := !fault;
    }
  }

  // ----- Two pumps and one process -----

  datatype Ending = StartFailed | WaitFailed | Exited(code: ExitStatus)

  datatype Process = Process(out: seq<seq<byte>>, err: seq<seq<byte>>, ending: Ending)

  /** Whose turn it is, and whether the send it makes fails. */
  datatype Turn = Turn(src: Source, fault: bool)

  datatype Pump = Pump(left: seq<seq<byte>>, failed: bool)

  datatype Pumps = Pumps(out: Pump, err: Pump, sent: seq<ExecChunk>)

  function PumpOf(ps: Pumps, src: Source): Pump
  {
    match src
    case Out => ps.out
    case Err => ps.err
  }

  function SetPump(ps: Pumps, src: Source, pump: Pump): Pumps
  {
    match src
    case Out => ps.(out := pump)
    case Err => ps.(err := pump)
  }

  /** A pump makes its next write; a pump that has no more to write, or whose write failed, does nothing. */
  function PumpStep(ps: Pumps, t: Turn): Pumps
  {
    var pump := PumpOf(ps, t.src);
    if pump.failed || pump.left == [] then ps
    else if t.fault then SetPump(ps, t.src, pump.(failed := true))
    else SetPump(ps, t.src, pump.(left := pump.left[1..])).(sent := ps.sent + [Tagged(t.src, pump.left[0])])
  }

  function PumpRun(p: Process, turns: seq<Turn>): Pumps
  {
    if turns == [] then Pumps(Pump(p.out, false), Pump(p.err, false), [])
    else PumpStep(PumpRun(p, turns[..|turns| - 1]), turns[|turns| - 1])
  }

  /** The write a pump makes at its turn, if it is not over. */
  function Attempt(src: Source, pump: Pump): seq<(Source, seq<byte>)>
  {
    if pump.failed || pump.left == [] then [] else [(src, pump.left[0])]
  }

  /** The writes the pumps make, in order, those whose send fails included. */
  function Tried(p: Process, turns: seq<Turn>): seq<(Source, seq<byte>)>
  {
    if turns == [] then []
    else
      var init, t := turns[..|turns| - 1], turns[|turns| - 1];
      Tried(p, init) + Attempt(t.src, PumpOf(PumpRun(p, init), t.src))
  }

  /** Both pumps are over: cmd.Run returns only then. */
  predicate Drained(ps: Pumps)
  {
    (ps.out.failed || ps.out.left == []) && (ps.err.failed || ps.err.left == [])
  }

  predicate CopyFailed(ps: Pumps)
  {
    ps.out.failed || ps.err.failed
  }

  /** What was sent for a source, followed by what its pump still has. */
  function Account(ps: Pumps, src: Source): seq<byte>
  {
    Bytes(src, ps.sent) + Flatten(PumpOf(ps, src).left)
  }

  lemma PumpStepConserves(ps: Pumps, t: Turn, src: Source)
    ensures Account(PumpStep(ps, t), src) == Account(ps, src)
  {
    var pump := PumpOf(ps, t.src);
    if !pump.failed && pump.left != [] && !t.fault {
      var c := Tagged(t.src, pump.left[0]);
      BytesAppend(src, ps.sent, c);
      if src == t.src {
        var sent, rest := Bytes(src, ps.sent), Flatten(pump.left[1..]);
        assert (sent + pump.left[0]) + rest == sent + (pump.left[0] + rest);
      } else {
        assert Bytes(src, ps.sent) + [] == Bytes(src, ps.sent);
      }
    }
  }

  /** Conservation: for every interleaving and every split into writes, what was sent for a source followed
      by what its pump still has is what the process wrote to it. Only output is sent. */
  lemma {:induction false} NothingLostOrReordered(p: Process, turns: seq<Turn>)
    ensures var ps := PumpRun(p, turns);
            && Bytes(Out, ps.sent) + Flatten(ps.out.left) == Flatten(p.out)
            && Bytes(Err, ps.sent) + Flatten(ps.err.left) == Flatten(p.err)
            && (forall i | 0 <= i < |ps.sent| :: IsOutput(ps.sent[i]))
  {
    if turns != [] {
      var n := |turns| - 1;
      NothingLostOrReordered(p, turns[..n]);
      PumpStepConserves(PumpRun(p, turns[..n]), turns[n], Out);
      PumpStepConserves(PumpRun(p, turns[..n]), turns[n], Err);
    }
  }

  /** If no send fails, a finished run has sent everything. */
  lemma FaultlessRunSendsAll(p: Process, turns: seq<Turn>)
    requires Drained(PumpRun(p, turns)) && !CopyFailed(PumpRun(p, turns))
    ensures Bytes(Out, PumpRun(p, turns).sent) == Flatten(p.out)
    ensures Bytes(Err, PumpRun(p, turns).sent) == Flatten(p.err)
  {
    NothingLostOrReordered(p, turns);
    var ps := PumpRun(p, turns);
    assert Bytes(Out, ps.sent) + [] == Bytes(Out, ps.sent);
    assert Bytes(Err, ps.sent) + [] == Bytes(Err, ps.sent);
  }

  /** How many turns a source gets. */
  function Turns(src: Source, turns: seq<Turn>): nat
  {
    if turns == [] then 0
    else Turns(src, turns[..|turns| - 1]) + if turns[|turns| - 1].src == src then 1 else 0
  }

  ghost predicate Faultless(turns: seq<Turn>)
  {
    forall i | 0 <= i < |turns| :: !turns[i].fault
  }

  lemma {:induction false} EachTurnMakesOneWrite(p: Process, turns: seq<Turn>)
    requires Faultless(turns)
    ensures var ps := PumpRun(p, turns);
            && !CopyFailed(ps)
            && |ps.out.left| == (if Turns(Out, turns) < |p.out| then |p.out| - Turns(Out, turns) else 0)
            && |ps.err.left| == (if Turns(Err, turns) < |p.err| then |p.err| - Turns(Err, turns) else 0)
  {
    if turns != [] {
      EachTurnMakesOneWrite(p, turns[..|turns| - 1]);
    }
  }

  /** Progress: when no send fails, the pumps are over, without a failed copy, exactly when each source has had
      a turn for every write of the process. So every process has schedules that finish. */
  lemma FaultlessFinishesIff(p: Process, turns: seq<Turn>)
    requires Faultless(turns)
    ensures Drained(PumpRun(p, turns)) <==> |p.out| <= Turns(Out, turns) && |p.err| <= Turns(Err, turns)
    ensures !CopyFailed(PumpRun(p, turns))
  {
    EachTurnMakesOneWrite(p, turns);
  }

  /** A copy fails exactly when some turn's send fails while its pump still has something to write. */
  lemma {:induction false} CopyFailsIff(p: Process, turns: seq<Turn>)
    ensures CopyFailed(PumpRun(p, turns))
       <==> exists i :: 0 <= i < |turns| && turns[i].fault && Attempt(turns[i].src, PumpOf(PumpRun(p, turns[..i]), turns[i].src)) != []
  {
    if turns != [] {
      var n := |turns| - 1;
      CopyFailsIff(p, turns[..n]);
      forall i | 0 <= i < n
        ensures turns[..n][i] == turns[i] && turns[..n][..i] == turns[..i]
      {
      }
    }
  }

  /** What Run returns: an exit code, or an error. A non-zero status wins over a failed copy. */
  function RunResult(command: string, ending: Ending, copyFailed: bool): Option<ExitStatus>
  {
    if command == "" then None
    else match ending
      case StartFailed => None
      case WaitFailed => None
      case Exited(code) => if code == 0 && copyFailed then None else Some(code)
  }

  /** A failed copy of a started command's output is reported as an error exactly when the process did not end
      with a non-zero status. */
  lemma CopyFailureReportedIff(command: string, ending: Ending)
    requires command != ""
    ensures RunResult(command, ending, true).None? <==> !(ending.Exited? && ending.code != 0)
  {
  }

  /** A process is started exactly when there is a command and it can be started; then, and only then, is
      anything sent. The exit code is the process's own, unless it failed to end or a copy failed behind a
      status of zero. */
  method Run(spec: Spec, p: Process, turns: seq<Turn>, emitter: Emitter, host: Host) returns (code: int, error: bool)
    requires Drained(PumpRun(p, turns))
    modifies emitter, emitter.stream, host
    ensures var started := spec.command != "" && !p.ending.StartFailed?;
            && host.started == old(host.started) + (if started then [spec] else [])
            && emitter.stream.sent == old(emitter.stream.sent) + (if started then PumpRun(p, turns).sent else [])
    ensures !error <==> && spec.command != "" && p.ending.Exited?
                        && (CopyFailed(PumpRun(p, turns)) ==> p.ending.code != 0)
    ensures code == if error then -1 else p.ending.code
  {
    if spec.command == "" {
      return -1, true;
    }
    var started := host.Start(spec, p.ending.StartFailed?);
    if !started {
      return -1, true;
    }
    var stdout := new ChunkWriter(emitter, false);
    var stderr := new ChunkWriter(emitter, true);
    var copyFailed, outBuf, errBuf := Pumping(p, turns, stdout, stderr);
    match p.ending {
      case WaitFailed => return -1, true;
      case Exited(status) =>
        if status != 0 {
          return status, false;
        }
        if copyFailed {
          return -1, true;
        }
        return 0, false;
    }
  }

  /** Enough for the largest write. */
  function Capacity(pieces: seq<seq<byte>>): (n: nat)
    ensures forall i | 0 <= i < |pieces| :: |pieces[i]| <= n
  {
    if pieces == [] then 0
    else
      var n := Capacity(pieces[1..]);
      assert forall i | 0 < i < |pieces| :: pieces[i] == pieces[1..][i - 1];
      if |pieces[0]| > n then |pieces[0]| else n
  }

  /** A chunk handed to emit: what it carries, in memory of its own. */
  ghost predicate Keeps(c: Chunk, written: (Source, seq<byte>), outBuf: array<byte>, errBuf: array<byte>)
    reads if c.stdout != null then {c.stdout} else {}, if c.stderr != null then {c.stderr} else {}
  {
    && Carries(c, written.0, written.1)
    && c.stdout != outBuf && c.stdout != errBuf && c.stderr != outBuf && c.stderr != errBuf
  }

  /** A pump's turn: it reads into its buffer and writes what it read, or it is over. */
  method PumpOnce(w: ChunkWriter, buf: array<byte>, pump: Pump, fault: bool) returns (pump': Pump)
    requires Fits(pump, buf)
    modifies buf, w.emitter, w.emitter.stream
    ensures if pump.failed || pump.left == [] then
              && pump' == pump && w.emitter.emitted == old(w.emitter.emitted)
              && w.emitter.stream.sent == old(w.emitter.stream.sent)
            else
              && pump' == (if fault then pump.(failed := true) else pump.(left := pump.left[1..]))
              && |w.emitter.emitted| == |old(w.emitter.emitted)| + 1 && old(w.emitter.emitted) <= w.emitter.emitted
              && Carries(w.emitter.emitted[|old(w.emitter.emitted)|], w.Src(), pump.left[0])
              && (var c := w.emitter.emitted[|old(w.emitter.emitted)|]; fresh(if w.stderr then c.stderr else c.stdout))
              && w.emitter.stream.sent == old(w.emitter.stream.sent) + if fault then [] else [Tagged(w.Src(), pump.left[0])]
  {
    if pump.failed || pump.left == [] {
      return pump;
    }
    var data := pump.left[0];
    forall j | 0 <= j < |data| {
      buf[j] := data[j];
    }
    assert buf[..|data|] == data;
    var n, ok := w.Write(buf, |data|, fault);
    pump' := if ok then pump.(left := pump.left[1..]) else pump.(failed := true);
  }

  /** The chunks emitted from some point on are those of `tried`, each in memory of its own. */
  ghost predicate AllKept(chunks: seq<Chunk>, before: nat, tried: seq<(Source, seq<byte>)>, outBuf: array<byte>, errBuf: array<byte>)
    reads set k | 0 <= k < |chunks| && chunks[k].stdout != null :: chunks[k].stdout
    reads set k | 0 <= k < |chunks| && chunks[k].stderr != null :: chunks[k].stderr
  {
    && |chunks| == before + |tried|
    && forall k | before <= k < |chunks| :: Keeps(chunks[k], tried[k - before], outBuf, errBuf)
  }

  /** The buffer holds every write the pump has left. */
  predicate Fits(pump: Pump, buf: array<byte>)
  {
    forall j | 0 <= j < |pump.left| :: |pump.left[j]| <= buf.Length
  }

  method TakeTurn(t: Turn, out: Pump, err: Pump, stdout: ChunkWriter, stderr: ChunkWriter, outBuf: array<byte>, errBuf: array<byte>,
                  ghost before: nat, ghost tried: seq<(Source, seq<byte>)>)
    returns (out': Pump, err': Pump)
    requires !stdout.stderr && stderr.stderr && stdout.emitter == stderr.emitter
    requires Fits(out, outBuf) && Fits(err, errBuf)
    requires AllKept(stdout.emitter.emitted, before, tried, outBuf, errBuf)
    modifies outBuf, errBuf, stdout.emitter, stdout.emitter.stream
    ensures Fits(out', outBuf) && Fits(err', errBuf)
    ensures var d := PumpStep(Pumps(out, err, []), t);
            d == Pumps(out', err', d.sent) && stdout.emitter.stream.sent == old(stdout.emitter.stream.sent) + d.sent
    ensures var pump := PumpOf(Pumps(out, err, []), t.src);
            AllKept(stdout.emitter.emitted, before, tried + Attempt(t.src, pump), outBuf, errBuf)
  {
    out', err' := out, err;
    ghost var chunks := stdout.emitter.emitted;
    if t.src.Out? {
      out' := PumpOnce(stdout, outBuf, out, t.fault);
    } else {
      err' := PumpOnce(stderr, errBuf, err, t.fault);
    }
    assert forall k | before <= k < |chunks| :: Keeps(chunks[k], tried[k - before], outBuf, errBuf);
  }

  /** The two goroutines of cmd.Run, scheduled by `turns`. Each pump reuses one buffer for all its reads, and
      overwriting a buffer never reaches a chunk already emitted: at the end every chunk, sent or not, carries
      the bytes it had when it was written, and none shares memory with a buffer. */
  method Pumping(p: Process, turns: seq<Turn>, stdout: ChunkWriter, stderr: ChunkWriter)
    returns (copyFailed: bool, outBuf: array<byte>, errBuf: array<byte>)
    requires !stdout.stderr && stderr.stderr && stdout.emitter == stderr.emitter
    modifies stdout.emitter, stdout.emitter.stream
    ensures stdout.emitter.stream.sent == old(stdout.emitter.stream.sent) + PumpRun(p, turns).sent
    ensures copyFailed == CopyFailed(PumpRun(p, turns))
    ensures AllKept(stdout.emitter.emitted, |old(stdout.emitter.emitted)|, Tried(p, turns), outBuf, errBuf)
  {
    var out, err := Pump(p.out, false), Pump(p.err, false);
    outBuf := new byte[Capacity(p.out)];
    errBuf := new byte[Capacity(p.err)];
    var emitter := stdout.emitter;
    ghost var sent, before := emitter.stream.sent, |emitter.emitted|;
    ghost var more, tried := [], [];
    assert turns[..0] == [];
    for i := 0 to |turns|
      invariant fresh(outBuf) && fresh(errBuf)
      invariant Fits(out, outBuf) && Fits(err, errBuf)
      invariant After(p, turns[..i], Pumps(out, err, more), tried)
      invariant emitter.stream.sent == sent + more
      invariant AllKept(emitter.emitted, before, tried, outBuf, errBuf)
    {
      ghost var pumps := Pumps(out, err, []);
      var t := turns[i];
      TurnUnfolds(p, turns, i, Pumps(out, err, more), tried);
      out, err := TakeTurn(t, out, err, stdout, stderr, outBuf, errBuf, before, tried);
      AppendAssoc(sent, more, PumpStep(pumps, t).sent);
      more, tried := more + PumpStep(pumps, t).sent, tried + Attempt(t.src, PumpOf(pumps, t.src));
    }
    assert turns[..|turns|] == turns;
    copyFailed := out.failed || err.failed;
  }

  /** After these turns the pumps are like this, and have tried these writes. */
  ghost predicate After(p: Process, turns: seq<Turn>, ps: Pumps, tried: seq<(Source, seq<byte>)>)
  {
    ps == PumpRun(p, turns) && tried == Tried(p, turns)
  }

  lemma TurnUnfolds(p: Process, turns: seq<Turn>, i: nat, ps: Pumps, tried: seq<(Source, seq<byte>)>)
    requires i < |turns| && After(p, turns[..i], ps, tried)
    ensures var d := PumpStep(ps.(sent := []), turns[i]);
            After(p, turns[..i + 1], d.(sent := ps.sent + d.sent), tried + Attempt(turns[i].src, PumpOf(ps, turns[i].src)))
  {
    assert turns[..i + 1][..i] == turns[..i];
  }
}
