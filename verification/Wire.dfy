/** Messages between controller and agent (proto/rexec/v1/agent.proto), and what they carry. */
module Wire {
  import opened Prelude

  datatype ExecRequest = ExecRequest(
    command: string, args: seq<string>, workingDir: string, env: map<string, string>, approvalId: string)

  datatype ApprovalRequest = ApprovalRequest(approvalId: string)

  datatype ExecChunk =
    | Stdout(data: seq<byte>)
    | Stderr(data: seq<byte>)
    | ExitCode(code: int)
    | NeedsApproval(request: ApprovalRequest)

  datatype Source = Out | Err

  function Tagged(src: Source, data: seq<byte>): ExecChunk
  {
    match src
    case Out => Stdout(data)
    case Err => Stderr(data)
  }

  predicate IsOutput(c: ExecChunk)
  {
    c.Stdout? || c.Stderr?
  }

  function Payload(src: Source, c: ExecChunk): seq<byte>
  {
    if src.Out? && c.Stdout? then c.data
    else if src.Err? && c.Stderr? then c.data
    else []
  }

  /** The bytes of one source in a message sequence, in order. */
  function Bytes(src: Source, msgs: seq<ExecChunk>): seq<byte>
  {
    if msgs == [] then [] else Bytes(src, msgs[..|msgs| - 1]) + Payload(src, msgs[|msgs| - 1])
  }

  function Flatten(pieces: seq<seq<byte>>): seq<byte>
  {
    if pieces == [] then [] else pieces[0] + Flatten(pieces[1..])
  }

  lemma BytesAppend(src: Source, msgs: seq<ExecChunk>, c: ExecChunk)
    ensures Bytes(src, msgs + [c]) == Bytes(src, msgs) + Payload(src, c)
  {
    assert (msgs + [c])[..|msgs|] == msgs;
  }

  /** The last exit code in a message sequence, or 0 when there is none. */
  function LastExit(msgs: seq<ExecChunk>): int
  {
    if msgs == [] then 0
    else if msgs[|msgs| - 1].ExitCode? then msgs[|msgs| - 1].code
    else LastExit(msgs[..|msgs| - 1])
  }

  lemma {:induction false} OutputHasNoExit(msgs: seq<ExecChunk>)
    requires forall i | 0 <= i < |msgs| :: IsOutput(msgs[i])
    ensures LastExit(msgs) == 0
  {
    if msgs != [] {
      OutputHasNoExit(msgs[..|msgs| - 1]);
    }
  }

  /** A process status as os/exec reports it: -1 when killed by a signal, else what the system gave. */
  type ExitStatus = c: int | -1 <= c < 0x1_0000_0000

  predicate IsInt32(c: int)
  {
    -0x8000_0000 <= c < 0x8000_0000
  }

  /** The conversion int32(code): reduction modulo 2^32 into the signed range. */
  function ToInt32(c: int): (r: int)
    ensures IsInt32(r) && (c - r) % 0x1_0000_0000 == 0
  {
    (c + 0x8000_0000) % 0x1_0000_0000 - 0x8000_0000
  }

  /** Narrowing an exit status neither hides a failure nor invents one, and it is exact on 32-bit values. */
  lemma NarrowingKeepsSuccess(c: ExitStatus)
    ensures ToInt32(c) == 0 <==> c == 0
    ensures ToInt32(c) == c <==> IsInt32(c)
  {
  }
}
