/** The atomic single-use token map: what the crash-tolerant file store of internal/token/token.go is
    meant to be. A log of commits stands for the successive contents of the map. */
module AtomicTokens {
  import opened Prelude

  datatype Record = Record(role: string, expiry: Time)

  type Tokens = map<string, Record>

  datatype Op =
    | IssueOp(value: string, role: string, ttl: Time)
    | ConsumeOp(value: string)

  datatype Outcome = Stored | Granted(role: string) | UnknownToken | Expired

  /** What the function handed to `mutate` does to the map, and what it answers. A token is removed even
      when it turns out to be expired; a reading equal to the expiry is still in time. */
  function ApplyOp(op: Op, now: Time, m: Tokens): (Tokens, Outcome)
  {
    match op
    case IssueOp(value, role, ttl) => (m[value := Record(role, now + ttl)], Stored)
    case ConsumeOp(value) =>
      if value !in m then (m, UnknownToken)
      else if now > m[value].expiry then (m - {value}, Expired)
      else (m - {value}, Granted(m[value].role))
  }

  /** One effective call. `lossy` marks a call whose read of the file brought no data back because of an
      error: it worked on an empty map and so forgot every other token. */
  datatype Commit = Commit(who: Instance, op: Op, now: Time, lossy: bool, out: Outcome)

  /** The map a commit worked on, when `m` was current. */
  function View(lossy: bool, m: Tokens): Tokens
  {
    if lossy then map[] else m
  }

  function Replay(log: seq<Commit>): Tokens
  {
    if log == [] then map[]
    else
      var c := log[|log| - 1];
      ApplyOp(c.op, c.now, View(c.lossy, Replay(log[..|log| - 1]))).0
  }

  ghost predicate Issues(c: Commit, v: string)
  {
    c.op.IssueOp? && c.op.value == v
  }

  /** Every answer in the log is the one the atomic map gives, and no value is issued twice. */
  ghost predicate Consistent(log: seq<Commit>)
  {
    && (forall i | 0 <= i < |log| :: log[i].out == ApplyOp(log[i].op, log[i].now, View(log[i].lossy, Replay(log[..i]))).1)
    && DistinctIssues(log)
  }

  ghost predicate DistinctIssues(log: seq<Commit>)
  {
    forall i, j | 0 <= i < j < |log| && log[i].op.IssueOp? && log[j].op.IssueOp? :: log[i].op.value != log[j].op.value
  }

  lemma ReplayAppend(log: seq<Commit>, c: Commit)
    ensures Replay(log + [c]) == ApplyOp(c.op, c.now, View(c.lossy, Replay(log))).0
  {
    assert (log + [c])[..|log|] == log;
  }

  lemma ConsistentAppend(log: seq<Commit>, c: Commit)
    requires Consistent(log)
    requires c.out == ApplyOp(c.op, c.now, View(c.lossy, Replay(log))).1
    requires forall i | 0 <= i < |log| && c.op.IssueOp? :: !Issues(log[i], c.op.value)
    ensures Consistent(log + [c])
  {
    var log' := log + [c];
    assert log'[..|log|] == log;
    forall i | 0 <= i < |log'|
      ensures log'[i].out == ApplyOp(log'[i].op, log'[i].now, View(log'[i].lossy, Replay(log'[..i]))).1
    {
      if i < |log| {
        assert log'[..i] == log[..i];
      }
    }
  }

  // ----- The fate of one token -----

  /** Commit c leaves no record of v, whatever there was before. */
  ghost predicate Removes(c: Commit, v: string)
  {
    !Issues(c, v) && (c.lossy || c.op.value == v)
  }

  /** Commit k issued v, and nothing since removed it. */
  ghost predicate Unspent(log: seq<Commit>, k: nat, v: string)
  {
    k < |log| && Issues(log[k], v) && forall j | k < j < |log| :: !Removes(log[j], v)
  }

  function Minted(c: Commit): Record
    requires c.op.IssueOp?
  {
    Record(c.op.role, c.now + c.op.ttl)
  }

  /** A token is live exactly when some commit issued it and no later commit consumed it or worked on a
      lost map; and its record is the one that commit made. */
  lemma {:induction false} LiveIffUnspent(log: seq<Commit>, v: string)
    requires DistinctIssues(log)
    ensures v in Replay(log) <==> exists k: nat :: Unspent(log, k, v)
    ensures forall k: nat | Unspent(log, k, v) :: v in Replay(log) && Replay(log)[v] == Minted(log[k])
  {
    if log != [] {
      var n := |log| - 1;
      var init := log[..n];
      LiveIffUnspent(init, v);
      UnspentStep(log, v);
      if Issues(log[n], v) {
        assert Unspent(log, n, v);
      } else if v in Replay(log) {
        var k: nat :| Unspent(init, k, v);
        assert Unspent(log, k, v);
      }
    }
  }

  lemma UnspentStep(log: seq<Commit>, v: string)
    requires log != []
    ensures forall k: nat :: Unspent(log, k, v) <==>
              if k == |log| - 1 then Issues(log[k], v)
              else Unspent(log[..|log| - 1], k, v) && !Removes(log[|log| - 1], v)
  {
    var n := |log| - 1;
    var init := log[..n];
    forall k: nat
      ensures Unspent(log, k, v) <==>
              if k == n then Issues(log[k], v) else Unspent(init, k, v) && !Removes(log[n], v)
    {
      if k < n && Unspent(init, k, v) && !Removes(log[n], v) {
        forall j | k < j < |log|
          ensures !Removes(log[j], v)
        {
          if j < n { assert init[j] == log[j]; }
        }
      }
      if k < n && Unspent(log, k, v) {
        forall j | k < j < n
          ensures !Removes(init[j], v)
        {
          assert init[j] == log[j];
        }
      }
    }
  }

  /** A prefix of a log without repeated issues has none either. */
  lemma PrefixHasDistinctIssues(log: seq<Commit>, n: nat)
    requires n <= |log| && DistinctIssues(log)
    ensures DistinctIssues(log[..n])
  {
  }

  /** Consuming now succeeds with this role exactly when the token was issued with it, nothing removed it
      since, and the reading is not after its expiry. */
  lemma {:induction false} ConsumeGrantsIff(log: seq<Commit>, v: string, now: Time, role: string)
    requires DistinctIssues(log)
    ensures ApplyOp(ConsumeOp(v), now, Replay(log)).1 == Granted(role)
       <==> exists k: nat :: Unspent(log, k, v) && log[k].op.role == role && now <= log[k].now + log[k].op.ttl
  {
    LiveIffUnspent(log, v);
  }

  /** The two refusals, from the history alone: "expired" for a token that nothing removed since its issue but
      whose time is over, "unknown" for one that no commit issued or that is gone. */
  lemma {:induction false} ConsumeRefusesIff(log: seq<Commit>, v: string, now: Time)
    requires DistinctIssues(log)
    ensures var out := ApplyOp(ConsumeOp(v), now, Replay(log)).1;
            && (out == Expired <==> exists k: nat :: Unspent(log, k, v) && now > log[k].now + log[k].op.ttl)
            && (out == UnknownToken <==> !exists k: nat :: Unspent(log, k, v))
  {
    LiveIffUnspent(log, v);
  }

  /** The same for the answers on record: what commit i answered to a consume is dictated by the commits before
      it, or is "unknown" when its read brought no data back. */
  lemma {:induction false} RecordedAnswerIff(log: seq<Commit>, i: nat)
    requires Consistent(log) && i < |log| && log[i].op.ConsumeOp?
    ensures var v, before := log[i].op.value, log[..i];
            && (log[i].out == UnknownToken <==> log[i].lossy || !exists k: nat :: Unspent(before, k, v))
            && (log[i].out == Expired <==>
                  !log[i].lossy && exists k: nat :: Unspent(before, k, v) && log[i].now > log[k].now + log[k].op.ttl)
            && (log[i].out.Granted? <==>
                  !log[i].lossy && exists k: nat :: Unspent(before, k, v) && log[i].now <= log[k].now + log[k].op.ttl)
  {
    var v, before := log[i].op.value, log[..i];
    PrefixHasDistinctIssues(log, i);
    LiveIffUnspent(before, v);
    assert log[i].out == ApplyOp(log[i].op, log[i].now, View(log[i].lossy, Replay(before))).1;
    assert forall k: nat | k < i :: before[k] == log[k];
  }

  /** Where a grant in the log comes from: an earlier issue of the same value with the same role. */
  lemma GrantHasIssue(log: seq<Commit>, i: nat) returns (k: nat)
    requires Consistent(log) && i < |log| && log[i].op.ConsumeOp? && log[i].out.Granted?
    ensures k < i && Issues(log[k], log[i].op.value) && log[k].op.role == log[i].out.role
    ensures log[i].now <= log[k].now + log[k].op.ttl
    ensures !log[i].lossy && forall j | k < j < i :: !Removes(log[j], log[i].op.value)
  {
    var v := log[i].op.value;
    PrefixHasDistinctIssues(log, i);
    LiveIffUnspent(log[..i], v);
    assert log[i].out == ApplyOp(log[i].op, log[i].now, View(log[i].lossy, Replay(log[..i]))).1;
    k :| Unspent(log[..i], k, v);
    forall j | k < j < i
      ensures !Removes(log[j], v)
    {
      assert log[..i][j] == log[j];
    }
  }

  /** Single use: once a consume found its token, in time or expired, every later one finds none. */
  lemma SecondConsumeFindsNothing(log: seq<Commit>, i: nat, j: nat)
    requires Consistent(log) && i < j < |log|
    requires log[i].op.ConsumeOp? && log[j].op == log[i].op && log[i].out != UnknownToken
    ensures log[j].out == UnknownToken
  {
    var v := log[i].op.value;
    PrefixHasDistinctIssues(log, i);
    PrefixHasDistinctIssues(log, j);
    LiveIffUnspent(log[..i], v);
    LiveIffUnspent(log[..j], v);
    assert log[i].out == ApplyOp(log[i].op, log[i].now, View(log[i].lossy, Replay(log[..i]))).1;
    assert log[j].out == ApplyOp(log[j].op, log[j].now, View(log[j].lossy, Replay(log[..j]))).1;
    var k: nat :| Unspent(log[..i], k, v);
    assert log[..i][k] == log[k];
    forall k': nat
      ensures !Unspent(log[..j], k', v)
    {
      assert log[..j][i] == log[i] && Removes(log[i], v);
      assert k' < j && Issues(log[k'], v) ==> k' == k;
    }
  }

  // ----- Conservation and framing -----

  ghost function IssuedValues(log: seq<Commit>): set<string>
  {
    set k | 0 <= k < |log| && log[k].op.IssueOp? :: log[k].op.value
  }

  /** Values whose issue is followed by a commit that removes them. */
  ghost function SpentValues(log: seq<Commit>): set<string>
  {
    set k, j | 0 <= k < j < |log| && log[k].op.IssueOp? && Removes(log[j], log[k].op.value) :: log[k].op.value
  }

  lemma {:induction false} ValuesAreConserved(log: seq<Commit>)
    requires DistinctIssues(log)
    ensures Replay(log).Keys + SpentValues(log) == IssuedValues(log)
    ensures Replay(log).Keys !! SpentValues(log)
  {
    forall v
      ensures v in Replay(log) ==> v in IssuedValues(log) && v !in SpentValues(log)
      ensures v in IssuedValues(log) ==> v in Replay(log) || v in SpentValues(log)
    {
      LiveIffUnspent(log, v);
      if v in IssuedValues(log) && v !in SpentValues(log) {
        var k: nat :| k < |log| && log[k].op.IssueOp? && log[k].op.value == v;
        assert Unspent(log, k, v);
      }
    }
  }

  lemma SpentStaysSpent(log: seq<Commit>, more: seq<Commit>, v: string)
    requires DistinctIssues(log + more) && v in SpentValues(log)
    ensures v !in Replay(log + more)
  {
    var all := log + more;
    var k, j :| 0 <= k < j < |log| && log[k].op.IssueOp? && Removes(log[j], log[k].op.value) && log[k].op.value == v;
    assert all[k] == log[k] && all[j] == log[j];
    ValuesAreConserved(all);
    assert v in SpentValues(all);
  }

  /** A commit about one value leaves every other record alone exactly when its read succeeded or there
      was no other record. */
  lemma OthersUnchangedIff(log: seq<Commit>, c: Commit)
    ensures (Replay(log + [c]) - {c.op.value} == Replay(log) - {c.op.value})
       <==> !c.lossy || Replay(log).Keys <= {c.op.value}
  {
    ReplayAppend(log, c);
    var before, after := Replay(log), Replay(log + [c]);
    if c.lossy {
      assert after - {c.op.value} == map[];
      assert forall u | u in before && u != c.op.value :: u in before - {c.op.value};
    } else {
      assert after - {c.op.value} == before - {c.op.value};
    }
  }
}
