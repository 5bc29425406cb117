/** One-time, command-bound, expiring approvals (internal/policy/grants.go). */
module Grants {
  import opened Prelude
  import opened RandomIds

  datatype Grant = Grant(command: string, expiry: Time)

  type GrantMap = map<string, Grant>

  datatype ConsumeError = NoGrant | GrantExpired | CommandMismatch

  /** The verdict of Consume on the record found, if any. A reading equal to the expiry is still in time. */
  function Verdict(found: Option<Grant>, command: string, now: Time): Option<ConsumeError>
  {
    match found
    case None => Some(NoGrant)
    case Some(g) =>
      if now > g.expiry then Some(GrantExpired)
      else if g.command != command then Some(CommandMismatch)
      else None
  }

  function Lookup(m: GrantMap, id: string): Option<Grant>
  {
    if id in m then Some(m[id]) else None
  }

  /** The store lives in the daemon's memory. The clock readings and the random bytes of each call are
      parameters; None stands for a failed random source. The ghost field records the calls made. */
  class Grants {
    var m: GrantMap
    ghost var calls: seq<GrantOp>

    ghost predicate Valid()
      reads this
    {
      m == After(calls)
    }

    constructor ()
      ensures Valid() && m == map[] && calls == []
    {
      m, calls := map[], [];
    }

    method Issue(command: string, ttl: Time, entropy: Option<ApprovalEntropy>, now: Time) returns (id: Option<string>)
      requires Valid()
      modifies this
      ensures Valid()
      ensures entropy.None? ==> id.None? && m == old(m) && calls == old(calls)
      ensures entropy.Some? ==> id == Some(RandID(entropy.value)) && m == old(m)[id.value := Grant(command, now + ttl)]
      ensures entropy.Some? ==> calls == old(calls) + [Issued(id.value, command, ttl, now)]
    {
      if entropy.None? {
        return None;
      }
      var newId := RandID(entropy.value);
      m := m[newId := Grant(command, now + ttl)];
      calls := calls + [Issued(newId, command, ttl, now)];
      return Some(newId);
    }

    /** The answer is the one the history of calls dictates. */
    method Consume(id: string, command: string, now: Time) returns (error: Option<ConsumeError>)
      requires Valid()
      modifies this
      ensures Valid()
      ensures error == Verdict(History(old(calls), id), command, now) == Verdict(Lookup(old(m), id), command, now)
      ensures m == old(m) - {id} && calls == old(calls) + [Tried(id, command, now)]
    {
      HistoryDecidesLookup(calls, id);
      calls := calls + [Tried(id, command, now)];
      if id !in m {
        return Some(NoGrant);
      }
      var rec := m[id];
      m := m - {id};
      if now > rec.expiry {
        return Some(GrantExpired);
      }
      if rec.command != command {
        return Some(CommandMismatch);
      }
      return None;
    }
  }

  // ----- What a history of calls says -----

  datatype GrantOp =
    | Issued(id: string, command: string, ttl: Time, now: Time)
    | Tried(id: string, command: string, now: Time)

  function Apply(m: GrantMap, op: GrantOp): GrantMap
  {
    match op
    case Issued(id, command, ttl, now) => m[id := Grant(command, now + ttl)]
    case Tried(id, _, _) => m - {id}
  }

  /** The store after a history of calls, oldest first. */
  function After(ops: seq<GrantOp>): GrantMap
  {
    if ops == [] then map[] else Apply(After(ops[..|ops| - 1]), ops[|ops| - 1])
  }

  lemma AfterAppend(ops: seq<GrantOp>, op: GrantOp)
    ensures After(ops + [op]) == Apply(After(ops), op)
  {
    assert (ops + [op])[..|ops|] == ops;
  }

  /** Reference definition, one id at a time: the record an id stands for is the one its last mention in
      the history left behind. Any attempt to consume it, successful or not, leaves nothing. */
  function History(ops: seq<GrantOp>, id: string): Option<Grant>
  {
    if ops == [] then None
    else
      var last := ops[|ops| - 1];
      if last.id != id then History(ops[..|ops| - 1], id)
      else if last.Issued? then Some(Grant(last.command, last.now + last.ttl))
      else None
  }

  lemma {:induction false} HistoryDecidesLookup(ops: seq<GrantOp>, id: string)
    ensures Lookup(After(ops), id) == History(ops, id)
  {
    if ops != [] {
      HistoryDecidesLookup(ops[..|ops| - 1], id);
    }
  }

  /** No id is drawn twice. */
  ghost predicate FreshIds(ops: seq<GrantOp>)
  {
    forall i, j | 0 <= i < j < |ops| && ops[i].Issued? && ops[j].Issued? :: ops[i].id != ops[j].id
  }

  /** Call i issued this id and no later call tried to consume it. */
  ghost predicate Untouched(ops: seq<GrantOp>, i: nat, id: string)
  {
    && i < |ops| && ops[i].Issued? && ops[i].id == id
    && forall j | i < j < |ops| && ops[j].Tried? :: ops[j].id != id
  }

  lemma {:induction false} LiveIffUntouched(ops: seq<GrantOp>, id: string)
    requires FreshIds(ops)
    ensures id in After(ops) <==> exists i: nat :: Untouched(ops, i, id)
    ensures forall i: nat | Untouched(ops, i, id) ::
              id in After(ops) && After(ops)[id] == Grant(ops[i].command, ops[i].now + ops[i].ttl)
  {
    if ops != [] {
      var n := |ops| - 1;
      var init := ops[..n];
      LiveIffUntouched(init, id);
      if ops[n].id == id && ops[n].Issued? {
        assert Untouched(ops, n, id);
      }
      forall i: nat
        ensures Untouched(ops, i, id) <==>
                if i == n then ops[n].Issued? && ops[n].id == id
                else Untouched(init, i, id) && !(ops[n].Tried? && ops[n].id == id)
      {
        if i < n && Untouched(init, i, id) && !(ops[n].Tried? && ops[n].id == id) {
          forall j | i < j < |ops| && ops[j].Tried?
            ensures ops[j].id != id
          {
            if j < n { assert init[j] == ops[j]; }
          }
        }
        if i < n && Untouched(ops, i, id) {
          forall j | i < j < n && init[j].Tried?
            ensures init[j].id != id
          {
            assert ops[j] == init[j];
          }
        }
      }
      if id in After(ops) && ops[n].id != id {
        var i: nat :| Untouched(init, i, id);
        assert Untouched(ops, i, id);
      }
    }
  }

  /** Call i issued this id, nobody tried it since, and the reading is not after issue time plus ttl. */
  ghost predicate InTime(ops: seq<GrantOp>, i: nat, id: string, now: Time)
  {
    Untouched(ops, i, id) && now <= ops[i].now + ops[i].ttl
  }

  /** What Consume answers, from the history alone. It succeeds exactly when the id was issued for this very
      command, is untouched and in time; expiry is reported before a wrong command. */
  lemma {:induction false} ConsumeAnswersFromHistory(ops: seq<GrantOp>, id: string, command: string, now: Time)
    requires FreshIds(ops)
    ensures var error := Verdict(Lookup(After(ops), id), command, now);
            && (error == None <==> exists i: nat :: InTime(ops, i, id, now) && ops[i].command == command)
            && (error == Some(CommandMismatch) <==> exists i: nat :: InTime(ops, i, id, now) && ops[i].command != command)
            && (error == Some(GrantExpired) <==> exists i: nat :: Untouched(ops, i, id) && !InTime(ops, i, id, now))
            && (error == Some(NoGrant) <==> !exists i: nat :: Untouched(ops, i, id))
  {
    LiveIffUntouched(ops, id);
    if id in After(ops) {
      var i: nat :| Untouched(ops, i, id);
      assert InTime(ops, i, id, now) <==> now <= ops[i].now + ops[i].ttl;
    }
  }

  function IssuedIds(ops: seq<GrantOp>): set<string>
  {
    set i | 0 <= i < |ops| && ops[i].Issued? :: ops[i].id
  }

  /** Ids whose issue is followed by an attempt. */
  function RetiredIds(ops: seq<GrantOp>): set<string>
  {
    set i, j | 0 <= i < j < |ops| && ops[i].Issued? && ops[j].Tried? && ops[j].id == ops[i].id :: ops[i].id
  }

  lemma {:induction false} IdsAreConserved(ops: seq<GrantOp>)
    requires FreshIds(ops)
    ensures After(ops).Keys + RetiredIds(ops) == IssuedIds(ops)
    ensures After(ops).Keys !! RetiredIds(ops)
  {
    forall id
      ensures id in After(ops) ==> id in IssuedIds(ops) && id !in RetiredIds(ops)
      ensures id in IssuedIds(ops) ==> id in After(ops) || id in RetiredIds(ops)
    {
      LiveIffUntouched(ops, id);
      if id in IssuedIds(ops) && id !in RetiredIds(ops) {
        var i: nat :| i < |ops| && ops[i].Issued? && ops[i].id == id;
        assert Untouched(ops, i, id);
      }
    }
  }

  /** A retired id never comes back, whatever is called later. */
  lemma RetiredStaysRetired(ops: seq<GrantOp>, more: seq<GrantOp>, id: string)
    requires FreshIds(ops + more) && id in RetiredIds(ops)
    ensures id !in After(ops + more)
  {
    var all := ops + more;
    var i, j :| 0 <= i < j < |ops| && ops[i].Issued? && ops[j].Tried? && ops[j].id == ops[i].id && ops[i].id == id;
    assert all[i] == ops[i] && all[j] == ops[j];
    IdsAreConserved(all);
    assert id in RetiredIds(all);
  }

  /** A call about one id leaves every other record as it was. */
  lemma OtherIdsUnchanged(ops: seq<GrantOp>, op: GrantOp, other: string)
    requires other != op.id
    ensures Lookup(After(ops + [op]), other) == Lookup(After(ops), other)
  {
    AfterAppend(ops, op);
  }
}
