/** Role-based admission to RPC methods (internal/authz/authz.go). */
module Authz {
  import opened Prelude

  const ROLE_PUBLIC := ""
  const ROLE_READER := "rex:reader"
  const ROLE_OPERATOR := "rex:operator"
  const ROLE_ADMIN := "rex:admin"

  /** The rank table; a role it does not list has rank 0, as an absent map key does. */
  function Rank(role: string): nat
  {
    if role == ROLE_READER then 1
    else if role == ROLE_OPERATOR then 2
    else if role == ROLE_ADMIN then 3
    else 0
  }

  predicate Allowed(have: string, need: string)
  {
    need == ROLE_PUBLIC || (Rank(have) >= Rank(need) && Rank(have) > 0)
  }

  /** The highest known role among orgs, or the public role; this determines `role`. */
  ghost predicate IsHighest(orgs: seq<string>, role: string)
  {
    && (role == ROLE_PUBLIC || role in orgs)
    && (Rank(role) == 0 ==> role == ROLE_PUBLIC)
    && forall org | org in orgs :: Rank(org) <= Rank(role)
  }

  method RoleFromCert(orgs: seq<string>) returns (best: string)
    ensures IsHighest(orgs, best)
  {
    var bestRank := 0;
    best := ROLE_PUBLIC;
    for i := 0 to |orgs|
      invariant bestRank == Rank(best)
      invariant IsHighest(orgs[..i], best)
    {
      var r := Rank(orgs[i]);
      if r > bestRank {
        best, bestRank := orgs[i], r;
      }
      assert orgs[..i + 1] == orgs[..i] + [orgs[i]];
    }
    assert orgs[..|orgs|] == orgs;
  }

  /** Collapsing the organisations to one role loses nothing: the collapsed role is allowed exactly when
      the method is public or one of the organisations alone is allowed. */
  lemma CollapseIsLossless(orgs: seq<string>, role: string, need: string)
    requires IsHighest(orgs, role)
    ensures Allowed(role, need) <==> need == ROLE_PUBLIC || exists org :: org in orgs && Allowed(org, need)
  {
  }

  /** Only the set of organisations matters, so order and repetition do not; and more organisations
      never take a permission away. */
  lemma MoreOrgsNeverDeny(orgs: seq<string>, more: seq<string>, role: string, role': string, need: string)
    requires IsHighest(orgs, role) && IsHighest(more, role')
    requires forall org | org in orgs :: org in more
    ensures Allowed(role, need) ==> Allowed(role', need)
    ensures (forall org | org in more :: org in orgs) ==> role == role'
  {
  }

  // ----- Interceptors -----

  type Table = map<string, string>

  /** The caller: no peer information, or the organisations of each certificate of its verified chain. */
  datatype Peer = NoPeer | Chain(certs: seq<seq<string>>)

  datatype Admission = NotPermitted | Unauthenticated | Insufficient | Handled

  const ENROLL := "/rexec.v1.Agent/Enroll"
  const IDENTITY := "/rexec.v1.Agent/Identity"
  const INFO := "/rexec.v1.Agent/Info"
  const RUN := "/rexec.v1.Agent/Run"
  const DEPLOY := "/rexec.v1.Agent/Deploy"

  const AGENT_TABLE: Table := map[
    ENROLL := ROLE_PUBLIC,
    IDENTITY := ROLE_READER,
    INFO := ROLE_READER,
    RUN := ROLE_OPERATOR,
    DEPLOY := ROLE_ADMIN
  ]

  /** What admission means, without mentioning the collapsed role: the method is listed, and it is public
      or some organisation of the leaf certificate alone suffices. */
  ghost predicate Admits(table: Table, fullMethod: string, peer: Peer)
  {
    && fullMethod in table
    && (table[fullMethod] == ROLE_PUBLIC
        || (peer.Chain? && peer.certs != []
            && exists org :: org in peer.certs[0] && Allowed(org, table[fullMethod])))
  }

  /** The reason given to a caller that is turned away. */
  ghost predicate Explains(table: Table, fullMethod: string, peer: Peer, a: Admission)
  {
    && (a == Handled <==> Admits(table, fullMethod, peer))
    && (a == NotPermitted <==> fullMethod !in table)
    && (a == Unauthenticated <==>
        fullMethod in table && table[fullMethod] != ROLE_PUBLIC && (peer == NoPeer || peer.certs == []))
  }

  method RoleFromContext(peer: Peer) returns (role: Option<string>)
    ensures role.None? <==> peer.NoPeer? || peer.certs == []
    ensures role.Some? ==> IsHighest(peer.certs[0], role.value)
  {
    if peer.NoPeer? {
      return None;
    }
    if |peer.certs| == 0 {
      return None;
    }
    var best := RoleFromCert(peer.certs[0]);
    return Some(best);
  }

  method UnaryInterceptor(table: Table, fullMethod: string, peer: Peer) returns (a: Admission)
    ensures Explains(table, fullMethod, peer, a)
  {
    if fullMethod !in table {
      return NotPermitted;
    }
    var need := table[fullMethod];
    if need == ROLE_PUBLIC {
      return Handled;
    }
    var role := RoleFromContext(peer);
    if role.None? {
      return Unauthenticated;
    }
    CollapseIsLossless(peer.certs[0], role.value, need);
    if !Allowed(role.value, need) {
      return Insufficient;
    }
    return Handled;
  }

  method StreamInterceptor(table: Table, fullMethod: string, peer: Peer) returns (a: Admission)
    ensures Explains(table, fullMethod, peer, a)
  {
    if fullMethod !in table {
      return NotPermitted;
    }
    var need := table[fullMethod];
    if need == ROLE_PUBLIC {
      return Handled;
    }
    var role := RoleFromContext(peer);
    if role.None? {
      return Unauthenticated;
    }
    CollapseIsLossless(peer.certs[0], role.value, need);
    if !Allowed(role.value, need) {
      return Insufficient;
    }
    return Handled;
  }

  /** Two interceptors that meet the contract above give every caller the same answer. */
  lemma InterceptorsAgree(table: Table, fullMethod: string, peer: Peer, unary: Admission, stream: Admission)
    requires Explains(table, fullMethod, peer, unary)
    requires Explains(table, fullMethod, peer, stream)
    ensures unary == stream
  {
  }

  /** The leaf certificate carries one of these roles. */
  ghost predicate Carries(peer: Peer, roles: set<string>)
  {
    peer.Chain? && peer.certs != [] && exists org :: org in peer.certs[0] && org in roles
  }

  /** The production table, by method: Enroll is open; Identity and Info need any known role, Run an operator
      or an admin, Deploy an admin; every other method is refused to everyone. */
  lemma AgentTableMeaning(peer: Peer, fullMethod: string)
    ensures Admits(AGENT_TABLE, fullMethod, peer) <==>
            || fullMethod == ENROLL
            || (fullMethod in {IDENTITY, INFO} && Carries(peer, {ROLE_READER, ROLE_OPERATOR, ROLE_ADMIN}))
            || (fullMethod == RUN && Carries(peer, {ROLE_OPERATOR, ROLE_ADMIN}))
            || (fullMethod == DEPLOY && Carries(peer, {ROLE_ADMIN}))
  {
  }

  /** Deploy admits exactly the callers whose leaf certificate carries rex:admin. */
  lemma DeployNeedsAdmin(peer: Peer)
    ensures Admits(AGENT_TABLE, DEPLOY, peer) <==> peer.Chain? && peer.certs != [] && ROLE_ADMIN in peer.certs[0]
  {
  }
}
