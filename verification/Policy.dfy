/** The agent's local policy on destructive commands (internal/policy/policy.go). */
module Policy {

  /** The source's Mode is a string; every text other than the three known ones is treated alike. */
  datatype Mode = ModeDeny | ModeAllow | ModeAsk | ModeOther(text: string)

  datatype Policy = Policy(destructive: Mode, allow: seq<string>, deny: seq<string>)

  datatype Decision = DecisionDeny | DecisionAllow | DecisionAsk

  function Contains(list: seq<string>, v: string): (found: bool)
    ensures found <==> v in list
  {
    if list == [] then false
    else if list[0] == v then true
    else Contains(list[1..], v)
  }

  function Evaluate(p: Policy, command: string): Decision
  {
    if Contains(p.deny, command) then DecisionDeny
    else match p.destructive
      case ModeAllow =>
        if |p.allow| > 0 && !Contains(p.allow, command) then DecisionDeny else DecisionAllow
      case ModeAsk =>
        if Contains(p.allow, command) then DecisionAllow else DecisionAsk
      case _ => DecisionDeny
  }

  /** The table of docs/policy.example.yaml: `allow` mode permits the listed commands, or all when none is
      listed; `ask` mode pre-approves the listed ones and asks about the rest; `deny` wins over both. */
  lemma DecisionTable(p: Policy, command: string)
    ensures Evaluate(p, command) == DecisionAsk
       <==> p.destructive == ModeAsk && command !in p.allow && command !in p.deny
    ensures Evaluate(p, command) == DecisionAllow
       <==> command !in p.deny && (command in p.allow || (p.destructive == ModeAllow && p.allow == []))
            && (p.destructive == ModeAllow || p.destructive == ModeAsk)
  {
  }

  /** How far a decision lets a command go: Deny < Ask < Allow. */
  function Level(d: Decision): nat
  {
    match d
    case DecisionDeny => 0
    case DecisionAsk => 1
    case DecisionAllow => 2
  }

  /** q says everything p says, and its deny list is at least p's. */
  ghost predicate DeniesMore(p: Policy, q: Policy)
  {
    q.destructive == p.destructive && q.allow == p.allow && forall c | c in p.deny :: c in q.deny
  }

  lemma EnlargingDenyNeverRaises(p: Policy, q: Policy, command: string)
    requires DeniesMore(p, q)
    ensures Level(Evaluate(q, command)) <= Level(Evaluate(p, command))
    ensures command in q.deny ==> Evaluate(q, command) == DecisionDeny
    ensures command !in q.deny ==> Evaluate(q, command) == Evaluate(p, command)
  {
  }

  ghost predicate AllowsMore(p: Policy, q: Policy)
  {
    q.destructive == p.destructive && q.deny == p.deny && forall c | c in p.allow :: c in q.allow
  }

  /** The one way in which a longer allow list takes permission away: in allow mode an empty list means
      "every command", so the first entry turns the list into a restriction. */
  predicate BecomesRestrictive(p: Policy, q: Policy, command: string)
  {
    p.destructive == ModeAllow && p.allow == [] && q.allow != [] && command !in q.allow && command !in p.deny
  }

  lemma EnlargingAllowLowersOnlyWhenRestrictive(p: Policy, q: Policy, command: string)
    requires AllowsMore(p, q)
    ensures Level(Evaluate(q, command)) < Level(Evaluate(p, command)) <==> BecomesRestrictive(p, q, command)
  {
  }

  /** The order of the lists and repeated entries do not matter, except that an empty allow list stays empty. */
  lemma DecisionDependsOnlyOnMembership(p: Policy, q: Policy, command: string)
    requires p.destructive == q.destructive
    requires forall c :: c in p.deny <==> c in q.deny
    requires forall c :: c in p.allow <==> c in q.allow
    ensures Evaluate(p, command) == Evaluate(q, command)
  {
    assert Contains(p.deny, command) == Contains(q.deny, command);
    assert Contains(p.allow, command) == Contains(q.allow, command);
    if p.allow != [] {
      assert p.allow[0] in q.allow;
    }
    if q.allow != [] {
      assert q.allow[0] in p.allow;
    }
  }
}
