/** Environment variables: --set-env pairs parsed by the controller (cmd/rexec/controllercmds.go) and merged
    by the agent (internal/execute/execute.go). A process reads an environment list "last entry wins". */
module Environment {
  import opened Prelude

  /** strings.Cut(s, "="): splits at the first '='. */
  function Cut(s: string): (r: Option<(string, string)>)
    ensures r.None? <==> '=' !in s
    ensures r.Some? ==> s == Entry(r.value.0, r.value.1) && '=' !in r.value.0
  {
    if s == "" then None
    else if s[0] == '=' then
      assert s == "" + "=" + s[1..];
      Some(("", s[1..]))
    else
      match Cut(s[1..])
      case None => None
      case Some((k, v)) =>
        assert s == [s[0]] + s[1..] == [s[0]] + k + "=" + v;
        Some(([s[0]] + k, v))
  }

  function Entry(k: string, v: string): string
  {
    k + "=" + v
  }

  lemma {:induction false} CutEntry(k: string, v: string)
    requires '=' !in k
    ensures Cut(Entry(k, v)) == Some((k, v))
  {
    var s := Entry(k, v);
    if k == "" {
      assert s[0] == '=' && s[1..] == v;
    } else {
      assert s[0] == k[0] && k[0] in k && s[1..] == Entry(k[1..], v);
      CutEntry(k[1..], v);
      assert [k[0]] + k[1..] == k;
    }
  }

  /** A key that an environment can hold: an entry whose text before the first '=' is empty names nothing. */
  predicate IsName(key: string)
  {
    key != "" && '=' !in key
  }

  /** The value an environment list gives a key: the one of its last entry for that key. */
  function Lookup(env: seq<string>, key: string): Option<string>
  {
    if env == [] then None
    else match Cut(env[|env| - 1])
      case Some((k, v)) => if k == key && k != "" then Some(v) else Lookup(env[..|env| - 1], key)
      case None => Lookup(env[..|env| - 1], key)
  }

  function Get(m: map<string, string>, key: string): Option<string>
  {
    if key in m then Some(m[key]) else None
  }

  predicate ValidPair(pair: string)
  {
    Cut(pair).Some? && Cut(pair).value.0 != ""
  }

  /** A pair is accepted exactly when it is KEY=VALUE with a name for a key; the value may be empty, and may
      contain '='. */
  lemma PairIsValidIff(pair: string)
    ensures ValidPair(pair) <==> exists k, v :: IsName(k) && pair == Entry(k, v)
  {
    if ValidPair(pair) {
      var (k, v) := Cut(pair).value;
      assert IsName(k) && pair == Entry(k, v);
    }
    forall k, v | IsName(k) && pair == Entry(k, v)
      ensures ValidPair(pair)
    {
      CutEntry(k, v);
    }
  }

  /** A list of pairs is refused with its first invalid pair; an accepted list becomes a map that gives each
      key the last value supplied for it. Values may contain '=', keys never do. */
  method ParseEnv(kv: seq<string>) returns (r: Result<map<string, string>, string>)
    ensures r.Success? <==> forall i | 0 <= i < |kv| :: ValidPair(kv[i])
    ensures r.Failure? ==> exists i :: 0 <= i < |kv| && r.error == kv[i] && !ValidPair(kv[i])
                                       && forall j | 0 <= j < i :: ValidPair(kv[j])
    ensures r.Success? ==> forall key :: Get(r.value, key) == Lookup(kv, key)
    ensures r.Success? ==> forall key | key in r.value :: IsName(key)
  {
    if |kv| == 0 {
      return Success(map[]);
    }
    var env: map<string, string> := map[];
    for i := 0 to |kv|
      invariant forall j | 0 <= j < i :: ValidPair(kv[j])
      invariant forall key :: Get(env, key) == Lookup(kv[..i], key)
      invariant forall key | key in env :: IsName(key)
    {
      var cut := Cut(kv[i]);
      if cut.None? || cut.value.0 == "" {
        return Failure(kv[i]);
      }
      assert kv[..i + 1][..i] == kv[..i];
      env := env[cut.value.0 := cut.value.1];
    }
    assert kv[..|kv|] == kv;
    return Success(env);
  }

  // ----- Merging -----

  function Entries(m: map<string, string>, order: seq<string>): seq<string>
    requires forall k | k in order :: k in m
  {
    if order == [] then []
    else Entries(m, order[..|order| - 1]) + [Entry(order[|order| - 1], m[order[|order| - 1]])]
  }

  /** An order in which the map may be iterated: each key once. */
  ghost predicate Iterates(m: map<string, string>, order: seq<string>)
  {
    && (forall k :: k in order <==> k in m)
    && (forall i, j | 0 <= i < j < |order| :: order[i] != order[j])
  }

  /** The base, followed by one entry per key of the map, which is iterated in an order that nothing fixes. */
  method MergeEnv(base: seq<string>, extra: map<string, string>) returns (env: seq<string>)
    ensures exists order :: Iterates(extra, order) && env == base + Entries(extra, order)
  {
    env := base;
    ghost var order: seq<string> := [];
    var left := extra.Keys;
    while left != {}
      invariant left <= extra.Keys
      invariant forall k :: k in order <==> k in extra.Keys - left
      invariant forall i, j | 0 <= i < j < |order| :: order[i] != order[j]
      invariant env == base + Entries(extra, order)
    {
      var k :| k in left;
      assert k !in order && (order + [k])[..|order|] == order;
      env := env + [Entry(k, extra[k])];
      order := order + [k];
      left := left - {k};
    }
    assert Iterates(extra, order);
  }

  /** What the merged environment is meant to say. */
  ghost predicate Overrides(base: seq<string>, extra: map<string, string>, env: seq<string>)
  {
    forall key :: Lookup(env, key) == if key in extra then Some(extra[key]) else Lookup(base, key)
  }

  lemma LookupEntry(env: seq<string>, k: string, v: string, key: string)
    requires IsName(k)
    ensures Lookup(env + [Entry(k, v)], key) == if key == k then Some(v) else Lookup(env, key)
  {
    assert (env + [Entry(k, v)])[..|env|] == env;
    CutEntry(k, v);
  }

  lemma {:induction false} LookupInMerged(base: seq<string>, extra: map<string, string>, order: seq<string>, key: string)
    requires forall k | k in order :: k in extra && IsName(k)
    ensures Lookup(base + Entries(extra, order), key) == if key in order then Some(extra[key]) else Lookup(base, key)
  {
    if order == [] {
      assert base + Entries(extra, order) == base;
    } else {
      var n := |order| - 1;
      var k := order[n];
      var init := base + Entries(extra, order[..n]);
      assert base + Entries(extra, order) == init + [Entry(k, extra[k])];
      LookupEntry(init, k, extra[k], key);
      LookupInMerged(base, extra, order[..n], key);
      assert order == order[..n] + [k];
    }
  }

  lemma {:induction false} OnlyNamesAreFound(env: seq<string>, key: string)
    requires !IsName(key)
    ensures Lookup(env, key) == None
  {
    if env != [] {
      OnlyNamesAreFound(env[..|env| - 1], key);
    }
  }

  /** For every base environment and every iteration order, the merged environment overrides the base with
      exactly the supplied values if and only if every supplied key is a name: not empty and without '='. */
  lemma MergeOverridesIff(base: seq<string>, extra: map<string, string>, order: seq<string>)
    requires Iterates(extra, order)
    ensures Overrides(base, extra, base + Entries(extra, order)) <==> forall k | k in extra :: IsName(k)
  {
    var env := base + Entries(extra, order);
    if forall k | k in extra :: IsName(k) {
      forall key
        ensures Lookup(env, key) == if key in extra then Some(extra[key]) else Lookup(base, key)
      {
        LookupInMerged(base, extra, order, key);
      }
    } else {
      var k :| k in extra && !IsName(k);
      OnlyNamesAreFound(env, k);
    }
  }

  /** The harm a key with '=' does: its entry gives another key, the text before the '=', a value that nobody
      supplied for it. */
  lemma KeyWithEqualsSetsAnother(env: seq<string>, name: string, rest: string, v: string)
    requires IsName(name)
    ensures Lookup(env + [Entry(name + "=" + rest, v)], name) == Some(rest + "=" + v)
  {
    assert Entry(name + "=" + rest, v) == Entry(name, rest + "=" + v);
    LookupEntry(env, name, rest + "=" + v, name);
  }

  /** At an input: supplying only the key "A=B" with value "v" sets A to "B=v", over any base. */
  lemma SettingABSetsA(base: seq<string>)
    ensures var extra := map["A=B" := "v"];
            Iterates(extra, ["A=B"]) && "A" !in extra
            && Lookup(base + Entries(extra, ["A=B"]), "A") == Some("B=v")
  {
    var extra := map["A=B" := "v"];
    var order := ["A=B"];
    assert order[..0] == [] && Entries(extra, order) == [] + [Entry("A=B", "v")];
    assert "A" + "=" + "B" == "A=B" && "B" + "=" + "v" == "B=v" && |"A"| != |"A=B"|;
    KeyWithEqualsSetsAnother(base, "A", "B", "v");
  }

  /** From the command line to the process: the last value supplied for a key wins, else the base value. */
  lemma SuppliedValuesReachTheProcess(base: seq<string>, kv: seq<string>, env: map<string, string>, order: seq<string>, key: string)
    requires forall k :: Get(env, k) == Lookup(kv, k)
    requires Iterates(env, order)
    ensures Lookup(base + Entries(env, order), key) == Lookup(base + kv, key)
  {
    forall k | k in env
      ensures IsName(k)
    {
      assert Get(env, k) == Lookup(kv, k);
      if !IsName(k) { OnlyNamesAreFound(kv, k); }
    }
    LookupInMerged(base, env, order, key);
    assert Get(env, key) == Lookup(kv, key);
    LookupAppended(base, kv, key);
  }

  lemma {:induction false} LookupAppended(base: seq<string>, kv: seq<string>, key: string)
    ensures Lookup(base + kv, key) == if Lookup(kv, key).Some? then Lookup(kv, key) else Lookup(base, key)
  {
    if kv == [] {
      assert base + kv == base;
    } else {
      assert (base + kv)[..|base + kv| - 1] == base + kv[..|kv| - 1];
      LookupAppended(base, kv[..|kv| - 1], key);
    }
  }
}
