/**
 * The agent registry: an insertion-ordered dictionary from lookup keys (an
 * agent's name, its role and "@" + its name) to agents. Writing a key that is
 * already bound replaces its value and keeps its position, as a Python dict
 * does; a new key goes at the end.
 */
module AgentRegistry {
  import opened Wrappers
  import opened AgentCore

  /** A Python dict from strings to agents: its bindings and its keys in insertion order. */
  datatype AgentDict = AgentDict(bindings: map<string, Agent>, order: seq<string>)

  predicate DistinctStrings(s: seq<string>) {
    forall i, j :: 0 <= i < j < |s| ==> s[i] != s[j]
  }

  /** The order lists each bound key exactly once. */
  predicate WellFormed(d: AgentDict) {
    DistinctStrings(d.order) && (forall k :: k in d.order ==> k in d.bindings) && (forall k :: k in d.bindings ==> k in d.order)
  }

  const EmptyDict: AgentDict := AgentDict(map[], [])

  /** `agents.get(key)` */
  function Lookup(d: AgentDict, key: string): Option<Agent> {
    if key in d.bindings then Some(d.bindings[key]) else None
  }

  /** `agents[key] = agent` */
  function Put(d: AgentDict, key: string, agent: Agent): (r: AgentDict)
    ensures WellFormed(d) ==> WellFormed(r)
    ensures Lookup(r, key) == Some(agent)
    ensures forall k :: k != key ==> Lookup(r, k) == Lookup(d, k)
    ensures r.order == if key in d.bindings then d.order else d.order + [key]
  {
    AgentDict(d.bindings[key := agent], if key in d.bindings then d.order else d.order + [key])
  }

  /** The values in key order: what `agents.values()` iterates over. */
  function Values(d: AgentDict): (r: seq<Agent>)
    requires WellFormed(d)
    ensures |r| == |d.order|
  {
    seq(|d.order|, i requires 0 <= i < |d.order| && WellFormed(d) => d.bindings[d.order[i]])
  }

  /** The keys `register` writes for an agent, in the order it writes them. */
  function AgentKeys(a: Agent): (keys: seq<string>)
    ensures a.name in keys && a.role in keys && "@" + a.name in keys
  {
    if a.name == "数据可视化专家" then [a.name, a.role, "@" + a.name, "绘画智能体", "@绘画智能体"]
    else [a.name, a.role, "@" + a.name]
  }

  lemma AgentKeysShape(a: Agent)
    ensures AgentKeys(a) == [a.name] + ([a.role] + (["@" + a.name] + AliasKeys(a)))
  {
  }

  /** The extra keys of the visualisation expert, which also answers to the drawing-agent name. */
  function AliasKeys(a: Agent): seq<string> {
    if a.name == "数据可视化专家" then ["绘画智能体", "@绘画智能体"] else []
  }

  /** Writes `agent` under each of `keys` in turn. */
  function PutAll(d: AgentDict, keys: seq<string>, agent: Agent): (r: AgentDict)
    ensures WellFormed(d) ==> WellFormed(r)
    ensures forall k :: k in keys ==> Lookup(r, k) == Some(agent)
    ensures forall k :: k !in keys ==> Lookup(r, k) == Lookup(d, k)
    decreases |keys|
  {
    if |keys| == 0 then d else PutAll(Put(d, keys[0], agent), keys[1..], agent)
  }

  lemma {:induction false} PutAllSnoc(d: AgentDict, keys: seq<string>, key: string, agent: Agent)
    ensures PutAll(d, keys + [key], agent) == Put(PutAll(d, keys, agent), key, agent)
    decreases |keys|
  {
    if |keys| == 0 {
      assert keys + [key] == [key];
      assert PutAll(Put(d, key, agent), [], agent) == Put(d, key, agent);
    } else {
      assert (keys + [key])[1..] == keys[1..] + [key];
      PutAllSnoc(Put(d, keys[0], agent), keys[1..], key, agent);
    }
  }

  /** The dictionary after `AgentRegistry.register(agent)`: its keys written one after another. */
  function Registered(d: AgentDict, agent: Agent): AgentDict {
    var d' := Put(Put(Put(d, agent.name, agent), agent.role, agent), "@" + agent.name, agent);
    if agent.name == "数据可视化专家" then Put(Put(d', "绘画智能体", agent), "@绘画智能体", agent) else d'
  }

  /** Registering writes exactly the agent's keys, in order. */
  lemma RegisteredWritesKeys(d: AgentDict, agent: Agent)
    ensures Registered(d, agent) == PutAll(d, AgentKeys(agent), agent)
  {
    var d1 := Put(d, agent.name, agent);
    var d2 := Put(d1, agent.role, agent);
    var d3 := Put(d2, "@" + agent.name, agent);
    var keys := AgentKeys(agent);
    var rest := AliasKeys(agent);
    AgentKeysShape(agent);
    PutAllCons(d, agent.name, [agent.role] + (["@" + agent.name] + rest), agent);
    PutAllCons(d1, agent.role, ["@" + agent.name] + rest, agent);
    PutAllCons(d2, "@" + agent.name, rest, agent);
    AliasWrites(d3, agent);
  }

  lemma AliasWrites(d: AgentDict, agent: Agent)
    ensures PutAll(d, AliasKeys(agent), agent)
            == if agent.name == "数据可视化专家" then Put(Put(d, "绘画智能体", agent), "@绘画智能体", agent) else d
  {
    if agent.name == "数据可视化专家" {
      assert AliasKeys(agent) == ["绘画智能体"] + ["@绘画智能体"];
      PutAllCons(d, "绘画智能体", ["@绘画智能体"], agent);
      PutAllCons(Put(d, "绘画智能体", agent), "@绘画智能体", [], agent);
    }
  }

  lemma PutAllCons(d: AgentDict, key: string, keys: seq<string>, agent: Agent)
    ensures PutAll(d, [key] + keys, agent) == PutAll(Put(d, key, agent), keys, agent)
  {
    assert ([key] + keys)[1..] == keys;
  }

  /** The dictionary after registering `agents` in order. */
  function RegisterAll(d: AgentDict, agents: seq<Agent>): AgentDict
    decreases |agents|
  {
    if |agents| == 0 then d else Registered(RegisterAll(d, agents[..|agents| - 1]), agents[|agents| - 1])
  }

  /** Registering one more agent of a list registers the list's next prefix. */
  lemma RegisterAllSnoc(d: AgentDict, agents: seq<Agent>, i: nat)
    requires i < |agents|
    ensures RegisterAll(d, agents[..i + 1]) == Registered(RegisterAll(d, agents[..i]), agents[i])
  {
    assert agents[..i + 1][..i] == agents[..i];
  }

  /** `AgentRegistry.get(name)`: the entry for `name`, else the entry for "@" + `name`. */
  function GetFrom(d: AgentDict, name: string): (r: Option<Agent>)
    ensures r.None? <==> name !in d.bindings && "@" + name !in d.bindings
    ensures name in d.bindings ==> r == Some(d.bindings[name])
    ensures name !in d.bindings && "@" + name in d.bindings ==> r == Some(d.bindings["@" + name])
  {
    match Lookup(d, name)
    case Some(a) => Some(a)
    case None => Lookup(d, "@" + name)
  }

  /**
   * After `register(agent)` the agent is found under its name, its role and
   * "@" + its name (and, for the visualisation expert, under the drawing-agent
   * alias), and every other key still finds what it found before.
   */
  lemma RegisterStores(d: AgentDict, agent: Agent)
    ensures GetFrom(Registered(d, agent), agent.name) == Some(agent)
    ensures GetFrom(Registered(d, agent), agent.role) == Some(agent)
    ensures Lookup(Registered(d, agent), "@" + agent.name) == Some(agent)
    ensures agent.name == "数据可视化专家" ==>
              GetFrom(Registered(d, agent), "绘画智能体") == Some(agent)
              && Lookup(Registered(d, agent), "@绘画智能体") == Some(agent)
    ensures forall k :: k !in AgentKeys(agent) ==> Lookup(Registered(d, agent), k) == Lookup(d, k)
  {
    RegisteredWritesKeys(d, agent);
    var keys := AgentKeys(agent);
    if agent.name == "数据可视化专家" {
      assert keys[4] == "@绘画智能体";
    }
  }

  function NameSet(agents: seq<Agent>): set<string> {
    set a | a in agents :: a.name
  }

  lemma NameSetCons(agents: seq<Agent>)
    requires |agents| > 0
    ensures NameSet(agents) == {agents[0].name} + NameSet(agents[1..])
  {
    assert agents == [agents[0]] + agents[1..];
  }

  lemma NameSetAppend(xs: seq<Agent>, ys: seq<Agent>)
    ensures NameSet(xs + ys) == NameSet(xs) + NameSet(ys)
  {
    assert forall a :: a in xs + ys <==> a in xs || a in ys;
  }

  /**
   * The deduplicating walk of `list_agents`: each agent whose name is not yet
   * in `seen` is kept, and its name is then seen.
   */
  function DedupByName(agents: seq<Agent>, seen: set<string>): (r: seq<Agent>)
    ensures forall i :: 0 <= i < |r| ==> r[i] in agents && r[i].name !in seen
    ensures forall i, j :: 0 <= i < j < |r| ==> r[i].name != r[j].name
    ensures NameSet(r) == NameSet(agents) - seen
  {
    if |agents| == 0 then []
    else
      NameSetCons(agents);
      if agents[0].name in seen then DedupByName(agents[1..], seen)
      else
        var rest := DedupByName(agents[1..], seen + {agents[0].name});
        NameSetCons([agents[0]] + rest);
        assert ([agents[0]] + rest)[1..] == rest;
        [agents[0]] + rest
  }

  /** Index of the first agent of `agents` named `name`, or `|agents|` when none is. */
  function FirstNamed(agents: seq<Agent>, name: string): (k: nat)
    ensures k <= |agents|
    ensures k < |agents| ==> agents[k].name == name
    ensures forall j :: 0 <= j < k ==> agents[j].name != name
  {
    if |agents| == 0 then 0
    else if agents[0].name == name then 0
    else 1 + FirstNamed(agents[1..], name)
  }

  /** Each agent of `r` is the first of `agents` with its name, and `r` keeps their order in `agents`. */
  predicate FirstsInOrder(agents: seq<Agent>, r: seq<Agent>) {
    (forall i :: 0 <= i < |r| ==>
       FirstNamed(agents, r[i].name) < |agents| && r[i] == agents[FirstNamed(agents, r[i].name)])
    && (forall i, j :: 0 <= i < j < |r| ==> FirstNamed(agents, r[i].name) < FirstNamed(agents, r[j].name))
  }

  /**
   * The walk keeps, for each name not in `seen`, the first agent carrying
   * it, and keeps them in the order of those first occurrences.
   */
  lemma {:induction false} DedupFirstOccurrences(agents: seq<Agent>, seen: set<string>)
    ensures FirstsInOrder(agents, DedupByName(agents, seen))
    decreases |agents|
  {
    if |agents| > 0 {
      var a := agents[0];
      var seen' := if a.name in seen then seen else seen + {a.name};
      DedupFirstOccurrences(agents[1..], seen');
      var rest := DedupByName(agents[1..], seen');
      FirstsBehindHead(agents, rest);
      if a.name !in seen {
        assert DedupByName(agents, seen) == [a] + rest;
        FirstsWithHead(agents, rest);
      } else {
        assert DedupByName(agents, seen) == rest;
      }
    }
  }

  /** Agents not named like the head keep their first positions, one further on. */
  lemma FirstsBehindHead(agents: seq<Agent>, rest: seq<Agent>)
    requires |agents| > 0 && FirstsInOrder(agents[1..], rest)
    requires forall i :: 0 <= i < |rest| ==> rest[i].name != agents[0].name
    ensures FirstsInOrder(agents, rest)
  {
    forall i | 0 <= i < |rest|
      ensures FirstNamed(agents, rest[i].name) == 1 + FirstNamed(agents[1..], rest[i].name)
    {
    }
  }

  /** The head agent goes first. */
  lemma FirstsWithHead(agents: seq<Agent>, rest: seq<Agent>)
    requires |agents| > 0 && FirstsInOrder(agents, rest)
    requires forall i :: 0 <= i < |rest| ==> rest[i].name != agents[0].name
    ensures FirstsInOrder(agents, [agents[0]] + rest)
  {
    var r := [agents[0]] + rest;
    assert FirstNamed(agents, agents[0].name) == 0;
    forall i | 1 <= i < |r| ensures r[i] == rest[i - 1] && FirstNamed(agents, r[i].name) > 0 {
    }
  }

  /** The deduplicating walk extended by the agent at position `i`. */
  lemma DedupSnoc(agents: seq<Agent>, i: nat)
    requires i < |agents|
    ensures DedupByName(agents[..i + 1], {})
            == DedupByName(agents[..i], {}) + (if agents[i].name in NameSet(agents[..i]) then [] else [agents[i]])
    ensures NameSet(agents[..i + 1]) == NameSet(agents[..i]) + {agents[i].name}
  {
    assert agents[..i + 1] == agents[..i] + [agents[i]];
    DedupAppend(agents[..i], [agents[i]], {});
    NameSetAppend(agents[..i], [agents[i]]);
    assert NameSet([agents[i]]) == {agents[i].name};
    assert [agents[i]][1..] == [];
  }

  lemma {:induction false} DedupAppend(xs: seq<Agent>, ys: seq<Agent>, seen: set<string>)
    ensures DedupByName(xs + ys, seen) == DedupByName(xs, seen) + DedupByName(ys, seen + NameSet(xs))
  {
    if |xs| == 0 {
      assert xs + ys == ys;
      assert NameSet(xs) == {};
      assert seen + NameSet(xs) == seen;
    } else {
      assert (xs + ys)[1..] == xs[1..] + ys;
      assert (xs + ys)[0] == xs[0];
      NameSetCons(xs);
      if xs[0].name in seen {
        DedupAppend(xs[1..], ys, seen);
        assert seen + NameSet(xs[1..]) == seen + NameSet(xs);
      } else {
        DedupAppend(xs[1..], ys, seen + {xs[0].name});
        assert seen + {xs[0].name} + NameSet(xs[1..]) == seen + NameSet(xs);
      }
    }
  }

  function Copies(agent: Agent, n: nat): (r: seq<Agent>)
    ensures |r| == n && forall i :: 0 <= i < n ==> r[i] == agent
  {
    seq(n, _ => agent)
  }

  lemma {:induction false} DedupCopies(agent: Agent, n: nat, seen: set<string>)
    requires n > 0
    ensures DedupByName(Copies(agent, n), seen) == if agent.name in seen then [] else [agent]
    ensures NameSet(Copies(agent, n)) == {agent.name}
  {
    var c := Copies(agent, n);
    assert c[0] == agent && c[1..] == Copies(agent, n - 1);
    NameSetCons(c);
    if n > 1 {
      DedupCopies(agent, n - 1, seen);
      DedupCopies(agent, n - 1, seen + {agent.name});
    } else {
      assert NameSet(c[1..]) == {};
    }
  }

  lemma PutFreshValues(d: AgentDict, key: string, agent: Agent)
    requires WellFormed(d) && key !in d.bindings
    ensures WellFormed(Put(d, key, agent))
    ensures Values(Put(d, key, agent)) == Values(d) + [agent]
  {
    var d' := Put(d, key, agent);
    assert |Values(d')| == |Values(d) + [agent]|;
    forall i | 0 <= i < |d.order| ensures Values(d')[i] == Values(d)[i] {
      assert d.order[i] in d.bindings;
      assert d'.order[i] == d.order[i];
    }
    assert Values(d')[|d.order|] == agent;
  }

  /** Writing fresh, distinct keys appends them, each holding `agent`. */
  lemma {:induction false} PutAllFresh(d: AgentDict, keys: seq<string>, agent: Agent)
    requires WellFormed(d) && DistinctStrings(keys)
    requires forall k :: k in keys ==> k !in d.bindings
    ensures PutAll(d, keys, agent).order == d.order + keys
    ensures Values(PutAll(d, keys, agent)) == Values(d) + Copies(agent, |keys|)
    decreases |keys|
  {
    if |keys| == 0 {
      assert d.order + keys == d.order;
      assert Values(d) + Copies(agent, 0) == Values(d);
    } else {
      var d' := Put(d, keys[0], agent);
      PutFreshValues(d, keys[0], agent);
      FreshTail(d, keys, agent);
      PutAllFresh(d', keys[1..], agent);
      assert PutAll(d, keys, agent) == PutAll(d', keys[1..], agent);
      FreshConcat(d.order, keys, Values(d), agent);
    }
  }

  lemma FreshConcat(order: seq<string>, keys: seq<string>, values: seq<Agent>, agent: Agent)
    requires |keys| > 0
    ensures order + keys == (order + [keys[0]]) + keys[1..]
    ensures values + Copies(agent, |keys|) == (values + [agent]) + Copies(agent, |keys| - 1)
  {
    assert Copies(agent, |keys|) == [agent] + Copies(agent, |keys| - 1);
  }

  lemma FreshTail(d: AgentDict, keys: seq<string>, agent: Agent)
    requires DistinctStrings(keys) && |keys| > 0
    requires forall k :: k in keys ==> k !in d.bindings
    ensures DistinctStrings(keys[1..])
    ensures forall k :: k in keys[1..] ==> k !in Put(d, keys[0], agent).bindings
  {
    forall k | k in keys[1..] ensures k !in Put(d, keys[0], agent).bindings {
      var i :| 0 <= i < |keys[1..]| && keys[1..][i] == k;
      assert keys[i + 1] != keys[0];
    }
    forall i, j | 0 <= i < j < |keys[1..]| ensures keys[1..][i] != keys[1..][j] {
      assert keys[1..][i] == keys[i + 1] && keys[1..][j] == keys[j + 1];
    }
  }

  /** All keys the registration of `agents` writes, in order. */
  function AllKeys(agents: seq<Agent>): seq<string>
    decreases |agents|
  {
    if |agents| == 0 then [] else AllKeys(agents[..|agents| - 1]) + AgentKeys(agents[|agents| - 1])
  }

  lemma {:induction false} KeysInAllKeys(agents: seq<Agent>, j: nat, k: string)
    requires j < |agents| && k in AgentKeys(agents[j])
    ensures k in AllKeys(agents)
    decreases |agents|
  {
    if j < |agents| - 1 {
      KeysInAllKeys(agents[..|agents| - 1], j, k);
    }
  }

  /** Each registered agent repeated once per key it writes: the value list of a registry of fresh keys. */
  function Expanded(agents: seq<Agent>): seq<Agent>
    decreases |agents|
  {
    if |agents| == 0 then [] else Expanded(agents[..|agents| - 1]) + Copies(agents[|agents| - 1], |AgentKeys(agents[|agents| - 1])|)
  }

  lemma DistinctAppend(xs: seq<string>, ys: seq<string>)
    requires DistinctStrings(xs + ys)
    ensures DistinctStrings(xs) && DistinctStrings(ys)
    ensures forall k :: k in ys ==> k !in xs
  {
    var all := xs + ys;
    var n := |xs|;
    forall i, j | 0 <= i < j < n ensures xs[i] != xs[j] {
      assert all[i] == xs[i] && all[j] == xs[j];
    }
    forall i, j | 0 <= i < j < |ys| ensures ys[i] != ys[j] {
      assert all[n + i] == ys[i] && all[n + j] == ys[j];
    }
    forall i, m | 0 <= i < n && 0 <= m < |ys| ensures xs[i] != ys[m] {
      assert all[i] == xs[i] && all[n + m] == ys[m];
    }
  }

  /** Registering agents whose keys are all distinct appends every key, each holding its agent. */
  lemma {:induction false} RegisterAllFresh(agents: seq<Agent>)
    requires DistinctStrings(AllKeys(agents))
    ensures WellFormed(RegisterAll(EmptyDict, agents))
    ensures RegisterAll(EmptyDict, agents).order == AllKeys(agents)
    ensures Values(RegisterAll(EmptyDict, agents)) == Expanded(agents)
    decreases |agents|
  {
    if |agents| == 0 {
      assert Values(EmptyDict) == [];
    } else {
      var prefix := agents[..|agents| - 1];
      var a := agents[|agents| - 1];
      DistinctAppend(AllKeys(prefix), AgentKeys(a));
      RegisterAllFresh(prefix);
      var before := RegisterAll(EmptyDict, prefix);
      assert forall k :: k in AgentKeys(a) ==> k !in before.bindings;
      RegisteredWritesKeys(before, a);
      PutAllFresh(before, AgentKeys(a), a);
    }
  }

  /** The expanded list names exactly the agents. */
  lemma {:induction false} NameSetExpanded(agents: seq<Agent>)
    ensures NameSet(Expanded(agents)) == NameSet(agents)
    decreases |agents|
  {
    if |agents| > 0 {
      var prefix := agents[..|agents| - 1];
      var a := agents[|agents| - 1];
      var copies := Copies(a, |AgentKeys(a)|);
      NameSetExpanded(prefix);
      NameSetAppend(Expanded(prefix), copies);
      DedupCopies(a, |AgentKeys(a)|, {});
      NameSetAppend(prefix, [a]);
      assert agents == prefix + [a];
      assert NameSet([a]) == {a.name};
    }
  }

  /** Deduplicating the expanded list by name gives back agents with distinct names. */
  lemma {:induction false} DedupExpanded(agents: seq<Agent>)
    requires forall i, j :: 0 <= i < j < |agents| ==> agents[i].name != agents[j].name
    ensures DedupByName(Expanded(agents), {}) == agents
    decreases |agents|
  {
    if |agents| > 0 {
      var prefix := agents[..|agents| - 1];
      var a := agents[|agents| - 1];
      var copies := Copies(a, |AgentKeys(a)|);
      var e := Expanded(prefix);
      assert agents == prefix + [a];
      assert Expanded(agents) == e + copies;
      DistinctNamesPrefix(agents);
      DedupExpanded(prefix);
      NameSetExpanded(prefix);
      NameAbsent(agents);
      DedupFreshCopies(e, prefix, a, |AgentKeys(a)|);
    }
  }

  /** Names distinct across a list stay distinct in its prefix. */
  lemma DistinctNamesPrefix(agents: seq<Agent>)
    requires |agents| > 0
    requires forall i, j :: 0 <= i < j < |agents| ==> agents[i].name != agents[j].name
    ensures var prefix := agents[..|agents| - 1];
            forall i, j :: 0 <= i < j < |prefix| ==> prefix[i].name != prefix[j].name
  {
  }

  /** Appending copies of an agent whose name is new adds that agent once to the listing. */
  lemma DedupFreshCopies(e: seq<Agent>, listed: seq<Agent>, a: Agent, n: nat)
    requires n > 0 && DedupByName(e, {}) == listed && NameSet(e) == NameSet(listed)
    requires a.name !in NameSet(listed)
    ensures DedupByName(e + Copies(a, n), {}) == listed + [a]
  {
    DedupAppend(e, Copies(a, n), {});
    assert {} + NameSet(e) == NameSet(listed);
    DedupCopies(a, n, NameSet(listed));
  }

  lemma NameAbsent(agents: seq<Agent>)
    requires |agents| > 0
    requires forall i, j :: 0 <= i < j < |agents| ==> agents[i].name != agents[j].name
    ensures agents[|agents| - 1].name !in NameSet(agents[..|agents| - 1])
  {
    var prefix := agents[..|agents| - 1];
    forall b | b in prefix ensures b.name != agents[|agents| - 1].name {
      var i :| 0 <= i < |prefix| && prefix[i] == b;
      assert agents[i] == b;
    }
  }

  /** After registering agents whose keys are all distinct, each key finds the agent that wrote it. */
  lemma {:induction false} RegisterAllFinds(agents: seq<Agent>)
    requires DistinctStrings(AllKeys(agents))
    ensures forall j, k :: 0 <= j < |agents| && k in AgentKeys(agents[j]) ==>
              Lookup(RegisterAll(EmptyDict, agents), k) == Some(agents[j])
    decreases |agents|
  {
    if |agents| > 0 {
      var prefix := agents[..|agents| - 1];
      var a := agents[|agents| - 1];
      DistinctAppend(AllKeys(prefix), AgentKeys(a));
      RegisterAllFinds(prefix);
      RegisteredWritesKeys(RegisterAll(EmptyDict, prefix), a);
      forall j, k | 0 <= j < |agents| && k in AgentKeys(agents[j])
        ensures Lookup(RegisterAll(EmptyDict, agents), k) == Some(agents[j])
      {
        if j < |agents| - 1 {
          assert agents[j] == prefix[j];
          KeysInAllKeys(prefix, j, k);
        }
      }
    }
  }

  /**
   * Registering agents whose keys are all distinct into an empty registry and
   * listing it gives back exactly those agents in registration order, when
   * their names are distinct; and every key finds the agent that wrote it.
   */
  lemma ListingOfRegistered(agents: seq<Agent>)
    requires DistinctStrings(AllKeys(agents))
    requires forall i, j :: 0 <= i < j < |agents| ==> agents[i].name != agents[j].name
    ensures WellFormed(RegisterAll(EmptyDict, agents)) && RegisterAll(EmptyDict, agents).order == AllKeys(agents)
    ensures DedupByName(Values(RegisterAll(EmptyDict, agents)), {}) == agents
    ensures NameSet(Values(RegisterAll(EmptyDict, agents))) == NameSet(agents)
    ensures forall j, k :: 0 <= j < |agents| && k in AgentKeys(agents[j]) ==>
              Lookup(RegisterAll(EmptyDict, agents), k) == Some(agents[j])
  {
    RegisterAllFresh(agents);
    DedupExpanded(agents);
    NameSetExpanded(agents);
    RegisterAllFinds(agents);
  }

  /** The dictionary a fresh `AgentRegistry()` holds. */
  function DefaultDict(): AgentDict {
    RegisterAll(EmptyDict, DefaultAgents)
  }

  /**
   * The default registry lists the ten agents once each, in registration
   * order, and finds each of them by its name.
   */
  lemma DefaultRegistry()
    ensures WellFormed(DefaultDict())
    ensures DedupByName(Values(DefaultDict()), {}) == DefaultAgents
    ensures forall i :: 0 <= i < |DefaultAgents| ==> GetFrom(DefaultDict(), DefaultAgents[i].name) == Some(DefaultAgents[i])
  {
    DefaultKeysListed();
    ListingOfRegistered(DefaultAgents);
    forall i | 0 <= i < |DefaultAgents|
      ensures GetFrom(DefaultDict(), DefaultAgents[i].name) == Some(DefaultAgents[i])
    {
      assert DefaultAgents[i].name in AgentKeys(DefaultAgents[i]);
    }
  }

  /** The default registry finds the `i`-th default agent by its name. */
  lemma DefaultFinds(i: nat)
    requires i < |DefaultAgents|
    ensures GetFrom(DefaultDict(), DefaultAgents[i].name) == Some(DefaultAgents[i])
  {
    DefaultRegistry();
  }

  /** The drawing-agent alias finds the visualisation expert in the default registry. */
  lemma DefaultDrawingAlias()
    ensures GetFrom(DefaultDict(), "绘画智能体") == Some(DataVisualization)
  {
    DefaultKeysListed();
    RegisterAllFinds(DefaultAgents);
    var expert := DefaultAgents[6];
    assert expert == DataVisualization;
    AgentKeysShape(expert);
    assert "绘画智能体" in AgentKeys(expert);
  }

  /** `k` is `n` characters long and starts with `c0`, `c1`. */
  predicate Sig(k: string, n: nat, c0: char, c1: char) {
    |k| == n && n >= 2 && k[0] == c0 && k[1] == c1
  }

  /**
   * The position in the default team of the agent that writes key `k`, or -1.
   * Length and first two characters tell the 32 default keys apart.
   */
  function KeyOwner(k: string): int {
    if |k| < 2 then -1
    else if Sig(k, 5, '文', '档') || Sig(k, 9, '信', '息') || Sig(k, 6, '@', '文') then 0
    else if Sig(k, 5, '内', '容') || Sig(k, 8, '专', '业') || Sig(k, 6, '@', '内') then 1
    else if Sig(k, 4, '数', '据') || Sig(k, 9, '数', '据') || Sig(k, 5, '@', '数') then 2
    else if Sig(k, 4, '校', '对') || Sig(k, 8, '内', '容') || Sig(k, 5, '@', '校') then 3
    else if Sig(k, 4, '翻', '译') || Sig(k, 10, '专', '业') || Sig(k, 5, '@', '翻') then 4
    else if Sig(k, 3, '合', '规') || Sig(k, 9, '合', '规') || Sig(k, 4, '@', '合') then 5
    else if Sig(k, 7, '数', '据') || Sig(k, 10, '数', '据') || Sig(k, 8, '@', '数') || Sig(k, 5, '绘', '画') || Sig(k, 6, '@', '绘') then 6
    else if Sig(k, 6, '知', '识') || Sig(k, 10, '文', '档') || Sig(k, 7, '@', '知') then 7
    else if Sig(k, 6, '提', '示') || Sig(k, 15, 'P', 'r') || Sig(k, 7, '@', '提') then 8
    else if Sig(k, 3, '协', '调') || Sig(k, 9, '任', '务') || Sig(k, 4, '@', '协') then 9
    else -1
  }

  /** The keys of `a` are distinct and all owned by position `i`. */
  predicate KeysOwnedAt(a: Agent, i: nat) {
    DistinctStrings(AgentKeys(a)) && forall k :: k in AgentKeys(a) ==> KeyOwner(k) == i
  }

  /** Every agent's keys are owned by its own position. */
  predicate OwnedBy(agents: seq<Agent>) {
    forall i :: 0 <= i < |agents| ==> KeysOwnedAt(agents[i], i)
  }

  /** The default team writes no key twice, and its names are distinct. */
  lemma DefaultKeysListed()
    ensures DistinctStrings(AllKeys(DefaultAgents))
    ensures forall i, j :: 0 <= i < j < |DefaultAgents| ==> DefaultAgents[i].name != DefaultAgents[j].name
  {
    DefaultAgentsOwnKeys();
    OwnedKeysDistinct(DefaultAgents);
  }

  lemma DefaultAgentsOwnKeys()
    ensures OwnedBy(DefaultAgents)
  {
    forall i | 0 <= i < |DefaultAgents| ensures KeysOwnedAt(DefaultAgents[i], i) {
      DefaultAgentOwnsKeys(i);
    }
  }

  lemma DefaultAgentOwnsKeys(i: nat)
    requires i < |DefaultAgents|
    ensures KeysOwnedAt(DefaultAgents[i], i)
  {
    if i == 0 { DocumentAnalystOwnsKeys(); }
    else if i == 1 { ContentCreatorOwnsKeys(); }
    else if i == 2 { DataExpertOwnsKeys(); }
    else if i == 3 { EditorOwnsKeys(); }
    else if i == 4 { TranslatorOwnsKeys(); }
    else if i == 5 { ComplianceOwnsKeys(); }
    else if i == 6 { DataVisualizationOwnsKeys(); }
    else if i == 7 { KnowledgeManagerOwnsKeys(); }
    else if i == 8 { PromptEngineerOwnsKeys(); }
    else { CoordinatorOwnsKeys(); }
  }

  lemma DocumentAnalystOwnsKeys() ensures KeysOwnedAt(DocumentAnalyst, 0) { }
  lemma ContentCreatorOwnsKeys() ensures KeysOwnedAt(ContentCreator, 1) { }
  lemma DataExpertOwnsKeys() ensures KeysOwnedAt(DataExpert, 2) { }
  lemma EditorOwnsKeys() ensures KeysOwnedAt(Editor, 3) { }
  lemma TranslatorOwnsKeys() ensures KeysOwnedAt(Translator, 4) { }
  lemma ComplianceOwnsKeys() ensures KeysOwnedAt(Compliance, 5) { }
  lemma DataVisualizationOwnsKeys() ensures KeysOwnedAt(DataVisualization, 6) {
    var keys := AgentKeys(DataVisualization);
    assert keys == ["数据可视化专家", "数据图表与可视化专家", "@" + "数据可视化专家", "绘画智能体", "@绘画智能体"];
    assert KeyOwner(keys[0]) == 6 && KeyOwner(keys[1]) == 6 && KeyOwner(keys[2]) == 6;
    assert KeyOwner(keys[3]) == 6 && KeyOwner(keys[4]) == 6;
  }
  lemma KnowledgeManagerOwnsKeys() ensures KeysOwnedAt(KnowledgeManager, 7) { }
  lemma PromptEngineerOwnsKeys() ensures KeysOwnedAt(PromptEngineer, 8) { }
  lemma CoordinatorOwnsKeys() ensures KeysOwnedAt(Coordinator, 9) { }

  /** Keys that each name their writer's position cannot be written by two agents. */
  lemma {:induction false} OwnedKeysDistinct(agents: seq<Agent>)
    requires OwnedBy(agents)
    ensures DistinctStrings(AllKeys(agents))
    decreases |agents|
  {
    if |agents| > 0 {
      var prefix := agents[..|agents| - 1];
      var last := agents[|agents| - 1];
      assert agents == prefix + [last];
      OwnedPrefix(prefix, last);
      OwnedKeysDistinct(prefix);
      forall k | k in AgentKeys(last) ensures k !in AllKeys(prefix) {
        OwnedKeyBound(prefix, k);
      }
      DistinctConcat(AllKeys(prefix), AgentKeys(last));
    }
  }

  lemma OwnedPrefix(prefix: seq<Agent>, last: Agent)
    requires OwnedBy(prefix + [last])
    ensures OwnedBy(prefix) && KeysOwnedAt(last, |prefix|)
  {
    assert (prefix + [last])[|prefix|] == last;
    forall i | 0 <= i < |prefix| ensures KeysOwnedAt(prefix[i], i) {
      assert (prefix + [last])[i] == prefix[i];
    }
  }

  lemma {:induction false} OwnedKeyBound(agents: seq<Agent>, k: string)
    requires OwnedBy(agents)
    ensures k in AllKeys(agents) ==> 0 <= KeyOwner(k) < |agents|
    decreases |agents|
  {
    if |agents| > 0 {
      var prefix := agents[..|agents| - 1];
      assert agents == prefix + [agents[|agents| - 1]];
      OwnedPrefix(prefix, agents[|agents| - 1]);
      OwnedKeyBound(prefix, k);
    }
  }

  lemma DistinctConcat(xs: seq<string>, ys: seq<string>)
    requires DistinctStrings(xs) && DistinctStrings(ys)
    requires forall k :: k in ys ==> k !in xs
    ensures DistinctStrings(xs + ys)
  {
    var all := xs + ys;
    forall i, j | 0 <= i < j < |all| ensures all[i] != all[j] {
      if j < |xs| {
        assert all[i] == xs[i] && all[j] == xs[j];
      } else if i < |xs| {
        assert all[i] == xs[i] && all[j] == ys[j - |xs|];
        assert ys[j - |xs|] in ys;
      } else {
        assert all[i] == ys[i - |xs|] && all[j] == ys[j - |xs|];
      }
    }
  }

  /** `AgentRegistry`: the registry object and the dictionary it holds. */
  class Registry {
    var agents: AgentDict

    ghost predicate Valid()
      reads this
    {
      WellFormed(agents)
    }

    /** `AgentRegistry()`: registers the ten default agents in order. */
    constructor()
      ensures Valid() && agents == DefaultDict()
    {
      agents := EmptyDict;
      new;
      RegisterAgents(DefaultAgents);
    }

    /** `_register_default_agents`' loop: each agent of `team` is registered in turn. */
    method RegisterAgents(team: seq<Agent>)
      requires Valid()
      modifies this
      ensures Valid() && agents == RegisterAll(old(agents), team)
    {
      ghost var start := agents;
      var i := 0;
      while i < |team|
        invariant 0 <= i <= |team|
        invariant Valid() && agents == RegisterAll(start, team[..i])
      {
        Register(team[i]);
        RegisterAllSnoc(start, team, i);
        i := i + 1;
      }
      assert team[..i] == team;
    }

    /** `register(agent)`: binds the agent under each of its keys in turn. */
    method Register(agent: Agent)
      requires Valid()
      modifies this
      ensures Valid() && agents == Registered(old(agents), agent)
    {
      agents := Put(agents, agent.name, agent);
      agents := Put(agents, agent.role, agent);
      agents := Put(agents, "@" + agent.name, agent);
      if agent.name == "数据可视化专家" {
        agents := Put(agents, "绘画智能体", agent);
        agents := Put(agents, "@绘画智能体", agent);
      }
    }

    /** `get(name)` */
    function Get(name: string): (r: Option<Agent>)
      reads this
      ensures r == GetFrom(agents, name)
    {
      match Lookup(agents, name)
      case Some(a) => Some(a)
      case None => Lookup(agents, "@" + name)
    }

    /** `list_agents()`: each registered agent once, by name, in dictionary order. */
    method ListAgents() returns (r: seq<Agent>)
      requires Valid()
      ensures r == DedupByName(Values(agents), {})
    {
      ghost var values := Values(agents);
      var seen: set<string> := {};
      r := [];
      var i := 0;
      while i < |agents.order|
        invariant 0 <= i <= |agents.order|
        invariant r == DedupByName(values[..i], {}) && seen == NameSet(values[..i])
      {
        var agent := agents.bindings[agents.order[i]];
        assert agent == values[i];
        DedupSnoc(values, i);
        if agent.name !in seen {
          seen := seen + {agent.name};
          r := r + [agent];
        }
        i := i + 1;
      }
      assert values[..i] == values;
    }
  }
}
