/**
 * The agent registry: an ordered list of agent records, created with an id
 * and a port pair derived from the current list length, toggled and
 * removed by id, and summarised by the header counters.
 */
module AgentRegistry {
  import opened Text

  datatype AgentStatus = Active | Inactive | Error | Processing

  datatype Framework = Qiskit | Cirq | Qsharp | Quipper | StrawberryFields

  /** A registry record; `lastActivity` is a time stamp in milliseconds. */
  datatype RegistryAgent = RegistryAgent(
    id: string,
    name: string,
    status: AgentStatus,
    bridgePort: int,
    apiPort: int,
    publicUrl: string,
    apiUrl: string,
    framework: Framework,
    lastActivity: int,
    qubits: int,
    operations: int)

  const Host := "https://nanda.media.mit.edu:"

  /** The id given to the record created when the list holds `n` records. */
  function AgentId(n: nat): string
  {
    "agentm" + NatToString(60 + n)
  }

  function BridgePort(n: nat): int { 6000 + 2 * n }

  function ApiPort(n: nat): int { 6001 + 2 * n }

  /** The three records the registry starts with; `now` is the mount time. */
  function SeedAgents(now: int): seq<RegistryAgent>
  {
    [ RegistryAgent("agentm60", "RAVIAN-Qiskit-Alpha", Active, 6000, 6001,
        "https://nanda.media.mit.edu:6000", "https://nanda.media.mit.edu:6001",
        Qiskit, now, 5, 1247),
      RegistryAgent("agentm61", "RAVIAN-Cirq-Beta", Active, 6002, 6003,
        "https://nanda.media.mit.edu:6002", "https://nanda.media.mit.edu:6003",
        Cirq, now - 30000, 8, 892),
      RegistryAgent("agentm62", "RAVIAN-QSharp-Gamma", Processing, 6004, 6005,
        "https://nanda.media.mit.edu:6004", "https://nanda.media.mit.edu:6005",
        Qsharp, now - 60000, 12, 2156) ]
  }

  /** `Math.floor(roll * 20) + 1` for a random `roll` in [0, 1): the qubit count a new record is given. */
  function QubitsFor(roll: real): (q: int)
    requires 0.0 <= roll < 1.0
    ensures 1 <= q <= 20
  {
    (roll * 20.0).Floor + 1
  }

  /** The record created when the list holds `n` records, given the qubit count drawn for it. */
  function NewAgent(n: nat, name: string, fw: Framework, qubits: int, now: int): (a: RegistryAgent)
    requires 1 <= qubits <= 20
    ensures a.id == AgentId(n) && a.name == name && a.framework == fw
    ensures a.bridgePort == BridgePort(n) && a.apiPort == a.bridgePort + 1
    ensures a.publicUrl == Host + NatToString(a.bridgePort)
    ensures a.apiUrl == Host + NatToString(a.apiPort)
    ensures a.status == Inactive && a.operations == 0 && 1 <= a.qubits <= 20
    ensures a.lastActivity == now
  {
    RegistryAgent(AgentId(n), name, Inactive, BridgePort(n), ApiPort(n),
      Host + NatToString(BridgePort(n)), Host + NatToString(ApiPort(n)),
      fw, now, qubits, 0)
  }

  /** The list after `createAgent`: unchanged for a blank name, else one record appended. */
  function Created(agents: seq<RegistryAgent>, name: string, fw: Framework, qubits: int, now: int): seq<RegistryAgent>
    requires 1 <= qubits <= 20
  {
    if Trim(name) == [] then agents else agents + [NewAgent(|agents|, name, fw, qubits, now)]
  }

  /** A create changes the list iff the name holds a character that is not white space. */
  lemma CreateBlankIff(agents: seq<RegistryAgent>, name: string, fw: Framework, qubits: int, now: int)
    requires 1 <= qubits <= 20
    ensures Created(agents, name, fw, qubits, now) == agents <==> IsBlank(name)
    ensures !IsBlank(name) ==> Created(agents, name, fw, qubits, now) == agents + [NewAgent(|agents|, name, fw, qubits, now)]
  {
    TrimEmptyIffBlank(name);
    if !IsBlank(name) {
      assert |Created(agents, name, fw, qubits, now)| == |agents| + 1;
    }
  }

  function Flip(s: AgentStatus): AgentStatus
  {
    if s == Active then Inactive else Active
  }

  /** The list after `toggleAgentStatus(id)` at time `now`. */
  function Toggled(agents: seq<RegistryAgent>, id: string, now: int): (r: seq<RegistryAgent>)
    ensures |r| == |agents|
    ensures forall i :: 0 <= i < |r| && agents[i].id != id ==> r[i] == agents[i]
    ensures forall i :: 0 <= i < |r| && agents[i].id == id ==>
      r[i] == agents[i].(status := if agents[i].status == Active then Inactive else Active, lastActivity := now)
  {
    seq(|agents|, i requires 0 <= i < |agents| =>
      if agents[i].id == id then agents[i].(status := Flip(agents[i].status), lastActivity := now)
      else agents[i])
  }

  /** The list after `removeAgent(id)`. */
  function Removed(agents: seq<RegistryAgent>, id: string): (r: seq<RegistryAgent>)
    ensures |r| <= |agents|
  {
    if agents == [] then []
    else if agents[0].id == id then Removed(agents[1..], id)
    else [agents[0]] + Removed(agents[1..], id)
  }

  // ---- header counters ----

  function ActiveCount(agents: seq<RegistryAgent>): nat
  {
    if agents == [] then 0
    else (if agents[0].status == Active then 1 else 0) + ActiveCount(agents[1..])
  }

  function TotalQubits(agents: seq<RegistryAgent>): int
  {
    if agents == [] then 0 else agents[0].qubits + TotalQubits(agents[1..])
  }

  function TotalOperations(agents: seq<RegistryAgent>): int
  {
    if agents == [] then 0 else agents[0].operations + TotalOperations(agents[1..])
  }

  /** The four header counters: active agents, total qubits, total operations, registered agents. */
  datatype Header = Header(active: nat, qubits: int, operations: int, registered: nat)

  function HeaderOf(agents: seq<RegistryAgent>): (h: Header)
    ensures h.active <= h.registered == |agents|
  {
    ActiveCountBound(agents);
    Header(ActiveCount(agents), TotalQubits(agents), TotalOperations(agents), |agents|)
  }

  lemma {:induction false} ActiveCountBound(agents: seq<RegistryAgent>)
    ensures ActiveCount(agents) <= |agents|
    ensures ActiveCount(agents) == |agents| <==> forall i :: 0 <= i < |agents| ==> agents[i].status == Active
  {
    if agents != [] {
      ActiveCountBound(agents[1..]);
      if ActiveCount(agents) == |agents| {
        forall i | 0 <= i < |agents| ensures agents[i].status == Active {
          if i > 0 { assert agents[i] == agents[1..][i - 1]; }
        }
      }
      if forall i :: 0 <= i < |agents| ==> agents[i].status == Active {
        assert forall i :: 0 <= i < |agents[1..]| ==> agents[1..][i].status == Active by {
          forall i | 0 <= i < |agents[1..]| ensures agents[1..][i].status == Active {
            assert agents[1..][i] == agents[i + 1];
          }
        }
      }
    }
  }

  /** The three list sums split over a concatenation. */
  lemma {:induction false} CountersAppend(a: seq<RegistryAgent>, b: seq<RegistryAgent>)
    ensures ActiveCount(a + b) == ActiveCount(a) + ActiveCount(b)
    ensures TotalQubits(a + b) == TotalQubits(a) + TotalQubits(b)
    ensures TotalOperations(a + b) == TotalOperations(a) + TotalOperations(b)
  {
    if a == [] {
      assert a + b == b;
    } else {
      assert (a + b)[0] == a[0];
      assert (a + b)[1..] == a[1..] + b;
      CountersAppend(a[1..], b);
    }
  }

  /** The header of the seed list. */
  lemma SeedHeader(now: int)
    ensures HeaderOf(SeedAgents(now)) == Header(2, 25, 4295, 3)
  {
    var s := SeedAgents(now);
    var t := s[1..][1..][1..];
    assert t == [];
    assert ActiveCount(s[1..][1..]) == 0 && TotalQubits(s[1..][1..]) == 12 && TotalOperations(s[1..][1..]) == 2156;
    assert ActiveCount(s[1..]) == 1 && TotalQubits(s[1..]) == 20 && TotalOperations(s[1..]) == 3048;
  }

  /**
   * What a create does to the header: one more registered agent, the same
   * number of active agents and operations, and between 1 and 20 more qubits.
   */
  lemma CreateHeader(agents: seq<RegistryAgent>, name: string, fw: Framework, qubits: int, now: int)
    requires 1 <= qubits <= 20 && !IsBlank(name)
    ensures var h, h' := HeaderOf(agents), HeaderOf(Created(agents, name, fw, qubits, now));
      && h'.registered == h.registered + 1
      && h'.active == h.active
      && h'.operations == h.operations
      && h.qubits + 1 <= h'.qubits <= h.qubits + 20
  {
    CreateBlankIff(agents, name, fw, qubits, now);
    AppendHeader(agents, NewAgent(|agents|, name, fw, qubits, now));
  }

  /** Appending an inactive record with no operations and 1..20 qubits. */
  lemma AppendHeader(agents: seq<RegistryAgent>, a: RegistryAgent)
    requires a.status == Inactive && a.operations == 0 && 1 <= a.qubits <= 20
    ensures var h, h' := HeaderOf(agents), HeaderOf(agents + [a]);
      && h'.registered == h.registered + 1
      && h'.active == h.active
      && h'.operations == h.operations
      && h.qubits + 1 <= h'.qubits <= h.qubits + 20
  {
    CountersAppend(agents, [a]);
    assert [a][1..] == [];
  }

  // ---- ids and ports ----

  /** Record `k` carries the id and ports that a create at length `k` assigns. */
  ghost predicate Canonical(agents: seq<RegistryAgent>)
  {
    forall k :: 0 <= k < |agents| ==>
      agents[k].id == AgentId(k) && agents[k].bridgePort == BridgePort(k) && agents[k].apiPort == ApiPort(k)
  }

  /** No two records share an id, and no two ports coincide. */
  ghost predicate AllDistinct(agents: seq<RegistryAgent>)
  {
    && (forall i, j :: 0 <= i < j < |agents| ==> agents[i].id != agents[j].id)
    && (forall i, j :: 0 <= i < |agents| && 0 <= j < |agents| ==> agents[i].bridgePort != agents[j].apiPort)
    && (forall i, j :: 0 <= i < j < |agents| ==>
          agents[i].bridgePort != agents[j].bridgePort && agents[i].apiPort != agents[j].apiPort)
  }

  lemma SeedCanonical(now: int)
    ensures Canonical(SeedAgents(now))
  {
    var s := SeedAgents(now);
    assert NatToString(60) == "60" && NatToString(61) == "61" && NatToString(62) == "62";
    assert s[0].id == AgentId(0) && s[1].id == AgentId(1) && s[2].id == AgentId(2);
  }

  lemma CreatePreservesCanonical(agents: seq<RegistryAgent>, name: string, fw: Framework, qubits: int, now: int)
    requires 1 <= qubits <= 20 && Canonical(agents)
    ensures Canonical(Created(agents, name, fw, qubits, now))
  {
    if Trim(name) != [] {
      CanonicalAppend(agents, NewAgent(|agents|, name, fw, qubits, now));
    }
  }

  lemma CanonicalAppend(agents: seq<RegistryAgent>, a: RegistryAgent)
    requires Canonical(agents)
    requires a.id == AgentId(|agents|) && a.bridgePort == BridgePort(|agents|) && a.apiPort == ApiPort(|agents|)
    ensures Canonical(agents + [a])
  {
    var r := agents + [a];
    assert forall k :: 0 <= k < |agents| ==> r[k] == agents[k];
    assert r[|agents|] == a;
  }

  lemma CanonicalDistinct(agents: seq<RegistryAgent>)
    requires Canonical(agents)
    ensures AllDistinct(agents)
  {
    forall i, j | 0 <= i < j < |agents| ensures agents[i].id != agents[j].id {
      AgentIdInjective(i, j);
    }
  }

  /** Different list lengths give different ids. */
  lemma AgentIdInjective(m: nat, n: nat)
    ensures AgentId(m) == AgentId(n) <==> m == n
  {
    PrefixedNumberInjective("agentm", 60 + m, 60 + n);
  }

  /** One create request: the name in the input, the framework chosen, the qubit count drawn and the time. */
  datatype CreateRequest = CreateRequest(name: string, framework: Framework, qubits: int, now: int)

  ghost predicate ValidRequests(reqs: seq<CreateRequest>)
  {
    forall i :: 0 <= i < |reqs| ==> 1 <= reqs[i].qubits <= 20
  }

  /** The list after a run of creates, in order. */
  function CreateAll(agents: seq<RegistryAgent>, reqs: seq<CreateRequest>): seq<RegistryAgent>
    requires ValidRequests(reqs)
    decreases |reqs|
  {
    if reqs == [] then agents
    else
      var q := reqs[0];
      CreateAll(Created(agents, q.name, q.framework, q.qubits, q.now), reqs[1..])
  }

  /** A run of creates keeps the list it starts from as a prefix and adds at most one record per request. */
  lemma {:induction false} CreateAllExtends(agents: seq<RegistryAgent>, reqs: seq<CreateRequest>)
    requires ValidRequests(reqs)
    ensures var r := CreateAll(agents, reqs);
      |agents| <= |r| <= |agents| + |reqs| && r[..|agents|] == agents
    decreases |reqs|
  {
    if reqs != [] {
      var q := reqs[0];
      var next := Created(agents, q.name, q.framework, q.qubits, q.now);
      CreateAllExtends(next, reqs[1..]);
      var r := CreateAll(next, reqs[1..]);
      assert |agents| <= |next| <= |agents| + 1 && next[..|agents|] == agents;
      assert r[..|agents|] == r[..|next|][..|agents|];
    }
  }

  /** Starting from the seed, any run of creates keeps every id and every port distinct. */
  lemma {:induction false} CreatesKeepDistinct(now: int, reqs: seq<CreateRequest>)
    requires ValidRequests(reqs)
    ensures AllDistinct(CreateAll(SeedAgents(now), reqs))
  {
    SeedCanonical(now);
    CreateAllCanonical(SeedAgents(now), reqs);
    CanonicalDistinct(CreateAll(SeedAgents(now), reqs));
  }

  lemma {:induction false} CreateAllCanonical(agents: seq<RegistryAgent>, reqs: seq<CreateRequest>)
    requires ValidRequests(reqs) && Canonical(agents)
    ensures Canonical(CreateAll(agents, reqs))
    decreases |reqs|
  {
    if reqs != [] {
      var q := reqs[0];
      CreatePreservesCanonical(agents, q.name, q.framework, q.qubits, q.now);
      CreateAllCanonical(Created(agents, q.name, q.framework, q.qubits, q.now), reqs[1..]);
    }
  }

  /**
   * A remove followed by a create can duplicate an id and a port pair:
   * removing agentm60 from the seed leaves two records, so the next create
   * is given agentm62 and ports 6004/6005 again.
   */
  lemma RemoveThenCreateReusesId(now: int)
    ensures var r := Created(Removed(SeedAgents(now), "agentm60"), "RAVIAN-New", Quipper, 1, now);
      && |r| == 3
      && r[1].id == r[2].id == "agentm62"
      && r[1].bridgePort == r[2].bridgePort == 6004
      && r[1].apiPort == r[2].apiPort == 6005
  {
    var s := SeedAgents(now);
    assert s[1..][1..][1..] == [];
    assert s[1..][1..][1..] == [];
    assert Removed(s[1..][1..], "agentm60") == [s[2]];
    assert Removed(s[1..], "agentm60") == [s[1], s[2]];
    assert Removed(s, "agentm60") == [s[1], s[2]];
    assert NatToString(62) == "62";
    assert !IsJsSpace('R');
  }

  // ---- toggle and remove ----

  /** Toggling twice restores an active or inactive record and leaves an error or processing one inactive. */
  lemma ToggleTwice(agents: seq<RegistryAgent>, id: string, t1: int, t2: int)
    ensures var r := Toggled(Toggled(agents, id, t1), id, t2);
      forall i :: 0 <= i < |agents| ==>
        r[i].status == (if agents[i].id != id || agents[i].status in {Active, Inactive} then agents[i].status else Inactive)
  {
  }

  /** A toggle whose id matches no record changes nothing. */
  lemma ToggleUnknown(agents: seq<RegistryAgent>, id: string, now: int)
    requires forall i :: 0 <= i < |agents| ==> agents[i].id != id
    ensures Toggled(agents, id, now) == agents
  {
  }

  /** The records that survive a remove are exactly those with a different id. */
  lemma {:induction false} RemovedMembers(agents: seq<RegistryAgent>, id: string)
    ensures forall x :: x in Removed(agents, id) <==> x in agents && x.id != id
  {
    if agents != [] {
      RemovedMembers(agents[1..], id);
      assert agents == [agents[0]] + agents[1..];
    }
  }

  /** Removing splits over a concatenation, so the survivors keep their relative order. */
  lemma {:induction false} RemovedAppend(a: seq<RegistryAgent>, b: seq<RegistryAgent>, id: string)
    ensures Removed(a + b, id) == Removed(a, id) + Removed(b, id)
  {
    if a == [] {
      assert a + b == b;
    } else {
      assert (a + b)[0] == a[0];
      assert (a + b)[1..] == a[1..] + b;
      RemovedAppend(a[1..], b, id);
    }
  }

  /** A remove whose id matches no record changes nothing; removing twice is removing once. */
  lemma {:induction false} RemovedIdentity(agents: seq<RegistryAgent>, id: string)
    ensures (forall i :: 0 <= i < |agents| ==> agents[i].id != id) ==> Removed(agents, id) == agents
    ensures Removed(Removed(agents, id), id) == Removed(agents, id)
  {
    if agents != [] {
      RemovedIdentity(agents[1..], id);
      if forall i :: 0 <= i < |agents| ==> agents[i].id != id {
        assert forall i :: 0 <= i < |agents[1..]| ==> agents[1..][i].id != id by {
          forall i | 0 <= i < |agents[1..]| ensures agents[1..][i].id != id {
            assert agents[1..][i] == agents[i + 1];
          }
        }
      }
      if agents[0].id != id {
        var r := Removed(agents[1..], id);
        assert ([agents[0]] + r)[0] == agents[0];
        assert ([agents[0]] + r)[1..] == r;
      }
    }
  }

  /** The registry component's state. */
  class Registry {
    var agents: seq<RegistryAgent>
    var newAgentName: string
    var selectedFramework: Framework
    var isCreating: bool

    constructor ()
      ensures agents == [] && newAgentName == "" && selectedFramework == Qiskit && !isCreating
    {
      agents := [];
      newAgentName := "";
      selectedFramework := Qiskit;
      isCreating := false;
    }

    /** The mount effect loading the seed list. */
    method Mount(now: int)
      modifies this`agents
      ensures agents == SeedAgents(now)
    {
      agents := SeedAgents(now);
    }

    method SetName(name: string)
      modifies this`newAgentName
      ensures newAgentName == name
    {
      newAgentName := name;
    }

    method SelectFramework(fw: Framework)
      modifies this`selectedFramework
      ensures selectedFramework == fw
    {
      selectedFramework := fw;
    }

    /**
     * `createAgent`, with the clock and the random draw as parameters:
     * `qubits` is the count `QubitsFor` makes of the roll.
     */
    method CreateAgent(qubits: int, now: int)
      requires 1 <= qubits <= 20
      modifies this
      ensures agents == Created(old(agents), old(newAgentName), old(selectedFramework), qubits, now)
      ensures Trim(old(newAgentName)) == [] ==> newAgentName == old(newAgentName) && isCreating == old(isCreating)
      ensures Trim(old(newAgentName)) != [] ==> newAgentName == "" && !isCreating
      ensures selectedFramework == old(selectedFramework)
    {
      var name := newAgentName;
      if Trim(name) != [] {
        isCreating := true;
        var a := NewAgent(|agents|, name, selectedFramework, qubits, now);
        agents := agents + [a];
        newAgentName := "";
        isCreating := false;
      }
    }

    method ToggleAgentStatus(id: string, now: int)
      modifies this`agents
      ensures agents == Toggled(old(agents), id, now)
    {
      agents := Toggled(agents, id, now);
    }

    method RemoveAgent(id: string)
      modifies this`agents
      ensures agents == Removed(old(agents), id)
    {
      agents := Removed(agents, id);
    }
  }
}
