/**
 * The backend console: the process roster derived from the configuration,
 * stop and two-phase start by id, the deploy log, the generated start
 * script and the header counters.
 */
module NandaBackend {
  import opened Text

  datatype BackendConfig = BackendConfig(
    anthropicApiKey: string,
    agentIdPrefix: string,
    domainName: string,
    registryUrl: string,
    numAgents: int,
    mongoUrl: string)

  const DefaultConfig := BackendConfig(
    "", "6", "nanda.media.mit.edu", "https://nanda-registry.com:6900", 3,
    "mongodb://localhost:27017/ravian_quantum")

  datatype ProcessStatus = Running | Stopped | Failed | Starting

  datatype BackendStatus = Offline | Connecting | Online

  datatype AgentProcess = AgentProcess(
    id: string,
    pid: int,
    bridgePort: int,
    apiPort: int,
    status: ProcessStatus,
    publicUrl: string,
    apiUrl: string,
    logs: seq<string>)

  // ---- roster ----

  /** The length `Array.from` gives a roster: a negative count yields none. */
  function RosterLength(numAgents: int): nat
  {
    if numAgents < 0 then 0 else numAgents
  }

  /**
   * Entry `i` of the roster; `stamp(i, j)` is the ISO time written in front
   * of its `j`-th start-up log line.
   */
  function RosterEntry(c: BackendConfig, i: nat, stamp: (nat, nat) -> string): (p: AgentProcess)
    ensures p.id == "agentm" + c.agentIdPrefix + NatToString(i)
    ensures p.pid == 12000 + i && p.status == Running
    ensures p.bridgePort == 6000 + 2 * i && p.apiPort == p.bridgePort + 1
    ensures p.publicUrl == "http://198.51.100.1:" + NatToString(p.bridgePort)
    ensures p.apiUrl == "https://" + c.domainName + ":" + NatToString(p.apiPort)
    ensures |p.logs| == 4
  {
    AgentProcess(
      "agentm" + c.agentIdPrefix + NatToString(i),
      12000 + i,
      6000 + 2 * i,
      6001 + 2 * i,
      Running,
      "http://198.51.100.1:" + NatToString(6000 + 2 * i),
      "https://" + c.domainName + ":" + NatToString(6001 + 2 * i),
      StartupLogs(i, stamp))
  }

  /** The four start-up log lines of entry `i`, each behind its bracketed time. */
  function StartupLogs(i: nat, stamp: (nat, nat) -> string): (ls: seq<string>)
    ensures |ls| == 4
  {
    [ "[" + stamp(i, 0) + "] Agent " + NatToString(i) + " initialized",
      "[" + stamp(i, 1) + "] SSL certificates loaded",
      "[" + stamp(i, 2) + "] Connected to registry",
      "[" + stamp(i, 3) + "] Quantum framework loaded" ]
  }

  /** The roster the configuration effect installs. */
  function Roster(c: BackendConfig, stamp: (nat, nat) -> string): (r: seq<AgentProcess>)
    ensures |r| == RosterLength(c.numAgents)
    ensures forall i :: 0 <= i < |r| ==> r[i] == RosterEntry(c, i, stamp)
  {
    seq(RosterLength(c.numAgents), i requires 0 <= i => RosterEntry(c, i, stamp))
  }

  /** No port is used twice in a roster: bridge ports, api ports, and the two kinds against each other. */
  lemma RosterPortsDistinct(c: BackendConfig, stamp: (nat, nat) -> string)
    ensures var r := Roster(c, stamp);
      && (forall i, j :: 0 <= i < j < |r| ==> r[i].bridgePort != r[j].bridgePort && r[i].apiPort != r[j].apiPort)
      && (forall i, j :: 0 <= i < |r| && 0 <= j < |r| ==> r[i].bridgePort != r[j].apiPort)
  {
  }

  /** The ports a list of processes occupies, each entry's bridge port then its api port. */
  function PortList(r: seq<AgentProcess>): (ps: seq<int>)
    ensures |ps| == 2 * |r|
  {
    if r == [] then [] else [r[0].bridgePort, r[0].apiPort] + PortList(r[1..])
  }

  /** Entry i holding the port pair base+2i, base+2i+1 makes the list occupy base, base+1, .. in order. */
  lemma {:induction false} PairedPorts(r: seq<AgentProcess>, base: int)
    requires forall i :: 0 <= i < |r| ==> r[i].bridgePort == base + 2 * i && r[i].apiPort == base + 2 * i + 1
    ensures forall k :: 0 <= k < |PortList(r)| ==> PortList(r)[k] == base + k
  {
    if r != [] {
      assert forall i :: 0 <= i < |r[1..]| ==> r[1..][i] == r[i + 1];
      PairedPorts(r[1..], base + 2);
      var ps := PortList(r);
      assert ps == [r[0].bridgePort, r[0].apiPort] + PortList(r[1..]);
      forall k | 2 <= k < |ps| ensures ps[k] == base + k {
        assert ps[k] == PortList(r[1..])[k - 2];
      }
    }
  }

  /**
   * A roster of n entries occupies the 2n ports 6000 .. 6000+2n-1, each once,
   * as many as the "Active Ports" counter shows.
   */
  lemma RosterPortCount(c: BackendConfig, stamp: (nat, nat) -> string)
    ensures var ps := PortList(Roster(c, stamp));
      && |ps| == ActivePorts(Roster(c, stamp))
      && (forall k :: 0 <= k < |ps| ==> ps[k] == 6000 + k)
  {
    PairedPorts(Roster(c, stamp), 6000);
  }

  /** No two roster entries share an id, and no two share an api URL. */
  lemma RosterIdsDistinct(c: BackendConfig, stamp: (nat, nat) -> string)
    ensures var r := Roster(c, stamp);
      forall i, j :: 0 <= i < j < |r| ==> r[i].id != r[j].id && r[i].apiUrl != r[j].apiUrl
  {
    RosterNumbering(c, stamp);
    NumberedDistinct(Roster(c, stamp), "agentm" + c.agentIdPrefix, "https://" + c.domainName + ":");
  }

  /** Entry i's id ends in i and its api URL in its api port 6001+2i. */
  lemma RosterNumbering(c: BackendConfig, stamp: (nat, nat) -> string)
    ensures var r := Roster(c, stamp);
      forall i :: 0 <= i < |r| ==>
        && r[i].id == "agentm" + c.agentIdPrefix + NatToString(i)
        && r[i].apiUrl == "https://" + c.domainName + ":" + NatToString(6001 + 2 * i)
  {
  }

  /** Entries whose id and api URL end in their own index, resp. their own api port, are told apart by both. */
  lemma NumberedDistinct(r: seq<AgentProcess>, idPrefix: string, host: string)
    requires forall i :: 0 <= i < |r| ==>
      r[i].id == idPrefix + NatToString(i) && r[i].apiUrl == host + NatToString(6001 + 2 * i)
    ensures forall i, j :: 0 <= i < j < |r| ==> r[i].id != r[j].id && r[i].apiUrl != r[j].apiUrl
  {
    forall i, j | 0 <= i < j < |r| ensures r[i].id != r[j].id && r[i].apiUrl != r[j].apiUrl {
      PrefixedNumberInjective(idPrefix, i, j);
      PrefixedNumberInjective(host, 6001 + 2 * i, 6001 + 2 * j);
    }
  }

  // ---- counters ----

  function RunningCount(r: seq<AgentProcess>): nat
  {
    if r == [] then 0 else (if r[0].status == Running then 1 else 0) + RunningCount(r[1..])
  }

  /** The "Active Ports" counter: two per listed process. */
  function ActivePorts(r: seq<AgentProcess>): (n: nat)
    ensures n % 2 == 0
  {
    2 * |r|
  }

  /** A fresh roster is all running. */
  lemma {:induction false} RosterAllRunning(c: BackendConfig, stamp: (nat, nat) -> string)
    ensures RunningCount(Roster(c, stamp)) == RosterLength(c.numAgents)
  {
    AllRunningCount(Roster(c, stamp));
  }

  lemma {:induction false} AllRunningCount(r: seq<AgentProcess>)
    requires forall i :: 0 <= i < |r| ==> r[i].status == Running
    ensures RunningCount(r) == |r|
  {
    if r != [] {
      assert forall i :: 0 <= i < |r[1..]| ==> r[1..][i] == r[i + 1];
      AllRunningCount(r[1..]);
    }
  }

  // ---- stop and start ----

  /** The list with every entry whose id matches given status `s`. */
  function WithStatus(r: seq<AgentProcess>, id: string, s: ProcessStatus): (r': seq<AgentProcess>)
    ensures |r'| == |r|
    ensures forall i :: 0 <= i < |r| ==>
      if r[i].id == id then r'[i] == r[i].(status := s) else r'[i] == r[i]
  {
    seq(|r|, i requires 0 <= i < |r| => if r[i].id == id then r[i].(status := s) else r[i])
  }

  /** Running entries with the given id. */
  function RunningWith(r: seq<AgentProcess>, id: string): nat
  {
    if r == [] then 0
    else (if r[0].status == Running && r[0].id == id then 1 else 0) + RunningWith(r[1..], id)
  }

  /** A stop takes exactly the running entries with that id off the "Running Agents" counter. */
  lemma {:induction false} StopRunningCount(r: seq<AgentProcess>, id: string)
    ensures RunningCount(WithStatus(r, id, Stopped)) == RunningCount(r) - RunningWith(r, id)
  {
    if r != [] {
      StopRunningCount(r[1..], id);
      assert WithStatus(r, id, Stopped)[1..] == WithStatus(r[1..], id, Stopped);
    }
  }

  /** A later status write to the same id overrides an earlier one. */
  lemma StatusOverwrite(r: seq<AgentProcess>, id: string, s1: ProcessStatus, s2: ProcessStatus)
    ensures WithStatus(WithStatus(r, id, s1), id, s2) == WithStatus(r, id, s2)
  {
  }

  /**
   * The delayed phase of a start rebuilds the list from the snapshot taken
   * when the start was requested, so a stop of another entry issued during
   * the delay is undone.
   */
  lemma StaleStartUndoesStop(r: seq<AgentProcess>, id: string, other: string, k: nat)
    requires k < |r| && r[k].id == other && other != id && r[k].status == Running
    ensures var during := WithStatus(WithStatus(r, id, Starting), other, Stopped);
      var after := WithStatus(r, id, Running);
      during[k].status == Stopped && after[k].status == Running
  {
  }

  /** A start request waiting for its delayed phase: the list as it was, and the id. */
  datatype PendingStart = PendingStart(snapshot: seq<AgentProcess>, id: string)

  // ---- deploy ----

  const DeployStart := "Iniciando deploy do backend RAVIAN Quantum..."

  const DeploySteps: seq<string> := [
    "Verificando dependências Python (flask, anthropic, pymongo)...",
    "Configurando ambiente virtual /opt/internet_of_agents/venv...",
    "Validando certificados SSL Let's Encrypt...",
    "Detectando IP público do servidor...",
    "Criando configuração /etc/internet_of_agents.env...",
    "Iniciando agentes RAVIAN com portas dinâmicas...",
    "Registrando agentes no Nanda Registry...",
    "Configurando comunicação inter-agentes...",
    "Inicializando MongoDB para persistência...",
    "Deploy concluído! Agentes rodando com SSL."
  ]

  // ---- start script ----

  /** The fixed lines above the export block. */
  function HeadLines(): (ls: seq<string>)
    ensures |ls| == 5
  {
    seq(5, k requires 0 <= k < 5 => HeadLine(k))
  }

  /** Line `k` of the fixed head. */
  function HeadLine(k: nat): string
    requires k < 5
  {
    match k
    case 0 => "#!/bin/bash"
    case 1 => "# RAVIAN Quantum - Nanda Integration Script"
    case 2 => "source /opt/internet_of_agents/venv/bin/activate"
    case 3 => ""
    case 4 => "# Environment Configuration"
  }

  /** The fixed lines below the export block: SSL paths and the start-up loop. */
  function TailLines(): (ls: seq<string>)
    ensures |ls| == 37
  {
    seq(37, k requires 0 <= k < 37 => TailLine(k))
  }

  /** Line `k` of the fixed tail. */
  function TailLine(k: nat): string
    requires k < 37
  {
    match k
    case 0 => ""
    case 1 => "# SSL Configuration"
    case 2 => "CERT_PATH=\"/etc/letsencrypt/live/${DOMAIN_NAME}/fullchain.pem\""
    case 3 => "KEY_PATH=\"/etc/letsencrypt/live/${DOMAIN_NAME}/privkey.pem\""
    case 4 => ""
    case 5 => "# Start RAVIAN Quantum Agents"
    case 6 => "START_BRIDGE_PORT=6000"
    case 7 => "START_API_PORT=6001"
    case 8 => ""
    case 9 => "mkdir -p logs"
    case 10 => ""
    case 11 => "for ((i=0; i<NUM_AGENTS; i++)); do"
    case 12 => "    AGENT_ID=\"agentm${AGENT_ID_PREFIX}$((i))\""
    case 13 => "    BRIDGE_PORT=$((START_BRIDGE_PORT + i*2))"
    case 14 => "    API_PORT=$((START_API_PORT + i*2))"
    case 15 => "    "
    case 16 => "    PUBLIC_URL=\"http://$(curl -s checkip.amazonaws.com):$BRIDGE_PORT\""
    case 17 => "    API_URL=\"https://${DOMAIN_NAME}:$API_PORT\""
    case 18 => "    "
    case 19 => "    echo \"Starting $AGENT_ID - Bridge: $BRIDGE_PORT, API: $API_PORT\""
    case 20 => "    "
    case 21 => "    nohup python3 -u ravian_quantum_agent.py \\"
    case 22 => "        --id \"$AGENT_ID\" \\"
    case 23 => "        --bridge-port \"$BRIDGE_PORT\" \\"
    case 24 => "        --api-port \"$API_PORT\" \\"
    case 25 => "        --public-url \"$PUBLIC_URL\" \\"
    case 26 => "        --api-url \"$API_URL\" \\"
    case 27 => "        --registry \"$REGISTRY_URL\" \\"
    case 28 => "        --ssl --cert \"$CERT_PATH\" --key \"$KEY_PATH\" \\"
    case 29 => "        --quantum-framework \"multi\" \\"
    case 30 => "        --mongo-url \"$MONGO_URL\" \\"
    case 31 => "        > \"logs/${AGENT_ID}_logs.txt\" 2>&1 &"
    case 32 => "    "
    case 33 => "    echo \"$!\" > \"logs/${AGENT_ID}.pid\""
    case 34 => "    sleep 2"
    case 35 => "done"
    case 36 => ""
  }

  /** The last line of the script, which has no newline after it. */
  const FinalLine := "echo \"RAVIAN Quantum agents deployed successfully!\""

  /** The six `export` lines, each configuration field substituted verbatim. */
  function ExportLines(c: BackendConfig): (ls: seq<string>)
    ensures |ls| == 6
  {
    [ "export ANTHROPIC_API_KEY=\"" + c.anthropicApiKey + "\"",
      "export AGENT_ID_PREFIX=\"" + c.agentIdPrefix + "\"",
      "export DOMAIN_NAME=\"" + c.domainName + "\"",
      "export REGISTRY_URL=\"" + c.registryUrl + "\"",
      "export NUM_AGENTS=" + IntToString(c.numAgents),
      "export MONGO_URL=\"" + c.mongoUrl + "\"" ]
  }

  /** Lines, each followed by a newline. */
  function Join(ls: seq<string>): string
  {
    if ls == [] then "" else ls[0] + "\n" + Join(ls[1..])
  }

  /** Where line `j` starts in `Join(ls)`. */
  function Offset(ls: seq<string>, j: nat): nat
    requires j <= |ls|
  {
    if j == 0 then 0 else |ls[0]| + 1 + Offset(ls[1..], j - 1)
  }

  /** All lines of the script but the last: head, export block, tail. */
  function ScriptLines(c: BackendConfig): (ls: seq<string>)
    ensures |ls| == |HeadLines()| + 6 + |TailLines()|
    ensures ls[..|HeadLines()|] == HeadLines()
    ensures forall j :: 0 <= j < 6 ==> ls[|HeadLines()| + j] == ExportLines(c)[j]
    ensures ls[|HeadLines()| + 6..] == TailLines()
  {
    HeadLines() + ExportLines(c) + TailLines()
  }

  /** `generateStartScript`: the template with the configuration substituted into the export block. */
  function StartScript(c: BackendConfig): string
  {
    Join(ScriptLines(c)) + FinalLine
  }

  /** `line` is a whole line of `s`: a newline before it and one after it. */
  ghost predicate IsLineOf(line: string, s: string)
  {
    exists k: nat :: 0 < k && k <= |s| && s[k - 1] == '\n' && OccursAt(line + "\n", s, k)
  }

  lemma {:induction false} LineInJoin(ls: seq<string>, j: nat)
    requires j < |ls|
    ensures OccursAt(ls[j] + "\n", Join(ls), Offset(ls, j))
    ensures j > 0 ==> Offset(ls, j) <= |Join(ls)| && Join(ls)[Offset(ls, j) - 1] == '\n'
  {
    var first := ls[0] + "\n";
    var rest := Join(ls[1..]);
    assert Join(ls) == first + rest;
    if j == 0 {
      assert (first + rest)[..|first|] == first;
    } else {
      LineInJoin(ls[1..], j - 1);
      assert ls[1..][j - 1] == ls[j];
      ShiftLine(first, rest, ls[j] + "\n", Offset(ls[1..], j - 1));
    }
  }

  /** An occurrence at a line start of `mid` is one at a line start of `head + mid` when `head` ends a line. */
  lemma ShiftLine(head: string, mid: string, w: string, o: nat)
    requires |head| > 0 && head[|head| - 1] == '\n'
    requires OccursAt(w, mid, o) && (o > 0 ==> mid[o - 1] == '\n')
    ensures var s := head + mid;
      0 < |head| + o <= |s| && s[|head| + o - 1] == '\n' && OccursAt(w, s, |head| + o)
  {
    var s := head + mid;
    assert s[|head| + o..|head| + o + |w|] == mid[o..o + |w|];
    if o > 0 {
      assert s[|head| + o - 1] == mid[o - 1];
    } else {
      assert s[|head| - 1] == head[|head| - 1];
    }
  }

  /** Every line but the first of a joined block stays a whole line when more text follows. */
  lemma LineInText(ls: seq<string>, j: nat, last: string)
    requires 0 < j < |ls|
    ensures IsLineOf(ls[j], Join(ls) + last)
  {
    LineInJoin(ls, j);
    var t, k, w := Join(ls), Offset(ls, j), ls[j] + "\n";
    OccursInLonger(w, t, last, k);
    assert (t + last)[k - 1] == t[k - 1];
    assert 0 < k <= |t + last| && (t + last)[k - 1] == '\n' && OccursAt(w, t + last, k);
  }

  /** An occurrence in `t` is one in any extension of `t`. */
  lemma OccursInLonger(w: string, t: string, last: string, k: nat)
    requires OccursAt(w, t, k)
    ensures OccursAt(w, t + last, k)
  {
    assert (t + last)[k..k + |w|] == t[k..k + |w|];
  }

  /** Joining a concatenation joins the parts. */
  lemma {:induction false} JoinAppend(a: seq<string>, b: seq<string>)
    ensures Join(a + b) == Join(a) + Join(b)
  {
    if a != [] {
      assert (a + b)[1..] == a[1..] + b;
      JoinAppend(a[1..], b);
    } else {
      assert a + b == b;
    }
  }

  /** Every `export` line appears as a whole line of the start script. */
  lemma StartScriptExports(c: BackendConfig)
    ensures forall j :: 0 <= j < 6 ==> IsLineOf(ExportLines(c)[j], StartScript(c))
  {
    var ls := ScriptLines(c);
    forall j | 0 <= j < 6 ensures IsLineOf(ExportLines(c)[j], StartScript(c)) {
      LineInText(ls, |HeadLines()| + j, FinalLine);
    }
  }

  /** Each configuration field is written verbatim into its own line, quoted except the agent count. */
  lemma StartScriptFields(c: BackendConfig)
    ensures IsLineOf("export ANTHROPIC_API_KEY=\"" + c.anthropicApiKey + "\"", StartScript(c))
    ensures IsLineOf("export AGENT_ID_PREFIX=\"" + c.agentIdPrefix + "\"", StartScript(c))
    ensures IsLineOf("export DOMAIN_NAME=\"" + c.domainName + "\"", StartScript(c))
    ensures IsLineOf("export REGISTRY_URL=\"" + c.registryUrl + "\"", StartScript(c))
    ensures IsLineOf("export NUM_AGENTS=" + IntToString(c.numAgents), StartScript(c))
    ensures IsLineOf("export MONGO_URL=\"" + c.mongoUrl + "\"", StartScript(c))
  {
    StartScriptExports(c);
    var e := ExportLines(c);
    assert IsLineOf(e[0], StartScript(c)) && IsLineOf(e[1], StartScript(c)) && IsLineOf(e[2], StartScript(c));
    assert IsLineOf(e[3], StartScript(c)) && IsLineOf(e[4], StartScript(c)) && IsLineOf(e[5], StartScript(c));
  }

  /** The script depends on the configuration only through its export lines. */
  lemma StartScriptFrame(c1: BackendConfig, c2: BackendConfig)
    ensures Join(ExportLines(c1)) == Join(ExportLines(c2)) ==> StartScript(c1) == StartScript(c2)
    ensures StartScript(c1) == StartScript(c2) ==> Join(ExportLines(c1)) == Join(ExportLines(c2))
  {
    ScriptText(c1);
    ScriptText(c2);
    SameFrame(Join(HeadLines()), Join(ExportLines(c1)), Join(ExportLines(c2)), Join(TailLines()), FinalLine);
  }

  /** The script as the joined head, the joined export block, the joined tail and the last line. */
  lemma ScriptText(c: BackendConfig)
    ensures StartScript(c) == Join(HeadLines()) + Join(ExportLines(c)) + Join(TailLines()) + FinalLine
  {
    var h, e, t := HeadLines(), ExportLines(c), TailLines();
    assert ScriptLines(c) == (h + e) + t;
    JoinAppend(h + e, t);
    JoinAppend(h, e);
  }

  /** Between a fixed head and a fixed two-part tail, the texts are equal exactly when their middles are. */
  lemma SameFrame(head: string, m1: string, m2: string, t1: string, t2: string)
    ensures head + m1 + t1 + t2 == head + m2 + t1 + t2 <==> m1 == m2
  {
    if head + m1 + t1 + t2 == head + m2 + t1 + t2 {
      var s := head + m1 + t1 + t2;
      assert |m1| == |m2|;
      assert s[|head|..|head| + |m1|] == m1;
      assert (head + m2 + t1 + t2)[|head|..|head| + |m2|] == m2;
    }
  }

  /** With the default configuration the agent count is written unquoted as 3. */
  lemma DefaultScriptCount()
    ensures IsLineOf("export NUM_AGENTS=3", StartScript(DefaultConfig))
  {
    DefaultCountLine();
    StartScriptExports(DefaultConfig);
  }

  /** The default count line. */
  lemma DefaultCountLine()
    ensures ExportLines(DefaultConfig)[4] == "export NUM_AGENTS=3"
  {
    assert NatToString(3) == "3";
  }

  /** The backend console's state. */
  class Backend {
    var config: BackendConfig
    var agents: seq<AgentProcess>
    var logs: seq<string>
    var isDeploying: bool
    var backendStatus: BackendStatus

    /** The state after mounting: default configuration and the roster it derives. */
    constructor (stamp: (nat, nat) -> string)
      ensures config == DefaultConfig && agents == Roster(DefaultConfig, stamp)
      ensures logs == [] && !isDeploying && backendStatus == Online
    {
      config := DefaultConfig;
      agents := Roster(DefaultConfig, stamp);
      logs := [];
      isDeploying := false;
      backendStatus := Online;
    }

    /**
     * A configuration edit; the roster is re-derived only when the count,
     * the prefix or the domain changed.
     */
    method SetConfig(c: BackendConfig, stamp: (nat, nat) -> string)
      modifies this
      ensures config == c
      ensures var changed := c.numAgents != old(config.numAgents) || c.agentIdPrefix != old(config.agentIdPrefix)
          || c.domainName != old(config.domainName);
        && (changed ==> agents == Roster(c, stamp) && backendStatus == Online)
        && (!changed ==> agents == old(agents) && backendStatus == old(backendStatus))
      ensures logs == old(logs) && isDeploying == old(isDeploying)
    {
      var changed := c.numAgents != config.numAgents || c.agentIdPrefix != config.agentIdPrefix
        || c.domainName != config.domainName;
      config := c;
      if changed {
        agents := Roster(c, stamp);
        backendStatus := Online;
      }
    }

    method StopAgent(id: string)
      modifies this`agents
      ensures agents == WithStatus(old(agents), id, Stopped)
    {
      agents := WithStatus(agents, id, Stopped);
    }

    /** The first phase of `startAgent`; the second phase is `CompleteStart(pending)`. */
    method StartAgent(id: string) returns (pending: PendingStart)
      modifies this`agents
      ensures agents == WithStatus(old(agents), id, Starting)
      ensures pending == PendingStart(old(agents), id)
    {
      pending := PendingStart(agents, id);
      agents := WithStatus(agents, id, Starting);
    }

    /** The delayed phase of `startAgent`: the snapshot, with the id set running. */
    method CompleteStart(pending: PendingStart)
      modifies this`agents
      ensures agents == WithStatus(pending.snapshot, pending.id, Running)
    {
      agents := WithStatus(pending.snapshot, pending.id, Running);
    }

    /** `deployBackend`, run to completion. */
    method DeployBackend()
      modifies this
      ensures logs == [DeployStart] + DeploySteps && |logs| == 11
      ensures !isDeploying && backendStatus == Online
      ensures config == old(config) && agents == old(agents)
    {
      isDeploying := true;
      logs := [DeployStart];
      var i := 0;
      while i < |DeploySteps|
        invariant 0 <= i <= |DeploySteps|
        invariant logs == [DeployStart] + DeploySteps[..i]
        invariant config == old(config) && agents == old(agents)
      {
        logs := logs + [DeploySteps[i]];
        i := i + 1;
      }
      isDeploying := false;
      backendStatus := Online;
    }
  }
}
