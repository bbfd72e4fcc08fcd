/**
 * The inter-agent message feed: an append-only list grown by guarded
 * sends, by the canned reply a direct send schedules, and by a periodic
 * broadcast generator; plus the roster status lookup and the recipient list.
 */
module InterAgentCommunication {
  import opened Wrappers
  import opened Text

  datatype MessageType = Query | Response | BroadcastMessage | SystemMessage

  datatype MessageStatus = Sent | Delivered | Processed | Failed

  /** A feed entry; `id` is the clock reading rendered as text, `timestamp` a time in milliseconds. */
  datatype Message = Message(
    id: string,
    from: string,
    to: string,
    content: string,
    timestamp: int,
    kind: MessageType,
    status: MessageStatus)

  datatype PeerStatus = Online | Offline | Busy

  datatype Peer = Peer(id: string, name: string, status: PeerStatus, framework: string)

  const Broadcast := "broadcast"

  const CurrentAgent := "agentm60"

  const QiskitAlpha := Peer("agentm60", "RAVIAN-Qiskit-Alpha", Online, "Qiskit")
  const CirqBeta := Peer("agentm61", "RAVIAN-Cirq-Beta", Online, "Cirq")
  const QsharpGamma := Peer("agentm62", "RAVIAN-QSharp-Gamma", Busy, "Q#")
  const QuipperDelta := Peer("agentm63", "RAVIAN-Quipper-Delta", Offline, "Quipper")
  const SfEpsilon := Peer("agentm64", "RAVIAN-SF-Epsilon", Online, "Strawberry Fields")

  /** The fixed roster of the feed. */
  const Peers: seq<Peer> := [QiskitAlpha, CirqBeta, QsharpGamma, QuipperDelta, SfEpsilon]

  const NetworkUpText := "RAVIAN Quantum Network initialized. All agents connected to nanda.media.mit.edu registry."
  const BellCircuitText := "Sharing optimized circuit for 5-qubit Bell state preparation. Fidelity: 99.7%"
  const TeleportationText := "Q# quantum teleportation protocol completed. Ready for cross-framework verification."

  /** The feed after mounting, `now` being the mount time. */
  function InitialMessages(now: int): seq<Message>
  {
    [ Message("1", "system", Broadcast, NetworkUpText, now - 300000, SystemMessage, Delivered),
      Message("2", "agentm61", CurrentAgent, BellCircuitText, now - 240000, Response, Processed),
      Message("3", "agentm62", Broadcast, TeleportationText, now - 180000, BroadcastMessage, Delivered) ]
  }

  // The generator's five texts.
  const ThresholdText := "Quantum error correction threshold reached: 99.9%"
  const VerificationText := "Entanglement verification completed across all qubits"
  const GateSequenceText := "Optimizing gate sequence for reduced decoherence"
  const SynchronizationText := "Cross-platform quantum state synchronization active"
  const ConvergenceText := "Variational quantum algorithm convergence achieved"

  const QuantumMessages: seq<string> :=
    [ThresholdText, VerificationText, GateSequenceText, SynchronizationText, ConvergenceText]

  // The five canned replies.
  const ComputedText := "Quantum computation completed. Results attached."
  const OptimizedText := "Circuit optimization successful. Depth reduced by 23%."
  const CorrectedText := "Error correction applied. Fidelity improved to 99.8%."
  const PreparedText := "Quantum state preparation verified. Ready for measurement."
  const EntangledText := "Entanglement established across distributed qubits."

  const Responses: seq<string> := [ComputedText, OptimizedText, CorrectedText, PreparedText, EntangledText]

  /** `Math.floor(roll * n)` for a random `roll` in [0, 1): an index into a list of n. */
  function Pick(roll: real, n: nat): (k: nat)
    requires 0.0 <= roll < 1.0 && n > 0
    ensures k < n
  {
    PickBound(roll, n);
    (roll * (n as real)).Floor
  }

  lemma PickBound(roll: real, n: nat)
    requires 0.0 <= roll < 1.0 && n > 0
    ensures 0.0 <= roll * (n as real) < n as real
  {
    var m := n as real;
    assert (1.0 - roll) * m > 0.0 by {
      assert 1.0 - roll > 0.0 && m > 0.0;
    }
    assert (1.0 - roll) * m == m - roll * m;
  }

  /** The type a send gives its message. */
  function TypeFor(target: string): (t: MessageType)
    ensures t == BroadcastMessage <==> target == Broadcast
    ensures t == BroadcastMessage || t == Query
  {
    if target == Broadcast then BroadcastMessage else Query
  }

  /** The position of the first roster entry with this id, if any (`Array.find`). */
  function FindPeer(peers: seq<Peer>, id: string): (r: Option<nat>)
    ensures r.None? <==> forall i :: 0 <= i < |peers| ==> peers[i].id != id
    ensures r.Some? ==> r.value < |peers| && peers[r.value].id == id
    ensures r.Some? ==> forall j :: 0 <= j < r.value ==> peers[j].id != id
  {
    if peers == [] then None
    else if peers[0].id == id then Some(0)
    else match FindPeer(peers[1..], id)
      case None => None
      case Some(k) => Some(k + 1)
  }

  /** `getAgentStatus`: the status the roster lists for an id, offline for an id it does not list. */
  function PeerStatusOf(peers: seq<Peer>, id: string): (s: PeerStatus)
    ensures FindPeer(peers, id).None? ==> s == Offline
    ensures FindPeer(peers, id).Some? ==> s == peers[FindPeer(peers, id).value].status
  {
    match FindPeer(peers, id)
    case None => Offline
    case Some(k) => peers[k].status
  }

  /** The roster entries offered as direct recipients. */
  function SelectableTargets(peers: seq<Peer>, current: string): (r: seq<Peer>)
    ensures |r| <= |peers|
    ensures forall i :: 0 <= i < |r| ==> r[i].id != current && r[i].status != Offline
  {
    if peers == [] then []
    else
      var rest := SelectableTargets(peers[1..], current);
      if peers[0].id != current && peers[0].status != Offline then [peers[0]] + rest else rest
  }

  /** An entry is offered exactly when it is listed, is not the sender and is not offline. */
  lemma {:induction false} SelectableMembers(peers: seq<Peer>, current: string)
    ensures forall p :: p in SelectableTargets(peers, current) <==> p in peers && p.id != current && p.status != Offline
  {
    if peers != [] {
      SelectableMembers(peers[1..], current);
      assert forall p :: p in peers <==> p == peers[0] || p in peers[1..];
    }
  }

  /** For the fixed roster the recipients are agentm61, agentm62 and agentm64, in that order. */
  lemma DefaultTargets()
    ensures SelectableTargets(Peers, CurrentAgent) == [CirqBeta, QsharpGamma, SfEpsilon]
  {
    assert CirqBeta.id[7] != CurrentAgent[7] && QsharpGamma.id[7] != CurrentAgent[7];
    assert SfEpsilon.id[7] != CurrentAgent[7];
    FiveTargets(QiskitAlpha, CirqBeta, QsharpGamma, QuipperDelta, SfEpsilon, CurrentAgent);
  }

  /** The filter on a five-entry roster whose first entry is the sender and whose fourth is offline. */
  lemma FiveTargets(a: Peer, b: Peer, c: Peer, d: Peer, e: Peer, current: string)
    requires a.id == current && d.status == Offline
    requires b.id != current && b.status != Offline
    requires c.id != current && c.status != Offline
    requires e.id != current && e.status != Offline
    ensures SelectableTargets([a, b, c, d, e], current) == [b, c, e]
  {
    LastThreeTargets(c, d, e, current);
    SelectKeep(b, [c, d, e], current);
    assert [b, c, d, e] == [b] + [c, d, e];
    assert [b] + [c, e] == [b, c, e];
    SelectDrop(a, [b, c, d, e], current);
    assert [a, b, c, d, e] == [a] + [b, c, d, e];
  }

  /** The last three entries of the fixed roster's shape: an offline entry between two selectable ones. */
  lemma LastThreeTargets(c: Peer, d: Peer, e: Peer, current: string)
    requires d.status == Offline
    requires c.id != current && c.status != Offline
    requires e.id != current && e.status != Offline
    ensures SelectableTargets([c, d, e], current) == [c, e]
  {
    SelectKeep(e, [], current);
    assert [e] == [e] + [];
    SelectDrop(d, [e], current);
    assert [d, e] == [d] + [e];
    SelectKeep(c, [d, e], current);
    assert [c, d, e] == [c] + [d, e];
    assert [c] + [e] == [c, e];
  }

  /** One step of the filter: another agent that is not offline is kept in front of the rest. */
  lemma SelectKeep(p: Peer, rest: seq<Peer>, current: string)
    requires p.id != current && p.status != Offline
    ensures SelectableTargets([p] + rest, current) == [p] + SelectableTargets(rest, current)
  {
    assert ([p] + rest)[1..] == rest;
  }

  /** One step of the filter: the sender itself, or an offline agent, is dropped. */
  lemma SelectDrop(p: Peer, rest: seq<Peer>, current: string)
    requires p.id == current || p.status == Offline
    ensures SelectableTargets([p] + rest, current) == SelectableTargets(rest, current)
  {
    assert ([p] + rest)[1..] == rest;
  }

  /** The fixed roster lists each id once. */
  lemma PeerIdsDistinct()
    ensures forall i, j :: 0 <= i < j < |Peers| ==> Peers[i].id != Peers[j].id
  {
    assert forall i :: 0 <= i < |Peers| ==> |Peers[i].id| == 8 && Peers[i].id[7] == "01234"[i];
  }

  /** The lookup on the fixed roster returns each listed agent's own status; an unlisted id is offline. */
  lemma DefaultStatuses()
    ensures forall k :: 0 <= k < |Peers| ==> PeerStatusOf(Peers, Peers[k].id) == Peers[k].status
    ensures PeerStatusOf(Peers, "agentm99") == Offline
  {
    PeerIdsDistinct();
    forall k | 0 <= k < |Peers| ensures PeerStatusOf(Peers, Peers[k].id) == Peers[k].status {
      ListedStatus(Peers, k, Peers[k].id);
    }
    assert forall i :: 0 <= i < |Peers| ==> Peers[i].id[7] != '9';
  }

  /** The entry at k is the one the lookup reports when no earlier entry has its id. */
  lemma ListedStatus(peers: seq<Peer>, k: nat, id: string)
    requires k < |peers| && peers[k].id == id
    requires forall j :: 0 <= j < k ==> peers[j].id != id
    ensures PeerStatusOf(peers, id) == peers[k].status
  {
  }

  /** The reply a direct send schedules, to come from `target`. */
  datatype PendingReply = PendingReply(target: string)

  /** The canned reply: from the target back to the current agent. */
  function ReplyMessage(p: PendingReply, roll: real, id: string, now: int): (m: Message)
    requires 0.0 <= roll < 1.0
    ensures m.from == p.target && m.to == CurrentAgent && m.content in Responses
    ensures m.kind == Response && m.status == Delivered && m.id == id && m.timestamp == now
  {
    Message(id, p.target, CurrentAgent, Responses[Pick(roll, |Responses|)], now, Response, Delivered)
  }

  /** The generator's broadcast, from a roster agent. */
  function GeneratorMessage(agentRoll: real, textRoll: real, id: string, now: int): (m: Message)
    requires 0.0 <= agentRoll < 1.0 && 0.0 <= textRoll < 1.0
    ensures exists i :: 0 <= i < |Peers| && m.from == Peers[i].id
    ensures m.to == Broadcast && m.content in QuantumMessages
    ensures m.kind == BroadcastMessage && m.status == Delivered && m.id == id && m.timestamp == now
  {
    var a := Pick(agentRoll, |Peers|);
    Message(id, Peers[a].id, Broadcast, QuantumMessages[Pick(textRoll, |QuantumMessages|)], now, BroadcastMessage, Delivered)
  }

  /** The addressing rules every message in the feed obeys. */
  ghost predicate WellAddressed(m: Message)
  {
    && (m.kind == BroadcastMessage ==> m.to == Broadcast)
    && (m.kind == Query ==> m.to != Broadcast && m.from == CurrentAgent && m.status == Sent)
    && (m.kind == Response ==> m.to == CurrentAgent)
  }

  ghost predicate AllWellAddressed(ms: seq<Message>)
  {
    forall i :: 0 <= i < |ms| ==> WellAddressed(ms[i])
  }

  lemma InitialWellAddressed(now: int)
    ensures AllWellAddressed(InitialMessages(now))
  {
  }

  /** Appending a well-addressed message keeps the feed well addressed. */
  lemma AppendWellAddressed(ms: seq<Message>, m: Message)
    requires AllWellAddressed(ms) && WellAddressed(m)
    ensures AllWellAddressed(ms + [m])
  {
    assert forall i :: 0 <= i < |ms| ==> (ms + [m])[i] == ms[i];
  }

  /** The feed component's state. */
  class Feed {
    var messages: seq<Message>
    var newMessage: string
    var selectedAgent: string

    ghost predicate Valid()
      reads this
    {
      AllWellAddressed(messages)
    }

    /** The state after mounting: the three initial messages, an empty draft, broadcast selected. */
    constructor (now: int)
      ensures Valid()
      ensures messages == InitialMessages(now) && newMessage == "" && selectedAgent == Broadcast
    {
      InitialWellAddressed(now);
      messages := InitialMessages(now);
      newMessage := "";
      selectedAgent := Broadcast;
    }

    method SetDraft(text: string)
      modifies this`newMessage
      ensures newMessage == text
    {
      newMessage := text;
    }

    method SelectTarget(target: string)
      modifies this`selectedAgent
      ensures selectedAgent == target
    {
      selectedAgent := target;
    }

    /**
     * `sendMessage`, with the clock as `id` and `now`; a direct send returns
     * the reply it schedules.
     */
    method SendMessage(id: string, now: int) returns (reply: Option<PendingReply>)
      requires Valid()
      modifies this`messages, this`newMessage
      ensures Valid()
      ensures Trim(old(newMessage)) == [] ==>
        messages == old(messages) && newMessage == old(newMessage) && reply == None
      ensures Trim(old(newMessage)) != [] ==>
        && messages == old(messages) + [Message(id, CurrentAgent, selectedAgent, old(newMessage), now, TypeFor(selectedAgent), Sent)]
        && newMessage == ""
        && (reply.Some? <==> selectedAgent != Broadcast)
        && (reply.Some? ==> reply.value.target == selectedAgent)
    {
      var text := newMessage;
      if Trim(text) == [] {
        return None;
      }
      var m := Message(id, CurrentAgent, selectedAgent, text, now, TypeFor(selectedAgent), Sent);
      AppendWellAddressed(messages, m);
      messages := messages + [m];
      newMessage := "";
      if selectedAgent != Broadcast {
        reply := Some(PendingReply(selectedAgent));
      } else {
        reply := None;
      }
    }

    /** The reply a direct send scheduled, arriving two seconds later. */
    method DeliverReply(p: PendingReply, roll: real, id: string, now: int)
      requires Valid() && 0.0 <= roll < 1.0
      modifies this`messages
      ensures Valid()
      ensures messages == old(messages) + [ReplyMessage(p, roll, id, now)]
    {
      AppendWellAddressed(messages, ReplyMessage(p, roll, id, now));
      messages := messages + [ReplyMessage(p, roll, id, now)];
    }

    /** One tick of the periodic generator: a broadcast when `fire` exceeds 0.7, else nothing. */
    method GeneratorTick(fire: real, agentRoll: real, textRoll: real, id: string, now: int)
      requires Valid()
      requires 0.0 <= fire < 1.0 && 0.0 <= agentRoll < 1.0 && 0.0 <= textRoll < 1.0
      modifies this`messages
      ensures Valid()
      ensures fire > 0.7 ==> messages == old(messages) + [GeneratorMessage(agentRoll, textRoll, id, now)]
      ensures fire <= 0.7 ==> messages == old(messages)
    {
      if fire > 0.7 {
        AppendWellAddressed(messages, GeneratorMessage(agentRoll, textRoll, id, now));
        messages := messages + [GeneratorMessage(agentRoll, textRoll, id, now)];
      }
    }
  }
}
