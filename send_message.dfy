/**
 * The `SendMessageAsync` tool (src/voice_assistant/tools/SendMessageAsync.py):
 * resolve an agency by name and, optionally, an agent inside it by name,
 * then hand the message to the agency's `get_completion` without waiting
 * for the answer. The agency registry `AGENCIES` is a parameter; the
 * completion itself is foreign code, so the model records each call.
 */
module SendMessage {
  import opened Wrappers

  /** An agent object of the agency. `id` stands for the Python object's
      identity, so two agents that share a name are still told apart. */
  datatype Agent = Agent(id: nat, name: string)

  datatype Agency = Agency(agents: seq<Agent>)

  /** One `agency.get_completion(message=..., recipient_agent=...)` call. */
  datatype CompletionCall = CompletionCall(agency: Agency, message: string, recipient: Option<Agent>)

  const SentReply: string := "Message sent asynchronously. " + "Use 'GetResponse' to check status."

  /** Python truthiness of `agent_name: str | None`: neither None nor "". */
  predicate IsNamed(agentName: Option<string>) {
    agentName.Some? && agentName.value != ""
  }

  /** `next((agent for agent in agents if agent.name == name), None)`, as an index. */
  function FirstNamed(agents: seq<Agent>, name: string): (r: Option<nat>)
    ensures r.Some? ==> r.value < |agents| && agents[r.value].name == name
    ensures r.Some? ==> forall j | 0 <= j < r.value :: agents[j].name != name
    ensures r.None? ==> forall j | 0 <= j < |agents| :: agents[j].name != name
  {
    if |agents| == 0 then None
    else if agents[0].name == name then Some(0)
    else
      match FirstNamed(agents[1..], name)
      case None => None
      case Some(k) => Some(k + 1)
  }

  /** `sep.join(parts)` */
  function Join(parts: seq<string>, sep: string): string
  {
    if |parts| == 0 then ""
    else if |parts| == 1 then parts[0]
    else parts[0] + sep + Join(parts[1..], sep)
  }

  /** Adding a name at the end adds one separator and the name, so the names
      stand in the joined text in list order. */
  lemma {:induction false} JoinSnoc(parts: seq<string>, last: string, sep: string)
    requires |parts| > 0
    ensures Join(parts + [last], sep) == Join(parts, sep) + sep + last
    decreases |parts|
  {
    if |parts| > 1 {
      assert (parts + [last])[1..] == parts[1..] + [last];
      JoinSnoc(parts[1..], last, sep);
    } else {
      assert parts + [last] == [parts[0], last];
      assert [parts[0], last][1..] == [last];
    }
  }

  /** The joined text is the names plus one separator between each two. */
  lemma {:induction false} JoinLength(parts: seq<string>, sep: string)
    ensures |Join(parts, sep)| == TotalLength(parts) + (if |parts| == 0 then 0 else (|parts| - 1) * |sep|)
    decreases |parts|
  {
    if |parts| > 1 {
      JoinLength(parts[1..], sep);
    }
  }

  function TotalLength(parts: seq<string>): nat {
    if |parts| == 0 then 0 else |parts[0]| + TotalLength(parts[1..])
  }

  function Names(agents: seq<Agent>): (names: seq<string>)
    ensures |names| == |agents| && forall i | 0 <= i < |agents| :: names[i] == agents[i].name
  {
    if |agents| == 0 then [] else [agents[0].name] + Names(agents[1..])
  }

  function AgencyNotFound(agencyName: string): string {
    "Agency '" + agencyName + "' not found"
  }

  function AgentNotFound(agentName: string, agencyName: string, agency: Agency): string {
    "Agent '" + agentName + "' not found in agency '" + agencyName + "'. Available agents: "
      + Join(Names(agency.agents), ", ")
  }

  /** Where a message goes: nowhere (with the reason) or to an agency and,
      optionally, a named agent of it (None: the agency's default agent). */
  datatype Resolution =
    | NoAgency
    | NoAgent(agency: Agency)
    | Recipient(agency: Agency, agent: Option<Agent>)

  function Resolve(agencies: map<string, Agency>, agencyName: string, agentName: Option<string>): (r: Resolution)
    ensures r.NoAgency? <==> agencyName !in agencies
    ensures r.NoAgent? <==> agencyName in agencies && IsNamed(agentName)
                            && forall a | a in agencies[agencyName].agents :: a.name != agentName.value
    ensures !r.NoAgency? ==> r.agency == agencies[agencyName]
    ensures r.Recipient? ==> (r.agent.None? <==> !IsNamed(agentName))
    ensures r.Recipient? && r.agent.Some? ==>
      exists k | 0 <= k < |r.agency.agents| :: r.agency.agents[k] == r.agent.value
        && r.agent.value.name == agentName.value
        && forall j | 0 <= j < k :: r.agency.agents[j].name != agentName.value
  {
    if agencyName !in agencies then NoAgency
    else
      var agency := agencies[agencyName];
      if IsNamed(agentName) then
        match FirstNamed(agency.agents, agentName.value)
        case None => NoAgent(agency)
        case Some(k) => Recipient(agency, Some(agency.agents[k]))
      else Recipient(agency, None)
  }

  /** When several agents share the requested name, a later one is never
      the recipient unless the same object also stands earlier in the list. */
  lemma LaterNamesakeNotChosen(agencies: map<string, Agency>, agencyName: string, agentName: Option<string>, i: nat, j: nat)
    requires agencyName in agencies && IsNamed(agentName)
    requires i < j < |agencies[agencyName].agents|
    requires agencies[agencyName].agents[i].name == agentName.value
    requires agencies[agencyName].agents[j] !in agencies[agencyName].agents[..j]
    ensures Resolve(agencies, agencyName, agentName) != Recipient(agencies[agencyName], Some(agencies[agencyName].agents[j]))
  {
    var agents := agencies[agencyName].agents;
    var r := Resolve(agencies, agencyName, agentName);
    if r.Recipient? && r.agent.Some? {
      var k :| 0 <= k < |agents| && agents[k] == r.agent.value && r.agent.value.name == agentName.value
        && forall m | 0 <= m < k :: agents[m].name != agentName.value;
      assert k <= i;
      assert agents[..j][k] == agents[k];
    }
  }

  /** The string `send_message` returns. */
  function Reply(agencies: map<string, Agency>, agencyName: string, agentName: Option<string>): string {
    match Resolve(agencies, agencyName, agentName)
    case NoAgency => AgencyNotFound(agencyName)
    case NoAgent(agency) => AgentNotFound(agentName.value, agencyName, agency)
    case Recipient(_, _) => SentReply
  }

  /** The three outcomes are told apart by their text: each reply starts
      differently, so a caller can tell which one it got. */
  lemma RepliesDistinct(agencies: map<string, Agency>, agencyName: string, agentName: Option<string>)
    ensures var r := Reply(agencies, agencyName, agentName);
      (r[..8] == "Agency '" <==> agencyName !in agencies) &&
      (r[..7] == "Agent '" <==> Resolve(agencies, agencyName, agentName).NoAgent?) &&
      (r == SentReply <==> Resolve(agencies, agencyName, agentName).Recipient?)
  {
    var r := Reply(agencies, agencyName, agentName);
    assert SentReply[0] == 'M' && SentReply[..7][0] == 'M' && SentReply[..8][0] == 'M';
    match Resolve(agencies, agencyName, agentName)
    case NoAgency =>
      assert r[..8] == "Agency '";
      assert r[4] == 'c' && r[0] == 'A';
    case NoAgent(agency) =>
      assert r[..7] == "Agent '";
      assert r[4] == 't' && r[0] == 'A';
    case Recipient(_, _) =>
  }

  /** The tool instance: its three fields, and the completion calls it has made. */
  class SendMessageAsync {
    const message: string
    const agencyName: string
    const agentName: Option<string>
    var calls: seq<CompletionCall>

    constructor (message: string, agencyName: string, agentName: Option<string>)
      ensures this.message == message && this.agencyName == agencyName && this.agentName == agentName
      ensures calls == []
    {
      this.message := message;
      this.agencyName := agencyName;
      this.agentName := agentName;
      calls := [];
    }

    /** `send_message`: exactly one completion call when, and only when, the
        recipient resolves; the reply string in every case. */
    method SendMessage(agencies: map<string, Agency>) returns (result: string)
      modifies this
      ensures result == Reply(agencies, agencyName, agentName)
      ensures calls == old(calls) +
        match Resolve(agencies, agencyName, agentName)
        case Recipient(agency, agent) => [CompletionCall(agency, message, agent)]
        case _ => []
    {
      if agencyName in agencies {
        var agency := agencies[agencyName];
        var recipient: Option<Agent>;
        if IsNamed(agentName) {
          var found := FirstNamed(agency.agents, agentName.value);
          if found.None? {
            return AgentNotFound(agentName.value, agencyName, agency);
          }
          recipient := Some(agency.agents[found.value]);
        } else {
          recipient := None;
        }
        calls := calls + [CompletionCall(agency, message, recipient)];
        return SentReply;
      } else {
        return AgencyNotFound(agencyName);
      }
    }

    /** `run`: `str()` of the string `send_message` returns, that is, the same string. */
    method Run(agencies: map<string, Agency>) returns (result: string)
      modifies this
      ensures result == Reply(agencies, agencyName, agentName)
      ensures calls == old(calls) +
        match Resolve(agencies, agencyName, agentName)
        case Recipient(agency, agent) => [CompletionCall(agency, message, agent)]
        case _ => []
    {
      result := SendMessage(agencies);
    }
  }
}
