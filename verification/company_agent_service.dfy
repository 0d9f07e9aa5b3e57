/** `CompanyAgentService`: the registry of company support agents. Each
    record is an agent script generated for one company, running as its own
    process, together with the capabilities other agents can discover it
    by. Spawning processes and the clock are oracle inputs. */
module CompanyAgentService {
  import opened Wrappers
  import opened Text
  import opened OrderedDict
  import opened AgentRegistry

  /** The request fields create reads besides those only the generated
      script uses. */
  datatype CreateRequest = CreateRequest(
    companyId: string,
    companyName: string,
    agentName: string,
    port: int,
    seedPhrase: Option<string>,
    capabilities: seq<string>,
    description: Option<string>,
    webhookUrl: Option<string>)

  /** What a record keeps of the request besides its port. */
  datatype CompanyDetails = CompanyDetails(
    companyId: string,
    companyName: string,
    agentName: string,
    seedPhrase: Option<string>,
    capabilities: seq<string>,
    description: Option<string>,
    webhookUrl: Option<string>)

  type CompanyRecord = Entry<CompanyDetails>

  /** `CompanyAgentResponse`: every field of a record but the script path
      and the seed phrase. */
  datatype CompanyAgentResponse = CompanyAgentResponse(
    agentId: string,
    companyId: string,
    companyName: string,
    agentName: string,
    port: int,
    address: string,
    status: AgentStatus,
    createdAt: string,
    processId: Option<int>,
    capabilities: seq<string>,
    description: Option<string>,
    webhookUrl: Option<string>)

  /** `AgentMessageResponse`; its status is always "delivered". */
  datatype MessageResponse = MessageResponse(agentId: string, response: string, timestamp: string)

  /** `os.path.join(os.getcwd(), company_agents_directory, f"company_agent_{agent_id}.py")`. */
  function CompanyAgentFilePath(cwd: string, dir: string, agentId: string): string {
    cwd + "/" + dir + "/company_agent_" + agentId + ".py"
  }

  const CompanyAgentNotFound := HttpError(404, "Company agent not found")

  function NewRecord(req: CreateRequest, agentId: string, now: string, filepath: string, pid: int): CompanyRecord {
    Entry(req.port, AgentAddress(agentId, req.agentName), Running, now, Some(pid), filepath,
          CompanyDetails(req.companyId, req.companyName, req.agentName, req.seedPhrase,
                         req.capabilities, req.description, req.webhookUrl))
  }

  function ResponseOf(agentId: string, r: CompanyRecord): CompanyAgentResponse {
    CompanyAgentResponse(agentId, r.details.companyId, r.details.companyName, r.details.agentName,
                         r.port, r.address, r.status, r.createdAt, r.processId,
                         r.details.capabilities, r.details.description, r.details.webhookUrl)
  }

  /** The answer of `create_company_agent`: the port check comes first;
      every later failure is a 500 whose detail says which step failed (a
      failed spawn keeps the process service's own detail). */
  function CreateResult(agents: Dict<CompanyRecord>, req: CreateRequest, agentId: string, now: string,
                        filepath: string, launch: Launch): (r: Result<CompanyAgentResponse, HttpError>)
    ensures r.Ok? <==> !PortTaken(agents, req.port) && launch.Spawned?
    ensures PortTaken(agents, req.port) ==> r == Err(PortInUse(req.port))
    ensures r.Err? && !PortTaken(agents, req.port) ==> r.error.status == 500
    ensures r.Ok? ==> && r.value.agentId == agentId && r.value.status == Running
                      && r.value.processId == Some(launch.pid) && r.value.port == req.port
                      && r.value.address == AgentAddress(agentId, req.agentName)
                      && r.value.capabilities == req.capabilities
  {
    if PortTaken(agents, req.port) then Err(PortInUse(req.port))
    else
      match launch
      case SaveFailed(reason) => Err(HttpError(500, "Failed to create company agent: " + reason))
      case SpawnFailed(reason) => Err(SpawnError(reason))
      case ExitedEarly(stderr) => Err(HttpError(500, "Company agent failed to start: " + stderr))
      case Spawned(pid) => Ok(ResponseOf(agentId, NewRecord(req, agentId, now, filepath, pid)))
  }

  /** The registry after `create_company_agent`. */
  function CreateState(agents: Dict<CompanyRecord>, req: CreateRequest, agentId: string, now: string,
                       filepath: string, launch: Launch): Dict<CompanyRecord>
    requires agents.Valid()
  {
    if CreateResult(agents, req, agentId, now, filepath, launch).Ok?
    then agents.Put(agentId, NewRecord(req, agentId, now, filepath, launch.pid))
    else agents
  }

  /** A port already held is refused before anything is made, and the
      registry stays as it was; a successful create with a fresh id adds
      exactly one "running" entry holding the new pid, the requested port
      and the derived address, and keeps every other entry. */
  lemma CreateAddsOneEntry(agents: Dict<CompanyRecord>, req: CreateRequest, agentId: string, now: string,
                           filepath: string, launch: Launch)
    requires agents.Valid() && agentId !in agents.entries
    ensures var after := CreateState(agents, req, agentId, now, filepath, launch);
            if CreateResult(agents, req, agentId, now, filepath, launch).Ok? then
              && after.Size() == agents.Size() + 1
              && after.entries.Keys == agents.entries.Keys + {agentId}
              && after.entries[agentId].status == Running
              && after.entries[agentId].processId == Some(launch.pid)
              && after.entries[agentId].port == req.port
              && after.entries[agentId].address == AgentAddress(agentId, req.agentName)
              && forall k :: k in agents.entries ==> after.entries[k] == agents.entries[k]
            else after == agents
  {
  }

  function Listing(agents: Dict<CompanyRecord>): seq<CompanyAgentResponse>
    requires agents.Valid()
  {
    seq(|agents.keys|, i requires 0 <= i < |agents.keys| => ResponseOf(agents.keys[i], agents.entries[agents.keys[i]]))
  }

  // ---------------------------------------------------------------------------
  // Discovery

  /** `capability.lower() in [cap.lower() for cap in capabilities]`. */
  predicate HasCapability(capabilities: seq<string>, capability: string) {
    exists c :: c in capabilities && Lower(c) == Lower(capability)
  }

  /** The filter of `discover_agents`: the company must match only when a
      company id is given (and not empty), and the capability always. */
  predicate Discoverable(e: CompanyRecord, capability: string, companyId: Option<string>) {
    && (Truthy(companyId) ==> e.details.companyId == companyId.value)
    && HasCapability(e.details.capabilities, capability)
  }

  /** The matching items, in registry order. */
  function Matching(items: seq<(string, CompanyRecord)>, capability: string, companyId: Option<string>):
    (r: seq<(string, CompanyRecord)>)
    ensures |r| <= |items|
  {
    if items == [] then []
    else
      var rest := Matching(items[..|items| - 1], capability, companyId);
      var last := items[|items| - 1];
      if Discoverable(last.1, capability, companyId) then rest + [last] else rest
  }

  /** Discovery returns exactly the matching records: each result is a
      registry item that matches, and each matching item is a result. */
  lemma {:induction false} MatchingExactly(items: seq<(string, CompanyRecord)>, capability: string, companyId: Option<string>)
    ensures forall x :: x in Matching(items, capability, companyId) <==>
                          x in items && Discoverable(x.1, capability, companyId)
  {
    if items != [] {
      var init := items[..|items| - 1];
      MatchingExactly(init, capability, companyId);
      assert items == init + [items[|items| - 1]];
    }
  }

  /** One more item of the registry either joins the matches or not. */
  lemma MatchingStep(items: seq<(string, CompanyRecord)>, i: nat, capability: string, companyId: Option<string>)
    requires i < |items|
    ensures Matching(items[..i + 1], capability, companyId) ==
            if Discoverable(items[i].1, capability, companyId)
            then Matching(items[..i], capability, companyId) + [items[i]]
            else Matching(items[..i], capability, companyId)
  {
    assert items[..i + 1][..i] == items[..i];
  }

  /** The requested capability is compared without regard to case. */
  lemma {:induction false} MatchingIgnoresCase(items: seq<(string, CompanyRecord)>, capability: string, companyId: Option<string>)
    ensures Matching(items, capability, companyId) == Matching(items, Lower(capability), companyId)
  {
    LowerIdempotent(capability);
    if items != [] {
      MatchingIgnoresCase(items[..|items| - 1], capability, companyId);
    }
  }

  /** With a company id, discovery keeps a sub-list of what it finds without one. */
  lemma {:induction false} CompanyFilterNarrows(items: seq<(string, CompanyRecord)>, capability: string, companyId: string)
    ensures |Matching(items, capability, Some(companyId))| <= |Matching(items, capability, None)|
    ensures forall x :: x in Matching(items, capability, Some(companyId)) ==> x in Matching(items, capability, None)
  {
    MatchingExactly(items, capability, Some(companyId));
    MatchingExactly(items, capability, None);
    if items != [] {
      CompanyFilterNarrows(items[..|items| - 1], capability, companyId);
    }
  }

  /** The loop of `discover_agents` over a sequence of registry items. */
  method DiscoverItems(items: seq<(string, CompanyRecord)>, capability: string, companyId: Option<string>)
    returns (found: seq<CompanyAgentResponse>, totalFound: nat)
    ensures |found| == totalFound == |Matching(items, capability, companyId)|
    ensures forall j :: 0 <= j < |found| ==>
              var m := Matching(items, capability, companyId)[j];
              found[j] == ResponseOf(m.0, m.1)
  {
    ghost var matched: seq<(string, CompanyRecord)> := [];
    found := [];
    var i := 0;
    while i < |items|
      invariant 0 <= i <= |items|
      invariant matched == Matching(items[..i], capability, companyId)
      invariant |found| == |matched|
      invariant forall j :: 0 <= j < |found| ==> found[j] == ResponseOf(matched[j].0, matched[j].1)
    {
      var id := items[i].0;
      var e := items[i].1;
      MatchingStep(items, i, capability, companyId);
      if Truthy(companyId) && e.details.companyId != companyId.value {
        i := i + 1;
        continue;
      }
      if HasCapability(e.details.capabilities, capability) {
        found := found + [ResponseOf(id, e)];
        matched := matched + [(id, e)];
      }
      i := i + 1;
    }
    assert items[..i] == items;
    totalFound := |found|;
  }

  /** `CompanyAgentService`. */
  class CompanyAgentService {
    var agents: Dict<CompanyRecord>
    /** `settings.company_agents_directory`. */
    const agentsDir: string

    predicate Valid()
      reads this
    {
      agents.Valid() && PortsUnique(agents)
    }

    constructor(agentsDir: string)
      ensures Valid() && agents == Empty() && this.agentsDir == agentsDir
    {
      agents := Empty();
      this.agentsDir := agentsDir;
    }

    /** `create_company_agent`; `agentId` is the fresh uuid, `now` the
        creation time, `cwd` the working directory and `launch` what saving
        and spawning the agent script led to. */
    method CreateCompanyAgent(req: CreateRequest, agentId: string, now: string, cwd: string, launch: Launch)
      returns (r: Result<CompanyAgentResponse, HttpError>)
      requires Valid()
      modifies this
      ensures Valid()
      ensures r == CreateResult(old(agents), req, agentId, now, CompanyAgentFilePath(cwd, agentsDir, agentId), launch)
      ensures agents == CreateState(old(agents), req, agentId, now, CompanyAgentFilePath(cwd, agentsDir, agentId), launch)
    {
      var taken := CheckPort(agents, req.port);
      if taken {
        return Err(PortInUse(req.port));
      }
      var filepath := CompanyAgentFilePath(cwd, agentsDir, agentId);
      match launch {
        case SaveFailed(reason) =>
          r := Err(HttpError(500, "Failed to create company agent: " + reason));
        case SpawnFailed(reason) =>
          r := Err(SpawnError(reason));
        case ExitedEarly(stderr) =>
          r := Err(HttpError(500, "Company agent failed to start: " + stderr));
        case Spawned(pid) =>
          var record := NewRecord(req, agentId, now, filepath, pid);
          PutFreePortKeepsUnique(agents, agentId, record);
          agents := agents.Put(agentId, record);
          r := Ok(ResponseOf(agentId, record));
      }
    }

    /** `discover_agents`, which only reads the registry: the records, as
        stored (no status refresh), that have the capability and, when a
        company id is given, belong to that company, in registry order;
        `total_found` is their number. */
    method DiscoverAgents(capability: string, companyId: Option<string>)
      returns (found: seq<CompanyAgentResponse>, totalFound: nat)
      requires Valid()
      ensures |found| == totalFound == |Matching(Items(agents), capability, companyId)|
      ensures forall j :: 0 <= j < |found| ==>
                var m := Matching(Items(agents), capability, companyId)[j];
                found[j] == ResponseOf(m.0, m.1)
    {
      found, totalFound := DiscoverItems(Items(agents), capability, companyId);
    }

    /** `list_company_agents`: refreshes every status in place and lists the records. */
    method ListCompanyAgents(live: set<int>) returns (listed: seq<CompanyAgentResponse>)
      requires Valid()
      modifies this
      ensures Valid()
      ensures agents == RefreshAll(old(agents), live)
      ensures listed == Listing(agents)
    {
      var refreshed, items := RefreshAndList(agents, live);
      RefreshAllChangesOnlyStatus(agents, live);
      agents := refreshed;
      listed := seq(|items|, i requires 0 <= i < |items| => ResponseOf(items[i].0, items[i].1));
    }

    /** `get_company_agent`: 404 for an unknown id; otherwise refreshes that
        record's status in place and returns it. */
    method GetCompanyAgent(agentId: string, live: set<int>) returns (r: Result<CompanyAgentResponse, HttpError>)
      requires Valid()
      modifies this
      ensures Valid()
      ensures agentId !in old(agents).entries ==> r == Err(CompanyAgentNotFound) && agents == old(agents)
      ensures agentId in old(agents).entries ==>
                && agents == old(agents).Put(agentId, Refresh(old(agents).entries[agentId], live))
                && r == Ok(ResponseOf(agentId, agents.entries[agentId]))
    {
      if agentId !in agents.entries {
        return Err(CompanyAgentNotFound);
      }
      var refreshed := Refresh(agents.entries[agentId], live);
      PutSamePortKeepsUnique(agents, agentId, refreshed);
      agents := agents.Put(agentId, refreshed);
      r := Ok(ResponseOf(agentId, refreshed));
    }

    /** `delete_company_agent`: 404 for an unknown id; otherwise removes
        that entry only, after stopping its process if that is live. */
    method DeleteCompanyAgent(agentId: string, live: set<int>) returns (r: Result<string, HttpError>, stopped: Option<int>)
      requires Valid()
      modifies this
      ensures Valid()
      ensures agentId !in old(agents).entries ==> r == Err(CompanyAgentNotFound) && agents == old(agents) && stopped == None
      ensures agentId in old(agents).entries ==>
                && r == Ok("Company agent " + agentId + " deleted successfully")
                && agents == old(agents).Remove(agentId)
                && stopped == PidToStop(old(agents).entries[agentId], live)
    {
      if agentId !in agents.entries {
        return Err(CompanyAgentNotFound), None;
      }
      stopped := PidToStop(agents.entries[agentId], live);
      agents := agents.Remove(agentId);
      r := Ok("Company agent " + agentId + " deleted successfully");
    }

    /** `send_message_to_agent`: 404 for an unknown id; otherwise the
        simulated reply names the agent and echoes the message. */
    method SendMessage(agentId: string, message: string, now: string) returns (r: Result<MessageResponse, HttpError>)
      requires Valid()
      ensures agentId !in agents.entries ==> r == Err(HttpError(404, "Agent not found"))
      ensures agentId in agents.entries ==>
                r == Ok(MessageResponse(agentId, "Message received by " + agents.entries[agentId].details.agentName + ": " + message, now))
    {
      if agentId !in agents.entries {
        return Err(HttpError(404, "Agent not found"));
      }
      var name := agents.entries[agentId].details.agentName;
      r := Ok(MessageResponse(agentId, "Message received by " + name + ": " + message, now));
    }
  }
}
