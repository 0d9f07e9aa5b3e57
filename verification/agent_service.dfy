/** The agent registry of `AgentService` (`self.agents_registry`) and of the
    standalone agent server (a module-level `agents_registry`). The two
    handle every request the same way, except that the server writes the
    agent scripts to `agents/` below the working directory and the service
    to `src/agents/`. Spawning and stopping processes are oracle inputs. */
module AgentService {
  import opened Wrappers
  import opened Text
  import opened OrderedDict
  import opened AgentRegistry

  /** `AgentCreateRequest` (its `endpoint` field is never read). */
  datatype CreateRequest = CreateRequest(name: string, port: int, seedPhrase: Option<string>, mailbox: bool)

  /** What a record keeps of the request besides its port. */
  datatype AgentDetails = AgentDetails(name: string, seedPhrase: Option<string>, mailbox: bool)

  type AgentRecord = Entry<AgentDetails>

  /** `AgentResponse`. */
  datatype AgentResponse = AgentResponse(
    agentId: string,
    name: string,
    port: int,
    address: string,
    status: AgentStatus,
    createdAt: string,
    processId: Option<int>)

  /** Where the two front ends write agent scripts, below the working directory. */
  const ServiceAgentsDir := "src/agents"
  const ServerAgentsDir := "agents"

  /** `os.path.join(os.getcwd(), <dir>, f"agent_{agent_id}.py")`. */
  function AgentFilePath(cwd: string, dir: string, agentId: string): string {
    cwd + "/" + dir + "/agent_" + agentId + ".py"
  }

  const AgentNotFound := HttpError(404, "Agent not found")

  /** The record a successful create stores. */
  function NewRecord(req: CreateRequest, agentId: string, now: string, filepath: string, pid: int): AgentRecord {
    Entry(req.port, AgentAddress(agentId, req.name), Running, now, Some(pid), filepath,
          AgentDetails(req.name, req.seedPhrase, req.mailbox))
  }

  function ResponseOf(agentId: string, r: AgentRecord): AgentResponse {
    AgentResponse(agentId, r.details.name, r.port, r.address, r.status, r.createdAt, r.processId)
  }

  /** The answer of `create_agent`: the port check comes first, then the
      script, the spawn and the liveness poll; every failure after the port
      check is a 500 whose detail says which step failed. */
  function CreateResult(agents: Dict<AgentRecord>, req: CreateRequest, agentId: string, now: string,
                        filepath: string, launch: Launch): (r: Result<AgentResponse, HttpError>)
    ensures r.Ok? <==> !PortTaken(agents, req.port) && launch.Spawned?
    ensures PortTaken(agents, req.port) ==> r == Err(PortInUse(req.port))
    ensures r.Err? && !PortTaken(agents, req.port) ==> r.error.status == 500
    ensures r.Ok? ==> && r.value.agentId == agentId && r.value.status == Running
                      && r.value.processId == Some(launch.pid) && r.value.port == req.port
                      && r.value.address == AgentAddress(agentId, req.name)
  {
    if PortTaken(agents, req.port) then Err(PortInUse(req.port))
    else
      match launch
      case SaveFailed(reason) => Err(HttpError(500, "Failed to create agent: " + reason))
      case SpawnFailed(reason) => Err(SpawnError(reason))
      case ExitedEarly(stderr) => Err(HttpError(500, "Agent failed to start: " + stderr))
      case Spawned(pid) => Ok(ResponseOf(agentId, NewRecord(req, agentId, now, filepath, pid)))
  }

  /** The registry after `create_agent`: one more entry on success, unchanged otherwise. */
  function CreateState(agents: Dict<AgentRecord>, req: CreateRequest, agentId: string, now: string,
                       filepath: string, launch: Launch): Dict<AgentRecord>
    requires agents.Valid()
  {
    if CreateResult(agents, req, agentId, now, filepath, launch).Ok?
    then agents.Put(agentId, NewRecord(req, agentId, now, filepath, launch.pid))
    else agents
  }

  /** A successful create with a fresh id adds exactly one "running" entry
      holding the new pid, the requested port and the derived address, and
      leaves every other entry as it was; a failed one changes nothing. */
  lemma CreateAddsOneEntry(agents: Dict<AgentRecord>, req: CreateRequest, agentId: string, now: string,
                           filepath: string, launch: Launch)
    requires agents.Valid() && agentId !in agents.entries
    ensures var after := CreateState(agents, req, agentId, now, filepath, launch);
            if CreateResult(agents, req, agentId, now, filepath, launch).Ok? then
              && after.Size() == agents.Size() + 1
              && after.entries.Keys == agents.entries.Keys + {agentId}
              && after.entries[agentId].status == Running
              && after.entries[agentId].processId == Some(launch.pid)
              && after.entries[agentId].port == req.port
              && after.entries[agentId].address == AgentAddress(agentId, req.name)
              && forall k :: k in agents.entries ==> after.entries[k] == agents.entries[k]
            else after == agents
  {
  }

  /** `list(...)` of the responses, in registry order. */
  function Listing(agents: Dict<AgentRecord>): seq<AgentResponse>
    requires agents.Valid()
  {
    seq(|agents.keys|, i requires 0 <= i < |agents.keys| => ResponseOf(agents.keys[i], agents.entries[agents.keys[i]]))
  }

  /** `AgentService`, or the agent server's module-level registry. */
  class AgentService {
    var agents: Dict<AgentRecord>
    /** Directory of the agent scripts below the working directory. */
    const agentsDir: string

    /** Keys and map agree, and ports are unique: create refuses a taken
        port, and nothing else changes a port. */
    predicate Valid()
      reads this
    {
      agents.Valid() && PortsUnique(agents)
    }

    /** An empty registry. */
    constructor(agentsDir: string)
      ensures Valid() && agents == Empty() && this.agentsDir == agentsDir
    {
      agents := Empty();
      this.agentsDir := agentsDir;
    }

    /** `create_agent`; `agentId` is the fresh uuid, `now` the creation
        time, `cwd` the working directory and `launch` what saving and
        spawning the agent script led to. */
    method CreateAgent(req: CreateRequest, agentId: string, now: string, cwd: string, launch: Launch)
      returns (r: Result<AgentResponse, HttpError>)
      requires Valid()
      modifies this
      ensures Valid()
      ensures r == CreateResult(old(agents), req, agentId, now, AgentFilePath(cwd, agentsDir, agentId), launch)
      ensures agents == CreateState(old(agents), req, agentId, now, AgentFilePath(cwd, agentsDir, agentId), launch)
    {
      var taken := CheckPort(agents, req.port);
      if taken {
        return Err(PortInUse(req.port));
      }
      var filepath := AgentFilePath(cwd, agentsDir, agentId);
      match launch {
        case SaveFailed(reason) =>
          r := Err(HttpError(500, "Failed to create agent: " + reason));
        case SpawnFailed(reason) =>
          r := Err(SpawnError(reason));
        case ExitedEarly(stderr) =>
          r := Err(HttpError(500, "Agent failed to start: " + stderr));
        case Spawned(pid) =>
          var record := NewRecord(req, agentId, now, filepath, pid);
          PutFreePortKeepsUnique(agents, agentId, record);
          agents := agents.Put(agentId, record);
          r := Ok(ResponseOf(agentId, record));
      }
    }

    /** `list_agents`: refreshes every status in place and lists the records. */
    method ListAgents(live: set<int>) returns (listed: seq<AgentResponse>)
      requires Valid()
      modifies this
      ensures Valid()
      ensures agents == RefreshAll(old(agents), live)
      ensures listed == Listing(agents)
    {
      var refreshed, items := RefreshAndList(agents, live);
      RefreshAllChangesOnlyStatus(agents, live);
      agents := refreshed;
      listed := seq(|items|, i requires 0 <= i < |items| => ResponseOf(items[i].0, items[i].1));
    }

    /** `get_agent`: 404 for an unknown id; otherwise refreshes that one
        record's status in place and returns it. */
    method GetAgent(agentId: string, live: set<int>) returns (r: Result<AgentResponse, HttpError>)
      requires Valid()
      modifies this
      ensures Valid()
      ensures agentId !in old(agents).entries ==> r == Err(AgentNotFound) && agents == old(agents)
      ensures agentId in old(agents).entries ==>
                && agents == old(agents).Put(agentId, Refresh(old(agents).entries[agentId], live))
                && r == Ok(ResponseOf(agentId, agents.entries[agentId]))
    {
      if agentId !in agents.entries {
        return Err(AgentNotFound);
      }
      var refreshed := Refresh(agents.entries[agentId], live);
      PutSamePortKeepsUnique(agents, agentId, refreshed);
      agents := agents.Put(agentId, refreshed);
      r := Ok(ResponseOf(agentId, refreshed));
    }

    /** `delete_agent`: 404 for an unknown id; otherwise removes that entry
        only, after stopping its process if that is live (`stopped`). */
    method DeleteAgent(agentId: string, live: set<int>) returns (r: Result<string, HttpError>, stopped: Option<int>)
      requires Valid()
      modifies this
      ensures Valid()
      ensures agentId !in old(agents).entries ==> r == Err(AgentNotFound) && agents == old(agents) && stopped == None
      ensures agentId in old(agents).entries ==>
                && r == Ok("Agent " + agentId + " deleted successfully")
                && agents == old(agents).Remove(agentId)
                && stopped == PidToStop(old(agents).entries[agentId], live)
    {
      if agentId !in agents.entries {
        return Err(AgentNotFound), None;
      }
      stopped := PidToStop(agents.entries[agentId], live);
      agents := agents.Remove(agentId);
      r := Ok("Agent " + agentId + " deleted successfully");
    }

    /** `start_agent`: 404 for an unknown id, 400 when its process is live;
        otherwise `spawn` is what `start_agent_process` did. A spawn failure
        is caught again by the handler's own `except Exception`, so its
        detail nests the text of the first error. */
    method StartAgent(agentId: string, live: set<int>, spawn: Result<int, string>) returns (r: Result<string, HttpError>)
      requires Valid()
      modifies this
      ensures Valid()
      ensures agentId !in old(agents).entries ==> r == Err(AgentNotFound) && agents == old(agents)
      ensures agentId in old(agents).entries && IsLive(old(agents).entries[agentId].processId, live) ==>
                r == Err(HttpError(400, "Agent is already running")) && agents == old(agents)
      ensures agentId in old(agents).entries && !IsLive(old(agents).entries[agentId].processId, live) ==>
                match spawn
                case Err(reason) =>
                  && r == Err(HttpError(500, "Failed to start agent: " + ErrorText(SpawnError(reason))))
                  && agents == old(agents)
                case Ok(pid) =>
                  && r == Ok("Agent " + agentId + " started successfully")
                  && agents == old(agents).Put(agentId, old(agents).entries[agentId].(processId := Some(pid), status := Running))
    {
      if agentId !in agents.entries {
        return Err(AgentNotFound);
      }
      var info := agents.entries[agentId];
      if IsLive(info.processId, live) {
        return Err(HttpError(400, "Agent is already running"));
      }
      match spawn {
        case Err(reason) =>
          r := Err(HttpError(500, "Failed to start agent: " + ErrorText(SpawnError(reason))));
        case Ok(pid) =>
          var started := info.(processId := Some(pid), status := Running);
          PutSamePortKeepsUnique(agents, agentId, started);
          agents := agents.Put(agentId, started);
          r := Ok("Agent " + agentId + " started successfully");
      }
    }

    /** `stop_agent`: 404 for an unknown id, 400 unless its process is live;
        otherwise `terminated` is what `stop_agent_process` returned. Its
        `False` raises a 500 that the handler's own `except Exception`
        turns into a second 500 quoting the first. */
    method StopAgent(agentId: string, live: set<int>, terminated: bool) returns (r: Result<string, HttpError>)
      requires Valid()
      modifies this
      ensures Valid()
      ensures agentId !in old(agents).entries ==> r == Err(AgentNotFound) && agents == old(agents)
      ensures agentId in old(agents).entries && !IsLive(old(agents).entries[agentId].processId, live) ==>
                r == Err(HttpError(400, "Agent is not running")) && agents == old(agents)
      ensures agentId in old(agents).entries && IsLive(old(agents).entries[agentId].processId, live) && !terminated ==>
                && r == Err(HttpError(500, "Failed to stop agent: " + ErrorText(HttpError(500, "Failed to stop agent"))))
                && agents == old(agents)
      ensures agentId in old(agents).entries && IsLive(old(agents).entries[agentId].processId, live) && terminated ==>
                && r == Ok("Agent " + agentId + " stopped successfully")
                && agents == old(agents).Put(agentId, old(agents).entries[agentId].(status := Stopped, processId := None))
    {
      if agentId !in agents.entries {
        return Err(AgentNotFound);
      }
      var info := agents.entries[agentId];
      if !IsLive(info.processId, live) {
        return Err(HttpError(400, "Agent is not running"));
      }
      if terminated {
        var halted := info.(status := Stopped, processId := None);
        PutSamePortKeepsUnique(agents, agentId, halted);
        agents := agents.Put(agentId, halted);
        r := Ok("Agent " + agentId + " stopped successfully");
      } else {
        r := Err(HttpError(500, "Failed to stop agent: " + ErrorText(HttpError(500, "Failed to stop agent"))));
      }
    }
  }
}
