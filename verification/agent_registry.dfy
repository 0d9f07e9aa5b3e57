/** What the three agent registries share. Each is a dictionary from agent
    id to the record of a generated agent script running as its own
    process; the records agree on the port, address, status, creation time,
    process id and script path, and differ only in the request details they
    keep (`D`). The set `live` of pids for which a process exists stands in
    for `psutil.pid_exists`. */
module AgentRegistry {
  import opened Wrappers
  import opened Text
  import opened OrderedDict

  /** The two values a record's `status` field takes, "running" and "stopped". */
  datatype AgentStatus = Running | Stopped

  /** One value of a registry. */
  datatype Entry<D> = Entry(
    port: int,
    address: string,
    status: AgentStatus,
    createdAt: string,
    processId: Option<int>,
    filepath: string,
    details: D)

  /** `agent_info.get("process_id")` is truthy: present and not 0. */
  predicate HasPid(pid: Option<int>) {
    pid.Some? && pid.value != 0
  }

  /** `agent_info.get("process_id") and is_process_running(pid)`. */
  predicate IsLive(pid: Option<int>, live: set<int>) {
    HasPid(pid) && pid.value in live
  }

  /** The status list and get write back into a record: a record whose pid
      is set reports exactly whether that process exists; a record without
      one keeps what it had. */
  function RefreshedStatus(status: AgentStatus, pid: Option<int>, live: set<int>): (s: AgentStatus)
    ensures HasPid(pid) ==> (s == Running <==> pid.value in live)
    ensures !HasPid(pid) ==> s == status
  {
    if !HasPid(pid) then status
    else if pid.value in live then Running
    else Stopped
  }

  /** The status health reports for a record: it ignores the stored status
      and reports "running" exactly for a live pid. */
  function ReportedStatus(pid: Option<int>, live: set<int>): (s: AgentStatus)
    ensures s == Running <==> IsLive(pid, live)
  {
    if IsLive(pid, live) then Running else Stopped
  }

  /** A refreshed record with a pid reports the same status as health does,
      and refreshing twice is refreshing once. */
  lemma RefreshAgreesWithHealth(status: AgentStatus, pid: Option<int>, live: set<int>)
    ensures HasPid(pid) ==> RefreshedStatus(status, pid, live) == ReportedStatus(pid, live)
    ensures RefreshedStatus(RefreshedStatus(status, pid, live), pid, live) == RefreshedStatus(status, pid, live)
  {
  }

  // ---------------------------------------------------------------------------
  // Create

  /** What happens in create between choosing the id and the liveness poll
      after the start-up wait. */
  datatype Launch =
    | SaveFailed(reason: string)   // writing the agent script raised
    | SpawnFailed(reason: string)  // `subprocess.Popen` raised
    | ExitedEarly(stderr: string)  // `process.poll()` was not None after the wait
    | Spawned(pid: int)            // the process is up

  /** `str(e)` of an `HTTPException`: "{status_code}: {detail}". */
  function ErrorText(e: HttpError): string {
    IntToString(e.status) + ": " + e.detail
  }

  /** The `HTTPException` `start_agent_process` raises when `Popen` fails. */
  function SpawnError(reason: string): HttpError {
    HttpError(500, "Failed to start agent: " + reason)
  }

  function PortInUse(port: int): HttpError {
    HttpError(400, "Port " + IntToString(port) + " is already in use")
  }

  /** `f"agent_{agent_id}@{name}"`. */
  function AgentAddress(agentId: string, name: string): string {
    "agent_" + agentId + "@" + name
  }

  /** Some registered agent already holds `port`. */
  predicate PortTaken<D>(agents: Dict<Entry<D>>, port: int) {
    exists k :: k in agents.entries && agents.entries[k].port == port
  }

  /** No two registered agents share a port. */
  predicate PortsUnique<D>(agents: Dict<Entry<D>>) {
    forall a, b :: a in agents.entries && b in agents.entries && a != b ==>
      agents.entries[a].port != agents.entries[b].port
  }

  /** The port check loop of both create handlers. */
  method CheckPort<D>(agents: Dict<Entry<D>>, port: int) returns (taken: bool)
    requires agents.Valid()
    ensures taken <==> PortTaken(agents, port)
  {
    var i := 0;
    while i < |agents.keys|
      invariant 0 <= i <= |agents.keys|
      invariant forall j :: 0 <= j < i ==> agents.entries[agents.keys[j]].port != port
    {
      if agents.entries[agents.keys[i]].port == port {
        return true;
      }
      i := i + 1;
    }
    assert !PortTaken(agents, port) by {
      forall k | k in agents.entries ensures agents.entries[k].port != port {
        var j :| 0 <= j < |agents.keys| && agents.keys[j] == k;
      }
    }
    return false;
  }

  /** Storing a record under a port nobody holds keeps ports unique, even
      when it overwrites an entry. */
  lemma PutFreePortKeepsUnique<D>(agents: Dict<Entry<D>>, k: string, e: Entry<D>)
    requires agents.Valid() && PortsUnique(agents) && !PortTaken(agents, e.port)
    ensures PortsUnique(agents.Put(k, e))
  {
    var after := agents.Put(k, e);
    forall a, b | a in after.entries && b in after.entries && a != b
      ensures after.entries[a].port != after.entries[b].port
    {
      if a == k {
        assert after.entries[b] == agents.entries[b];
      } else if b == k {
        assert after.entries[a] == agents.entries[a];
      }
    }
  }

  /** Rewriting an existing entry without touching its port keeps ports unique. */
  lemma PutSamePortKeepsUnique<D>(agents: Dict<Entry<D>>, k: string, e: Entry<D>)
    requires agents.Valid() && PortsUnique(agents)
    requires k in agents.entries && e.port == agents.entries[k].port
    ensures PortsUnique(agents.Put(k, e))
  {
  }

  // ---------------------------------------------------------------------------
  // List and get

  /** The status refresh list and get apply to one record. */
  function Refresh<D>(e: Entry<D>, live: set<int>): Entry<D> {
    e.(status := RefreshedStatus(e.status, e.processId, live))
  }

  /** The registry after list refreshed every record. */
  function RefreshAll<D>(agents: Dict<Entry<D>>, live: set<int>): Dict<Entry<D>> {
    Dict(agents.keys, map k | k in agents.entries :: Refresh(agents.entries[k], live))
  }

  /** `agents_registry.items()`, in registry order. */
  function Items<D>(agents: Dict<Entry<D>>): seq<(string, Entry<D>)>
    requires agents.Valid()
  {
    seq(|agents.keys|, i requires 0 <= i < |agents.keys| => (agents.keys[i], agents.entries[agents.keys[i]]))
  }

  /** Listing changes only statuses: the ids, their order, the ports and
      every other field stay; each record with a pid then says whether its
      process exists, and listing again with the same live set changes
      nothing more. */
  lemma RefreshAllChangesOnlyStatus<D>(agents: Dict<Entry<D>>, live: set<int>)
    requires agents.Valid()
    ensures var after := RefreshAll(agents, live);
            && after.Valid() && after.keys == agents.keys
            && (forall k :: k in agents.entries ==>
                  after.entries[k] == agents.entries[k].(status := after.entries[k].status))
            && (forall k :: k in agents.entries && HasPid(agents.entries[k].processId) ==>
                  (after.entries[k].status == Running <==> IsLive(agents.entries[k].processId, live)))
            && RefreshAll(after, live) == after
            && (PortsUnique(agents) ==> PortsUnique(after))
  {
    var after := RefreshAll(agents, live);
    forall k | k in agents.entries
      ensures Refresh(after.entries[k], live) == after.entries[k]
    {
      RefreshAgreesWithHealth(agents.entries[k].status, agents.entries[k].processId, live);
    }
  }

  /** A registry whose every entry, reached through the key order, is the
      refreshed entry of `before` is `before` refreshed. */
  lemma RefreshedEverywhere<D>(before: Dict<Entry<D>>, after: Dict<Entry<D>>, live: set<int>)
    requires before.Valid()
    requires after.keys == before.keys && after.entries.Keys == before.entries.Keys
    requires forall j :: 0 <= j < |before.keys| ==>
               after.entries[before.keys[j]] == Refresh(before.entries[before.keys[j]], live)
    ensures after == RefreshAll(before, live) && after.Valid()
  {
    assert after.entries == RefreshAll(before, live).entries by {
      forall k | k in after.entries ensures after.entries[k] == Refresh(before.entries[k], live) {
        var j :| 0 <= j < |before.keys| && before.keys[j] == k;
      }
    }
    RefreshAllChangesOnlyStatus(before, live);
  }

  /** The loop of both list handlers: each record in registry order has its
      status refreshed and is listed. */
  method RefreshAndList<D>(d: Dict<Entry<D>>, live: set<int>)
    returns (refreshed: Dict<Entry<D>>, listed: seq<(string, Entry<D>)>)
    requires d.Valid()
    ensures refreshed == RefreshAll(d, live)
    ensures refreshed.Valid() && listed == Items(refreshed)
  {
    var keys := d.keys;
    refreshed := d;
    listed := [];
    var i := 0;
    while i < |keys|
      invariant 0 <= i <= |keys|
      invariant refreshed.keys == keys && refreshed.entries.Keys == d.entries.Keys
      invariant forall j :: 0 <= j < i ==> refreshed.entries[keys[j]] == Refresh(d.entries[keys[j]], live)
      invariant forall j :: i <= j < |keys| ==> refreshed.entries[keys[j]] == d.entries[keys[j]]
      invariant |listed| == i
      invariant forall j :: 0 <= j < i ==> listed[j] == (keys[j], Refresh(d.entries[keys[j]], live))
    {
      var k := keys[i];
      var e := Refresh(refreshed.entries[k], live);
      assert forall j :: 0 <= j < |keys| && j != i ==> keys[j] != k;
      refreshed := refreshed.Put(k, e);
      listed := listed + [(k, e)];
      i := i + 1;
    }
    RefreshedEverywhere(d, refreshed, live);
    assert forall j :: 0 <= j < |keys| ==> Items(refreshed)[j] == listed[j];
  }

  // ---------------------------------------------------------------------------
  // Health

  /** One entry of a health answer: the record as it is stored, with the
      status health computes and the uptime of a live process. */
  datatype StatusEntry<D> = StatusEntry(agentId: string, entry: Entry<D>, status: AgentStatus, uptime: Option<string>)

  /** A health answer; its "status" is always "healthy". */
  datatype Health<D> = Health(totalAgents: nat, activeAgents: nat, agents: seq<StatusEntry<D>>)

  function StatusOf<D>(agentId: string, e: Entry<D>, live: set<int>, uptimeOf: int -> Option<string>): StatusEntry<D> {
    StatusEntry(agentId, e, ReportedStatus(e.processId, live),
                if IsLive(e.processId, live) then uptimeOf(e.processId.value) else None)
  }

  /** The processes of the registry's records, in registry order. */
  function Pids<D>(agents: Dict<Entry<D>>): (pids: seq<Option<int>>)
    requires agents.Valid()
    ensures |pids| == agents.Size()
  {
    seq(|agents.keys|, i requires 0 <= i < |agents.keys| => agents.entries[agents.keys[i]].processId)
  }

  /** The number of live pids among `pids`, counted front to back as the
      health loops do. */
  function LiveCount(pids: seq<Option<int>>, live: set<int>): (n: nat)
    ensures n <= |pids|
  {
    if pids == [] then 0
    else
      var before := pids[..|pids| - 1];
      assert forall i :: 0 <= i < |before| ==> before[i] == pids[i];
      LiveCount(before, live) + if IsLive(pids[|pids| - 1], live) then 1 else 0
  }

  /** One more pid counted, as one more iteration of a health loop does. */
  lemma LiveCountSnoc(pids: seq<Option<int>>, i: nat, live: set<int>)
    requires i < |pids|
    ensures LiveCount(pids[..i + 1], live) == LiveCount(pids[..i], live) + if IsLive(pids[i], live) then 1 else 0
  {
    assert pids[..i + 1][..i] == pids[..i];
  }

  /** No agent is active exactly when no pid is live. */
  lemma {:induction false} LiveCountZero(pids: seq<Option<int>>, live: set<int>)
    ensures LiveCount(pids, live) == 0 <==> forall i :: 0 <= i < |pids| ==> !IsLive(pids[i], live)
  {
    if pids != [] {
      var before := pids[..|pids| - 1];
      assert forall i :: 0 <= i < |before| ==> before[i] == pids[i];
      LiveCountZero(before, live);
    }
  }

  /** Every agent is active exactly when every pid is live. */
  lemma {:induction false} LiveCountFull(pids: seq<Option<int>>, live: set<int>)
    ensures LiveCount(pids, live) == |pids| <==> forall i :: 0 <= i < |pids| ==> IsLive(pids[i], live)
  {
    if pids != [] {
      var before := pids[..|pids| - 1];
      assert forall i :: 0 <= i < |before| ==> before[i] == pids[i];
      LiveCountFull(before, live);
    }
  }

  /** The loop of both health handlers, which only read the registry: every
      record reports "running" exactly when its pid is live; `active_agents`
      counts those and never exceeds `total_agents`, the registry size. */
  method HealthReport<D>(d: Dict<Entry<D>>, live: set<int>, uptimeOf: int -> Option<string>) returns (h: Health<D>)
    requires d.Valid()
    ensures h.totalAgents == d.Size()
    ensures h.activeAgents == LiveCount(Pids(d), live) <= h.totalAgents
    ensures |h.agents| == h.totalAgents
    ensures forall j :: 0 <= j < |h.agents| ==> h.agents[j] == StatusOf(d.keys[j], d.entries[d.keys[j]], live, uptimeOf)
  {
    var pids := Pids(d);
    var active: nat := 0;
    var statuses: seq<StatusEntry<D>> := [];
    var i := 0;
    while i < |d.keys|
      invariant 0 <= i <= |d.keys|
      invariant active == LiveCount(pids[..i], live)
      invariant |statuses| == i
      invariant forall j :: 0 <= j < i ==> statuses[j] == StatusOf(d.keys[j], d.entries[d.keys[j]], live, uptimeOf)
    {
      var e := d.entries[d.keys[i]];
      LiveCountSnoc(pids, i, live);
      if IsLive(e.processId, live) {
        active := active + 1;
      }
      statuses := statuses + [StatusOf(d.keys[i], e, live, uptimeOf)];
      i := i + 1;
    }
    assert pids[..i] == pids;
    h := Health(|d.keys|, active, statuses);
  }

  // ---------------------------------------------------------------------------
  // Delete

  /** The pid delete stops before removing a record: only a live one. */
  function PidToStop<D>(e: Entry<D>, live: set<int>): (p: Option<int>)
    ensures p.Some? <==> IsLive(e.processId, live)
    ensures p.Some? ==> p == e.processId
  {
    if IsLive(e.processId, live) then e.processId else None
  }
}
