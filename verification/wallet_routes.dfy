/** The wallet routes that compute over the company agents' listing:
    wallet statistics, the balances of all wallets, and the ENS resolve
    response. The listing is a parameter, and so are the balance lookups. */
module WalletRoutes {
  import opened Wrappers
  import opened Text
  import opened OrderedDict
  import WalletService

  /** The wallet of a listed agent, as the routes read it. */
  datatype WalletView = WalletView(
    address: string,
    chain: string,
    nativeToken: string,
    createdAt: string,
    balance: string,
    ensName: Option<string>)

  /** One agent of `list_company_agents()`, with its wallet if it has one. */
  datatype ListedAgent = ListedAgent(agentId: string, wallet: Option<WalletView>)

  // ---------------------------------------------------------------------------
  // get_wallet_stats

  predicate HasEns(a: ListedAgent) {
    a.wallet.Some? && Truthy(a.wallet.value.ensName)
  }

  /** `sum(1 for agent in agents if agent.wallet_info)`. */
  function CountWallets(agents: seq<ListedAgent>): (n: nat)
    ensures n <= |agents|
  {
    if agents == [] then 0
    else CountWallets(agents[..|agents| - 1]) + (if agents[|agents| - 1].wallet.Some? then 1 else 0)
  }

  /** `sum(1 for agent in agents if agent.wallet_info and agent.wallet_info.ens_name)`. */
  function CountEns(agents: seq<ListedAgent>): nat {
    if agents == [] then 0
    else CountEns(agents[..|agents| - 1]) + (if HasEns(agents[|agents| - 1]) then 1 else 0)
  }

  /** Agents with an ENS name are among the agents with a wallet. */
  lemma {:induction false} EnsAtMostWallets(agents: seq<ListedAgent>)
    ensures CountEns(agents) <= CountWallets(agents) <= |agents|
  {
    if agents != [] {
      EnsAtMostWallets(agents[..|agents| - 1]);
    }
  }

  /** The number of agents whose wallet is on `chain`. */
  function ChainCount(agents: seq<ListedAgent>, chain: string): nat {
    if agents == [] then 0
    else
      var last := agents[|agents| - 1];
      ChainCount(agents[..|agents| - 1], chain) + (if last.wallet.Some? && last.wallet.value.chain == chain then 1 else 0)
  }

  /** The sum of the counts of `keys`. */
  function SumCounts(keys: seq<string>, counts: map<string, nat>): nat
    requires forall k :: k in keys ==> k in counts
  {
    if keys == [] then 0 else SumCounts(keys[..|keys| - 1], counts) + counts[keys[|keys| - 1]]
  }

  lemma {:induction false} SumCountsFrame(keys: seq<string>, a: map<string, nat>, b: map<string, nat>)
    requires forall k :: k in keys ==> k in a && k in b && a[k] == b[k]
    ensures SumCounts(keys, a) == SumCounts(keys, b)
  {
    if keys != [] {
      SumCountsFrame(keys[..|keys| - 1], a, b);
    }
  }

  /** Adding one to the count of a key that occurs once adds one to the sum. */
  lemma {:induction false} SumCountsIncrement(keys: seq<string>, counts: map<string, nat>, c: string)
    requires forall k :: k in keys ==> k in counts
    requires forall i, j :: 0 <= i < j < |keys| ==> keys[i] != keys[j]
    requires c in keys
    ensures SumCounts(keys, counts[c := counts[c] + 1]) == SumCounts(keys, counts) + 1
  {
    var init := keys[..|keys| - 1];
    var last := keys[|keys| - 1];
    if last == c {
      forall i | 0 <= i < |init|
        ensures init[i] != c
      {
        assert init[i] == keys[i];
      }
      SumCountsFrame(init, counts, counts[c := counts[c] + 1]);
    } else {
      var i :| 0 <= i < |keys| && keys[i] == c;
      assert init[i] == c;
      SumCountsIncrement(init, counts, c);
    }
  }

  /** Appending a new key with count one adds one to the sum. */
  lemma SumCountsAppend(keys: seq<string>, counts: map<string, nat>, c: string)
    requires forall k :: k in keys ==> k in counts
    requires c !in keys
    ensures SumCounts(keys + [c], counts[c := 1]) == SumCounts(keys, counts) + 1
  {
    assert (keys + [c])[..|keys|] == keys;
    SumCountsFrame(keys, counts, counts[c := 1]);
  }

  /** `chains_used[chain] = chains_used.get(chain, 0) + 1`. */
  function Tally(chains: Dict<nat>, chain: string): (r: Dict<nat>)
    requires chains.Valid()
    ensures r.Valid()
    ensures r.entries == chains.entries[chain := (if chain in chains.entries then chains.entries[chain] else 0) + 1]
    ensures chain in chains.entries ==> r.keys == chains.keys
    ensures chain !in chains.entries ==> r.keys == chains.keys + [chain]
  {
    if chain in chains.entries then chains.Put(chain, chains.entries[chain] + 1) else chains.Put(chain, 1)
  }

  /** Tallying a chain adds one to the sum of the counts. */
  lemma TallySum(chains: Dict<nat>, chain: string)
    requires chains.Valid()
    ensures SumCounts(Tally(chains, chain).keys, Tally(chains, chain).entries) == SumCounts(chains.keys, chains.entries) + 1
  {
    if chain in chains.entries {
      SumCountsIncrement(chains.keys, chains.entries, chain);
    } else {
      SumCountsAppend(chains.keys, chains.entries, chain);
    }
  }

  /** The tally `chains_used` should hold after `agents`: per chain, the
      number of its wallets, built up agent by agent. */
  function ChainCounts(agents: seq<ListedAgent>): map<string, nat> {
    if agents == [] then map[]
    else
      var m := ChainCounts(agents[..|agents| - 1]);
      var last := agents[|agents| - 1];
      if last.wallet.Some? then
        var c := last.wallet.value.chain;
        m[c := (if c in m then m[c] else 0) + 1]
      else m
  }

  /** The tally has a key exactly for the chains in use, and counts the
      wallets on each. */
  lemma {:induction false} ChainCountsExact(agents: seq<ListedAgent>, c: string)
    ensures c in ChainCounts(agents) <==> ChainCount(agents, c) > 0
    ensures c in ChainCounts(agents) ==> ChainCounts(agents)[c] == ChainCount(agents, c)
  {
    if agents != [] {
      ChainCountsExact(agents[..|agents| - 1], c);
    }
  }

  /** The chains of the wallets of `agents`, each once, in the order in
      which they are first seen. */
  function ChainOrder(agents: seq<ListedAgent>): seq<string> {
    if agents == [] then []
    else
      var order := ChainOrder(agents[..|agents| - 1]);
      var last := agents[|agents| - 1];
      if last.wallet.Some? && last.wallet.value.chain !in order then order + [last.wallet.value.chain] else order
  }

  /** The first-seen order lists exactly the chains in use, each once. */
  lemma {:induction false} ChainOrderExactly(agents: seq<ListedAgent>)
    ensures forall c :: c in ChainOrder(agents) <==> ChainCount(agents, c) > 0
    ensures forall i, j :: 0 <= i < j < |ChainOrder(agents)| ==> ChainOrder(agents)[i] != ChainOrder(agents)[j]
  {
    if agents != [] {
      ChainOrderExactly(agents[..|agents| - 1]);
    }
  }

  /** The tally of `chains` after agent `i`: tallied when it has a wallet. */
  function TallyNext(chains: Dict<nat>, agent: ListedAgent): (r: Dict<nat>)
    requires chains.Valid()
    ensures r.Valid()
  {
    if agent.wallet.Some? then Tally(chains, agent.wallet.value.chain) else chains
  }

  /** One more agent keeps the keys in first-seen order. */
  lemma TallyStepOrder(agents: seq<ListedAgent>, i: nat, chains: Dict<nat>)
    requires i < |agents| && chains.Valid() && chains.keys == ChainOrder(agents[..i])
    ensures TallyNext(chains, agents[i]).keys == ChainOrder(agents[..i + 1])
  {
    assert agents[..i + 1][..i] == agents[..i];
    if agents[i].wallet.Some? {
      var c := agents[i].wallet.value.chain;
      assert c in chains.entries <==> c in chains.keys;
    }
  }

  /** One more agent keeps the counts. */
  lemma TallyStepCounts(agents: seq<ListedAgent>, i: nat, chains: Dict<nat>)
    requires i < |agents| && chains.Valid() && chains.entries == ChainCounts(agents[..i])
    ensures TallyNext(chains, agents[i]).entries == ChainCounts(agents[..i + 1])
  {
    assert agents[..i + 1][..i] == agents[..i];
  }

  /** One more agent keeps the counts adding up to the wallets. */
  lemma TallyStepSum(agents: seq<ListedAgent>, i: nat, chains: Dict<nat>)
    requires i < |agents| && chains.Valid()
    requires SumCounts(chains.keys, chains.entries) == CountWallets(agents[..i])
    ensures var next := TallyNext(chains, agents[i]);
            SumCounts(next.keys, next.entries) == CountWallets(agents[..i + 1])
  {
    assert agents[..i + 1][..i] == agents[..i];
    if agents[i].wallet.Some? {
      TallySum(chains, agents[i].wallet.value.chain);
    }
  }

  /** The `chains_used` loop: one key per chain seen, in the order first
      seen, counting the wallets on it; the counts add up to the number of
      agents with a wallet. */
  method ChainsUsed(agents: seq<ListedAgent>) returns (chains: Dict<nat>)
    ensures chains.Valid()
    ensures chains.keys == ChainOrder(agents)
    ensures chains.entries == ChainCounts(agents)
    ensures SumCounts(chains.keys, chains.entries) == CountWallets(agents)
  {
    chains := Empty();
    var i := 0;
    while i < |agents|
      invariant 0 <= i <= |agents|
      invariant chains.Valid() && chains.entries == ChainCounts(agents[..i])
      invariant chains.keys == ChainOrder(agents[..i])
      invariant SumCounts(chains.keys, chains.entries) == CountWallets(agents[..i])
    {
      TallyStepOrder(agents, i, chains);
      TallyStepCounts(agents, i, chains);
      TallyStepSum(agents, i, chains);
      if agents[i].wallet.Some? {
        chains := Tally(chains, agents[i].wallet.value.chain);
      }
      i := i + 1;
    }
    assert agents[..i] == agents;
  }


  /** A coverage percentage: 0 when there is nothing to cover, otherwise
      `part / whole * 100` rounded to two places (the floating-point value
      is not part of this model). */
  datatype Percentage = Zero | Ratio(part: nat, whole: nat)

  function Coverage(part: nat, whole: nat): (p: Percentage)
    ensures p.Ratio? ==> p.whole > 0
  {
    if whole > 0 then Ratio(part, whole) else Zero
  }

  /** The answer of `get_wallet_stats` (the estimated ETH total, a float, is
      not part of this model). */
  datatype WalletStats = WalletStats(
    totalAgents: nat,
    agentsWithWallets: nat,
    agentsWithEns: nat,
    walletCoverage: Percentage,
    ensCoverage: Percentage,
    chainsUsed: Dict<nat>)

  /** `get_wallet_stats`: the counts nest (ENS within wallets within
      agents), so both coverages are at most 100%; each is 0 when its base
      is 0; `chains_used` splits the wallets by chain. */
  method GetWalletStats(agents: seq<ListedAgent>) returns (stats: WalletStats)
    ensures stats.totalAgents == |agents|
    ensures stats.agentsWithWallets == CountWallets(agents) && stats.agentsWithEns == CountEns(agents)
    ensures stats.agentsWithEns <= stats.agentsWithWallets <= stats.totalAgents
    ensures stats.walletCoverage == Coverage(stats.agentsWithWallets, stats.totalAgents)
    ensures stats.ensCoverage == Coverage(stats.agentsWithEns, stats.agentsWithWallets)
    ensures stats.walletCoverage.Zero? <==> stats.totalAgents == 0
    ensures stats.ensCoverage.Zero? <==> stats.agentsWithWallets == 0
    ensures stats.chainsUsed.Valid() && stats.chainsUsed.keys == ChainOrder(agents)
    ensures forall c :: c in stats.chainsUsed.entries <==> ChainCount(agents, c) > 0
    ensures forall c :: c in stats.chainsUsed.entries ==> stats.chainsUsed.entries[c] == ChainCount(agents, c)
    ensures SumCounts(stats.chainsUsed.keys, stats.chainsUsed.entries) == stats.agentsWithWallets
  {
    var withWallets := CountWallets(agents);
    var withEns := CountEns(agents);
    EnsAtMostWallets(agents);
    var chains := ChainsUsed(agents);
    forall c
      ensures c in chains.entries <==> ChainCount(agents, c) > 0
      ensures c in chains.entries ==> chains.entries[c] == ChainCount(agents, c)
    {
      ChainCountsExact(agents, c);
    }
    stats := WalletStats(|agents|, withWallets, withEns, Coverage(withWallets, |agents|), Coverage(withEns, withWallets), chains);
  }

  // ---------------------------------------------------------------------------
  // get_all_wallet_balances

  /** What refreshing one wallet gave: the formatted balance (`None` where
      the lookup failed and the balance became "0"), or an exception the
      loop catches. */
  datatype BalanceOutcome = Fetched(balance: Option<string>) | Raised(error: string)

  /** One `WalletBalanceResponse`. */
  datatype WalletBalance = WalletBalance(
    agentId: string, walletAddress: string, balance: string, nativeToken: string, chain: string, lastUpdated: string)

  /** The entry for an agent whose refresh succeeded. `balance_updated_at`
      is always set by the refresh, so it is the time of the refresh. */
  function BalanceEntry(a: ListedAgent, fetched: Option<string>, now: string): WalletBalance
    requires a.wallet.Some?
  {
    var w := a.wallet.value;
    WalletBalance(a.agentId, w.address, fetched.GetOr("0"), w.nativeToken, w.chain, now)
  }

  /** An agent the balances listing reports. */
  predicate Reported(a: ListedAgent, outcome: BalanceOutcome) {
    a.wallet.Some? && outcome.Fetched?
  }

  /** `balances` after the first `n` agents. */
  function Balances(agents: seq<ListedAgent>, outcomes: seq<BalanceOutcome>, now: string, n: nat): seq<WalletBalance>
    requires n <= |agents| && n <= |outcomes|
  {
    if n == 0 then []
    else
      Balances(agents, outcomes, now, n - 1)
      + (if Reported(agents[n - 1], outcomes[n - 1]) then [BalanceEntry(agents[n - 1], outcomes[n - 1].balance, now)] else [])
  }

  /** The listing has at most one entry per agent with a wallet. */
  lemma {:induction false} BalancesAtMostWallets(agents: seq<ListedAgent>, outcomes: seq<BalanceOutcome>, now: string, n: nat)
    requires n <= |agents| && n <= |outcomes|
    ensures |Balances(agents, outcomes, now, n)| <= CountWallets(agents[..n])
  {
    if n > 0 {
      BalancesAtMostWallets(agents, outcomes, now, n - 1);
      assert agents[..n][..n - 1] == agents[..n - 1];
    }
  }

  /** An entry is listed exactly when it is the entry of an agent with a
      wallet whose refresh did not raise. */
  lemma {:induction false} BalancesExactly(agents: seq<ListedAgent>, outcomes: seq<BalanceOutcome>, now: string, n: nat, b: WalletBalance)
    requires n <= |agents| && n <= |outcomes|
    ensures b in Balances(agents, outcomes, now, n) <==>
            exists i :: 0 <= i < n && Reported(agents[i], outcomes[i]) && b == BalanceEntry(agents[i], outcomes[i].balance, now)
  {
    if n > 0 {
      BalancesExactly(agents, outcomes, now, n - 1, b);
      if b in Balances(agents, outcomes, now, n) && b !in Balances(agents, outcomes, now, n - 1) {
        assert Reported(agents[n - 1], outcomes[n - 1]) && b == BalanceEntry(agents[n - 1], outcomes[n - 1].balance, now);
      }
    }
  }

  /** `get_all_wallet_balances`: `outcomes[i]` is what refreshing agent
      `i`'s wallet gave; an agent whose refresh raised is skipped. (The
      write-back of each refreshed wallet into the company registry is not
      part of this model.) */
  method GetAllWalletBalances(agents: seq<ListedAgent>, outcomes: seq<BalanceOutcome>, now: string)
    returns (balances: seq<WalletBalance>)
    requires |outcomes| == |agents|
    ensures balances == Balances(agents, outcomes, now, |agents|)
  {
    balances := [];
    var i := 0;
    while i < |agents|
      invariant 0 <= i <= |agents|
      invariant balances == Balances(agents, outcomes, now, i)
    {
      var agent := agents[i];
      if agent.wallet.Some? {
        match outcomes[i] {
          case Raised(_) =>
          case Fetched(fetched) =>
            var w := agent.wallet.value;
            balances := balances + [WalletBalance(agent.agentId, w.address, fetched.GetOr("0"), w.nativeToken, w.chain, now)];
        }
      }
      i := i + 1;
    }
  }

  // ---------------------------------------------------------------------------
  // resolve_ens_name

  /** An `ENSResolveResponse`. */
  datatype ResolveResponse = ResolveResponse(ensName: string, address: Option<string>, success: bool, error: Option<string>)

  /** The resolve route: `success` is whether an address came back, and the
      error message is set exactly when none did. */
  function ResolveRoute(ensName: string, ensReady: bool, lookup: string -> Option<string>): (r: ResolveResponse)
    ensures r.ensName == ensName && r.address == WalletService.Resolve(ensReady, lookup, ensName)
    ensures r.success <==> r.address.Some?
    ensures r.error.Some? <==> !r.success
    ensures r.error.Some? ==> r.error.value == "ENS name not found or resolution failed"
  {
    var address := WalletService.Resolve(ensReady, lookup, ensName);
    ResolveResponse(ensName, address, address.Some?,
                    if Truthy(address) then None else Some("ENS name not found or resolution failed"))
  }
}
