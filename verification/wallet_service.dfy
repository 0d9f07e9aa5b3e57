/** `WalletService`: creates agent wallets, prepares their ENS names,
    refreshes their balances and checks ENS availability. A wallet is the
    `dict` the service builds and then updates in place. Web3, ENS, Fernet
    and the clock are oracles: their answers are parameters. */
module WalletService {
  import opened Wrappers
  import opened Text

  /** A value of the wallet dict. */
  datatype Value = Str(s: string) | Int(i: int) | Bool(b: bool) | Null

  type Fields = map<string, Value>

  /** The wallet dict, which `register_ens_name` and `update_wallet_balance`
      update in place. */
  class WalletInfo {
    var fields: Fields

    constructor(fields: Fields)
      ensures this.fields == fields
    {
      this.fields := fields;
    }
  }

  /** One entry of `chain_configs` (the RPC URL, read from the environment,
      is not part of this model). */
  datatype ChainConfig = ChainConfig(chainId: int, nativeToken: string, ensSupported: bool, networkName: string)

  /** `self.chain_configs.get(chain)`. */
  function ChainConfigOf(chain: string): (c: Option<ChainConfig>)
    ensures c.Some? <==> chain == "ethereum" || chain == "polygon" || chain == "bsc"
    ensures c.Some? && c.value.ensSupported <==> chain == "ethereum"
  {
    if chain == "ethereum" then Some(ChainConfig(11155111, "ETH", true, "sepolia"))
    else if chain == "polygon" then Some(ChainConfig(80002, "AMOY", false, "amoy"))
    else if chain == "bsc" then Some(ChainConfig(84532, "ETH", false, "base_sepolia"))
    else None
  }

  /** `_get_web3_instance`: an unknown chain and a failed connection raise. */
  function Web3For(chain: string, connected: bool): (r: Result<ChainConfig, string>)
    ensures r.Ok? <==> ChainConfigOf(chain).Some? && connected
    ensures r.Ok? ==> r.value == ChainConfigOf(chain).value
  {
    match ChainConfigOf(chain)
    case None => Err("Unsupported chain: " + chain)
    case Some(config) => if connected then Ok(config) else Err("Failed to connect to " + chain + " network")
  }

  // ---------------------------------------------------------------------------
  // generate_wallet

  /** The dict `generate_wallet` returns. */
  function NewWallet(chain: string, config: ChainConfig, address: string, encryptedKey: string, now: string): Fields {
    map[
      "address" := Str(address),
      "encrypted_private_key" := Str(encryptedKey),
      "chain" := Str(chain),
      "chain_id" := Int(config.chainId),
      "native_token" := Str(config.nativeToken),
      "created_at" := Str(now),
      "balance" := Str("0"),
      "ens_name" := Null,
      "ens_registered" := Bool(false)]
  }

  /** `generate_wallet`: `address` and `encryptedKey` are the account the
      fresh key gives and that key encrypted; any failure is re-raised as
      "Wallet generation failed: ...". */
  function GenerateWallet(chain: string, connected: bool, address: string, encryptedKey: string, now: string)
    : (r: Result<Fields, string>)
    ensures r.Ok? <==> ChainConfigOf(chain).Some? && connected
    ensures r.Err? ==> StartsWith(r.error, "Wallet generation failed: ")
  {
    match Web3For(chain, connected)
    case Err(e) => Err("Wallet generation failed: " + e)
    case Ok(config) => Ok(NewWallet(chain, config, address, encryptedKey, now))
  }

  /** A new wallet starts with balance "0", no ENS name and not registered,
      and takes its chain id and native token from the chain's configuration. */
  lemma NewWalletShape(chain: string, connected: bool, address: string, encryptedKey: string, now: string)
    requires GenerateWallet(chain, connected, address, encryptedKey, now).Ok?
    ensures var w := GenerateWallet(chain, connected, address, encryptedKey, now).value;
            var config := ChainConfigOf(chain).value;
            && w["balance"] == Str("0") && w["ens_name"] == Null && w["ens_registered"] == Bool(false)
            && w["chain_id"] == Int(config.chainId) && w["native_token"] == Str(config.nativeToken)
            && w["address"] == Str(address) && w["chain"] == Str(chain)
  {
  }

  // ---------------------------------------------------------------------------
  // validate_wallet_info

  const RequiredFields: seq<string> := ["address", "encrypted_private_key", "chain", "chain_id", "created_at"]

  /** Every one of `required` is a key of `fields`. */
  predicate HasAll(fields: Fields, required: seq<string>) {
    forall i :: 0 <= i < |required| ==> required[i] in fields
  }

  /** The five required keys are all present. */
  predicate HasRequired(fields: Fields) {
    "address" in fields && "encrypted_private_key" in fields && "chain" in fields
    && "chain_id" in fields && "created_at" in fields
  }

  lemma RequiredFieldsListed(fields: Fields)
    ensures HasAll(fields, RequiredFields) <==> HasRequired(fields)
  {
    if HasAll(fields, RequiredFields) {
      assert RequiredFields[0] in fields && RequiredFields[1] in fields && RequiredFields[2] in fields;
      assert RequiredFields[3] in fields && RequiredFields[4] in fields;
    }
    if HasRequired(fields) {
      forall i | 0 <= i < |RequiredFields| ensures RequiredFields[i] in fields {
      }
    }
  }

  /** The address shape `validate_wallet_info` accepts. */
  predicate AddressShaped(a: string) {
    StartsWith(a, "0x") && |a| == 42
  }

  /** The first required key that is missing, if any. */
  method FindMissing(fields: Fields, required: seq<string>) returns (missing: bool)
    ensures missing <==> !HasAll(fields, required)
  {
    var i := 0;
    while i < |required|
      invariant 0 <= i <= |required|
      invariant forall j :: 0 <= j < i ==> required[j] in fields
    {
      if required[i] !in fields {
        return true;
      }
      i := i + 1;
    }
    return false;
  }

  /** `validate_wallet_info`: false when a required key is missing,
      otherwise whether the address starts with "0x" and has 42
      characters. `None` is the `AttributeError` a non-string address
      raises. */
  method ValidateWalletInfo(fields: Fields) returns (r: Option<bool>)
    ensures !HasRequired(fields) ==> r == Some(false)
    ensures HasRequired(fields) && fields["address"].Str? ==> r == Some(AddressShaped(fields["address"].s))
    ensures HasRequired(fields) && !fields["address"].Str? ==> r == None
  {
    var missing := FindMissing(fields, RequiredFields);
    RequiredFieldsListed(fields);
    if missing {
      return Some(false);
    }
    match fields["address"] {
      case Str(a) => r := Some(StartsWith(a, "0x") && |a| == 42);
      case _ => r := None;
    }
  }

  /** A freshly generated wallet has every required key and the account
      address, so it passes validation exactly when that address is well
      shaped. */
  lemma GeneratedWalletValidates(chain: string, connected: bool, address: string, encryptedKey: string, now: string)
    requires GenerateWallet(chain, connected, address, encryptedKey, now).Ok?
    ensures var w := GenerateWallet(chain, connected, address, encryptedKey, now).value;
            HasRequired(w) && w["address"] == Str(address)
  {
  }

  // ---------------------------------------------------------------------------
  // ENS lookups

  /** `resolve_ens_name` (and likewise `reverse_resolve_address`): nothing
      without an ENS instance, and only a non-empty answer of the lookup;
      `lookup` answers `None` where the library found nothing or raised. */
  function Resolve(ensReady: bool, lookup: string -> Option<string>, name: string): (r: Option<string>)
    ensures r.Some? ==> ensReady && r.value != "" && lookup(name) == r
    ensures ensReady && Truthy(lookup(name)) ==> r == lookup(name)
  {
    if !ensReady then None
    else match lookup(name)
      case Some(a) => if a != "" then Some(a) else None
      case None => None
  }

  // ---------------------------------------------------------------------------
  // register_ens_name

  /** `s.replace(c, '')`. */
  function RemoveChar(s: string, c: char): string {
    if s == [] then []
    else (if s[0] == c then [] else [s[0]]) + RemoveChar(s[1..], c)
  }

  lemma {:induction false} RemoveCharShape(s: string, c: char)
    ensures c !in RemoveChar(s, c)
    ensures forall x :: x in RemoveChar(s, c) ==> x in s
    ensures c !in s ==> RemoveChar(s, c) == s
  {
    if s != [] {
      RemoveCharShape(s[1..], c);
      assert s == [s[0]] + s[1..];
    }
  }

  /** The ENS label of an agent name: spaces, underscores and hyphens
      removed, then lower-cased. */
  function CleanLabel(agentName: string): string {
    Lower(RemoveChar(RemoveChar(RemoveChar(agentName, ' '), '_'), '-'))
  }

  /** A label has no space, underscore, hyphen or upper-case letter. */
  predicate LabelShaped(s: string) {
    forall i :: 0 <= i < |s| ==> s[i] != ' ' && s[i] != '_' && s[i] != '-' && !('A' <= s[i] <= 'Z')
  }

  /** Cleaning leaves a label of that shape, and cleaning a label again
      changes nothing. */
  lemma CleanLabelShape(agentName: string)
    ensures LabelShaped(CleanLabel(agentName))
    ensures CleanLabel(CleanLabel(agentName)) == CleanLabel(agentName)
  {
    var a := RemoveChar(agentName, ' ');
    var b := RemoveChar(a, '_');
    var c := RemoveChar(b, '-');
    RemoveCharShape(agentName, ' ');
    RemoveCharShape(a, '_');
    RemoveCharShape(b, '-');
    var l := Lower(c);
    forall i | 0 <= i < |l| ensures l[i] != ' ' && l[i] != '_' && l[i] != '-' && !('A' <= l[i] <= 'Z') {
      assert c[i] in c;
    }
    assert LabelShaped(l);
    LabelIsClean(l);
  }

  lemma LabelIsClean(l: string)
    requires LabelShaped(l)
    ensures CleanLabel(l) == l
  {
    RemoveCharShape(l, ' ');
    RemoveCharShape(l, '_');
    RemoveCharShape(l, '-');
    assert forall i :: 0 <= i < |l| ==> LowerChar(l[i]) == l[i];
  }

  /** The name tried first. */
  function PrimaryName(agentName: string): string {
    CleanLabel(agentName) + ".eth"
  }

  /** The name tried when the first one resolves: the first eight
      characters of the agent id, lower-cased, go before ".eth". */
  function FallbackName(agentName: string, agentId: string): string {
    CleanLabel(agentName) + Lower(PyPrefix(agentId, 8)) + ".eth"
  }

  /** The name proposed, and whether the last name checked resolved. */
  function ProposedName(agentName: string, agentId: string, ensReady: bool, lookup: string -> Option<string>)
    : (string, Option<string>)
  {
    var first := Resolve(ensReady, lookup, PrimaryName(agentName));
    if first.Some? then (FallbackName(agentName, agentId), Resolve(ensReady, lookup, FallbackName(agentName, agentId)))
    else (PrimaryName(agentName), None)
  }

  /** The primary name is kept exactly when it does not resolve; otherwise
      the fallback is proposed, whether or not it resolves too. */
  lemma ProposedNameChoice(agentName: string, agentId: string, ensReady: bool, lookup: string -> Option<string>)
    ensures var (name, existing) := ProposedName(agentName, agentId, ensReady, lookup);
            && (Resolve(ensReady, lookup, PrimaryName(agentName)).None? ==> name == PrimaryName(agentName) && existing.None?)
            && (Resolve(ensReady, lookup, PrimaryName(agentName)).Some? ==>
                  name == FallbackName(agentName, agentId) && existing == Resolve(ensReady, lookup, name))
            && EndsWith(name, ".eth") && StartsWith(name, CleanLabel(agentName))
  {
    var (name, existing) := ProposedName(agentName, agentId, ensReady, lookup);
    var clean := CleanLabel(agentName);
    if Resolve(ensReady, lookup, PrimaryName(agentName)).Some? {
      assert name == clean + (Lower(PyPrefix(agentId, 8)) + ".eth");
    }
    assert name[..|clean|] == clean;
  }

  /** A key of the "ens_" family, the only keys registration writes. */
  predicate EnsKey(k: string) {
    |k| >= 4 && k[0] == 'e' && k[1] == 'n' && k[2] == 's' && k[3] == '_'
  }

  /** The short failure update, written when there is no ENS instance and
      by the outer handler: a "failed" status with its reason, and unlike
      the inner handler no name and no registered flag. */
  function StatusFailed(error: string): (u: Fields)
    ensures forall k :: k in u ==> EnsKey(k)
    ensures "ens_registration_status" in u && u["ens_registration_status"] == Str("failed")
    ensures "ens_error" in u && u["ens_error"] == Str(error)
    ensures "ens_name" !in u && "ens_registered" !in u
  {
    map["ens_registration_status" := Str("failed"), "ens_error" := Str(error)]
  }

  /** What is written when the progress message's `wallet_info['address']`
      raises `KeyError` into the inner handler. */
  function AddressMissing(name: string): (u: Fields)
    ensures forall k :: k in u ==> EnsKey(k)
  {
    map["ens_name" := Str(name), "ens_registered" := Bool(false),
        "ens_registration_status" := Str("failed"), "ens_error" := Str("'address'")]
  }

  /** What is written for a prepared name. */
  function Prepared(name: string, existing: Option<string>): (u: Fields)
    ensures forall k :: k in u ==> EnsKey(k)
  {
    map["ens_name" := Str(name),
        "ens_registered" := Bool(false),
        "ens_registration_status" := Str("prepared"),
        "ens_registration_note" := Str("ENS name " + name + " prepared for Sepolia testnet. Registration requires funding and manual setup."),
        "ens_network" := Str("sepolia"),
        "ens_registry_available" := Bool(existing.None?)]
  }

  /** The keys `register_ens_name` writes when the chain is Ethereum. */
  function RegistrationUpdate(fields: Fields, agentName: string, agentId: string, ensReady: bool,
                              lookup: string -> Option<string>): (u: Fields)
    ensures forall k :: k in u ==> EnsKey(k)
  {
    if !ensReady then StatusFailed("ENS not initialized")
    else
      var (name, existing) := ProposedName(agentName, agentId, ensReady, lookup);
      if "address" !in fields then AddressMissing(name) else Prepared(name, existing)
  }

  /** The dict after `register_ens_name`; it only ever writes "ens_" keys.
      A wallet without a chain raises `KeyError` into the outer handler,
      whose message is the quoted key. */
  function Registered(fields: Fields, agentName: string, agentId: string, ensReady: bool,
                      lookup: string -> Option<string>): (r: Fields)
    ensures forall k :: !EnsKey(k) ==> (k in r <==> k in fields) && (k in fields ==> r[k] == fields[k])
  {
    if "chain" !in fields then
      fields + StatusFailed("'chain'")
    else if fields["chain"] != Str("ethereum") then fields
    else fields + RegistrationUpdate(fields, agentName, agentId, ensReady, lookup)
  }

  /** Outside Ethereum the wallet is returned untouched. */
  lemma OffEthereumUntouched(fields: Fields, agentName: string, agentId: string, ensReady: bool,
                             lookup: string -> Option<string>)
    requires "chain" in fields && fields["chain"] != Str("ethereum")
    ensures Registered(fields, agentName, agentId, ensReady, lookup) == fields
  {
  }

  /** Without an ENS instance the status is "failed" with its reason. */
  lemma WithoutEnsFailed(fields: Fields, agentName: string, agentId: string, lookup: string -> Option<string>)
    requires "chain" in fields && fields["chain"] == Str("ethereum")
    ensures var r := Registered(fields, agentName, agentId, false, lookup);
            r["ens_registration_status"] == Str("failed") && r["ens_error"] == Str("ENS not initialized")
  {
  }

  /** With ENS, a proposed name is never marked registered, its status is
      "prepared", and the registry counts as available exactly when the
      last name checked did not resolve. */
  lemma PreparedOutcome(fields: Fields, agentName: string, agentId: string, lookup: string -> Option<string>)
    requires "chain" in fields && fields["chain"] == Str("ethereum") && "address" in fields
    ensures var r := Registered(fields, agentName, agentId, true, lookup);
            var (name, existing) := ProposedName(agentName, agentId, true, lookup);
            && r["ens_name"] == Str(name)
            && r["ens_registered"] == Bool(false)
            && r["ens_registration_status"] == Str("prepared")
            && r["ens_registry_available"] == Bool(existing.None?)
  {
  }

  /** `register_ens_name`, updating `w` in place. */
  method RegisterEnsName(w: WalletInfo, agentName: string, agentId: string, ensReady: bool,
                         lookup: string -> Option<string>)
    modifies w
    ensures w.fields == Registered(old(w.fields), agentName, agentId, ensReady, lookup)
  {
    if "chain" !in w.fields {
      w.fields := w.fields + StatusFailed("'chain'");
      return;
    }
    if w.fields["chain"] != Str("ethereum") {
      return;
    }
    w.fields := w.fields + RegistrationUpdate(w.fields, agentName, agentId, ensReady, lookup);
  }

  // ---------------------------------------------------------------------------
  // update_wallet_balance

  /** The dict after `update_wallet_balance`: `fetched` is the formatted
      balance, or `None` where `get_wallet_balance` failed and so answered
      "0". */
  function BalanceUpdated(fields: Fields, fetched: Option<string>, now: string): (r: Fields)
    ensures r.Keys == fields.Keys + {"balance", "balance_updated_at"}
    ensures forall k :: k in fields && k != "balance" && k != "balance_updated_at" ==> r[k] == fields[k]
    ensures r["balance"] == Str(fetched.GetOr("0")) && r["balance_updated_at"] == Str(now)
  {
    fields["balance" := Str(fetched.GetOr("0"))]["balance_updated_at" := Str(now)]
  }

  /** `update_wallet_balance`, updating `w` in place. */
  method UpdateWalletBalance(w: WalletInfo, fetched: Option<string>, now: string)
    modifies w
    ensures w.fields == BalanceUpdated(old(w.fields), fetched, now)
  {
    w.fields := w.fields["balance" := Str(fetched.GetOr("0"))];
    w.fields := w.fields["balance_updated_at" := Str(now)];
  }

  // ---------------------------------------------------------------------------
  // create_agent_wallet

  /** The agent keys `create_agent_wallet` adds last. */
  function AgentKeys(agentId: string, agentName: string, companyName: string): Fields {
    map["agent_id" := Str(agentId), "agent_name" := Str(agentName),
        "company_name" := Str(companyName), "wallet_purpose" := Str("agent_operations")]
  }

  /** `create_agent_wallet`: generate, prepare the ENS name, refresh the
      balance, then add the agent's keys. Only generation can fail. */
  method CreateAgentWallet(agentName: string, companyName: string, agentId: string, chain: string,
                           connected: bool, address: string, encryptedKey: string, now: string,
                           ensReady: bool, lookup: string -> Option<string>, fetched: Option<string>)
    returns (r: Result<WalletInfo, string>)
    ensures r.Err? <==> GenerateWallet(chain, connected, address, encryptedKey, now).Err?
    ensures r.Err? ==> r.error == "Agent wallet creation failed: " + GenerateWallet(chain, connected, address, encryptedKey, now).error
    ensures r.Ok? ==>
              && fresh(r.value)
              && r.value.fields ==
                   BalanceUpdated(Registered(GenerateWallet(chain, connected, address, encryptedKey, now).value,
                                             agentName, agentId, ensReady, lookup), fetched, now)
                   + AgentKeys(agentId, agentName, companyName)
  {
    var generated := GenerateWallet(chain, connected, address, encryptedKey, now);
    if generated.Err? {
      return Err("Agent wallet creation failed: " + generated.error);
    }
    var w := new WalletInfo(generated.value);
    RegisterEnsName(w, agentName, agentId, ensReady, lookup);
    UpdateWalletBalance(w, fetched, now);
    w.fields := w.fields + AgentKeys(agentId, agentName, companyName);
    r := Ok(w);
  }

  /** A created wallet still has every required key and the generated
      address, so it validates exactly when that address is well shaped. */
  lemma CreatedWalletValidates(fields: Fields, agentName: string, companyName: string, agentId: string,
                               ensReady: bool, lookup: string -> Option<string>, fetched: Option<string>, now: string)
    requires HasRequired(fields)
    ensures var created := BalanceUpdated(Registered(fields, agentName, agentId, ensReady, lookup), fetched, now)
                           + AgentKeys(agentId, agentName, companyName);
            HasRequired(created) && created["address"] == fields["address"]
  {
    assert !EnsKey("address") && !EnsKey("encrypted_private_key") && !EnsKey("chain");
    assert !EnsKey("chain_id") && !EnsKey("created_at");
  }

  // ---------------------------------------------------------------------------
  // test_ens_functionality

  /** What probing the Ethereum connection gave: connected with its chain
      id and block number; not connected; connected, but reading the chain
      id or block number raised; or getting the connection raised. */
  datatype Web3Probe =
    | Connected(chainId: int, blockNumber: int)
    | NotConnected
    | ConnectedThenRaised(readError: string)
    | Raised(error: string)
  {
    /** `web3_connected` is set as soon as `is_connected()` answers yes,
        before the chain id and block number are read. */
    predicate ReportsConnected() {
      Connected? || ConnectedThenRaised?
    }
  }

  datatype NetworkInfo = NetworkInfo(chainId: int, blockNumber: int, network: string)

  /** One entry of `test_resolution`. */
  datatype Resolution = Resolution(address: Option<string>, reverseName: Option<string>, success: bool)

  datatype Summary = Summary(totalTests: nat, successfulResolutions: nat, overallSuccess: bool)

  datatype EnsTest = EnsTest(
    ensInitialized: bool,
    web3Connected: bool,
    networkInfo: Option<NetworkInfo>,
    testResolution: seq<(string, Resolution)>,
    errors: seq<string>,
    summary: Summary)

  const TestNames: seq<string> := ["vitalik.eth", "ens.eth", "ethereum.eth"]

  /** The test of one name: resolve it and, if that worked, reverse the address. */
  function ResolutionOf(name: string, ensReady: bool, lookup: string -> Option<string>,
                        reverseLookup: string -> Option<string>): (r: Resolution)
    ensures r.success <==> Resolve(ensReady, lookup, name).Some?
  {
    var address := Resolve(ensReady, lookup, name);
    var reverseName := if address.Some? then Resolve(ensReady, reverseLookup, address.value) else None;
    Resolution(address, reverseName, address.Some?)
  }

  /** How many of `results` succeeded. */
  function SuccessCount(results: seq<(string, Resolution)>): (n: nat)
    ensures n <= |results|
  {
    if results == [] then 0
    else SuccessCount(results[..|results| - 1]) + (if results[|results| - 1].1.success then 1 else 0)
  }

  /** Some result succeeded exactly when the count is positive. */
  lemma {:induction false} SuccessCountPositive(results: seq<(string, Resolution)>)
    ensures SuccessCount(results) > 0 <==> exists i :: 0 <= i < |results| && results[i].1.success
  {
    if results != [] {
      var init := results[..|results| - 1];
      SuccessCountPositive(init);
      if SuccessCount(init) > 0 {
        var i :| 0 <= i < |init| && init[i].1.success;
        assert results[i] == init[i];
      }
      if i :| 0 <= i < |results| && results[i].1.success {
        if i < |init| {
          assert init[i] == results[i];
        }
      }
    }
  }

  /** The resolution loop over `names`. */
  method ResolveAll(names: seq<string>, ensReady: bool, lookup: string -> Option<string>,
                    reverseLookup: string -> Option<string>)
    returns (results: seq<(string, Resolution)>, successful: nat)
    ensures |results| == |names|
    ensures forall i :: 0 <= i < |names| ==> results[i] == (names[i], ResolutionOf(names[i], ensReady, lookup, reverseLookup))
    ensures successful == SuccessCount(results)
  {
    results, successful := [], 0;
    var i := 0;
    while i < |names|
      invariant 0 <= i <= |names| && |results| == i
      invariant forall j :: 0 <= j < i ==> results[j] == (names[j], ResolutionOf(names[j], ensReady, lookup, reverseLookup))
      invariant successful == SuccessCount(results)
    {
      var address := Resolve(ensReady, lookup, names[i]);
      var reverseName := None;
      if address.Some? {
        reverseName := Resolve(ensReady, reverseLookup, address.value);
      }
      var entry := (names[i], Resolution(address, reverseName, address.Some?));
      assert (results + [entry])[..i] == results;
      results := results + [entry];
      if address.Some? {
        successful := successful + 1;
      }
      i := i + 1;
    }
  }

  /** `test_ens_functionality`: `overall_success` holds exactly when ENS is
      initialised, web3 is reported connected and some test name resolved;
      a connection whose chain id or block number cannot be read is still
      reported connected, with its error listed and no network info. */
  method TestEnsFunctionality(ensReady: bool, probe: Web3Probe, lookup: string -> Option<string>,
                              reverseLookup: string -> Option<string>)
    returns (t: EnsTest)
    ensures t.ensInitialized == ensReady && t.web3Connected == probe.ReportsConnected()
    ensures t.networkInfo == if probe.Connected? then Some(NetworkInfo(probe.chainId, probe.blockNumber, "sepolia")) else None
    ensures t.summary.totalTests == |TestNames| == |t.testResolution|
    ensures t.summary.successfulResolutions == SuccessCount(t.testResolution)
    ensures t.summary.overallSuccess <==>
              ensReady && probe.ReportsConnected() && exists i :: 0 <= i < |TestNames| && Resolve(ensReady, lookup, TestNames[i]).Some?
    ensures t.errors == (if ensReady then [] else ["ENS instance not initialized"])
                        + (match probe
                           case Connected(_, _) => []
                           case NotConnected => ["Web3 not connected"]
                           case ConnectedThenRaised(e) => ["Web3 connection error: " + e]
                           case Raised(e) => ["Web3 connection error: " + e])
  {
    var errors: seq<string> := [];
    if !ensReady {
      errors := errors + ["ENS instance not initialized"];
    }
    var networkInfo := None;
    match probe {
      case Connected(chainId, blockNumber) =>
        networkInfo := Some(NetworkInfo(chainId, blockNumber, "sepolia"));
      case NotConnected =>
        errors := errors + ["Web3 not connected"];
      case ConnectedThenRaised(e) =>
        errors := errors + ["Web3 connection error: " + e];
      case Raised(e) =>
        errors := errors + ["Web3 connection error: " + e];
    }
    var results, successful := ResolveAll(TestNames, ensReady, lookup, reverseLookup);
    SuccessCountPositive(results);
    var connected := probe.Connected? || probe.ConnectedThenRaised?;
    var overall := ensReady && connected && successful > 0;
    t := EnsTest(ensReady, connected, networkInfo, results, errors, Summary(|TestNames|, successful, overall));
  }
}
