# flux agents core, modelled in Dafny

This project models the core of the flux agents platform. The platform has
a Python agents service and a Node (TypeScript) backend. The model follows
the source's own structure, one Dafny module per source file:

- **RefundProcessor** (`refund_processor.py`): the gates a refund passes
  through, in the source's order. They are the request check, the refund
  limit, the optional custom API, the on-chain payment verification and the
  balance check, followed by the transfer. The same gates apply to
  overpayment refunds.
- **TransactionVerifier** (`transaction_verifier.py`): the native and ERC-20
  checks of a fetched transaction against the expected sender, recipient,
  amount and token.
- **CapabilityService** (`capability_service.py`): the capability enum and
  its tool and description tables. Also the lookups, the validation, and
  the prompt, import and template sections built from a selection.
- **AgentRegistry**, **AgentService** and **CompanyAgentService**
  (`agent_service.py`, `agents/agent_server.py`,
  `company_agent_service.py`): the in-memory agent registries. A registry
  is a class holding an insertion-ordered dictionary. Its methods create,
  list, fetch, delete, start and stop agents, refresh their process status
  and report health. The company registry also discovers agents and
  forwards messages.
- **PdfReader**, **WebpageReader**, **PdfService**, **Text** and
  **TermSearch** (`pdf_reader.py`, `webpage_reader.py`, `pdf_service.py`):
  - page extraction, text cleaning and truncation;
  - the term search with a context window;
  - link extraction;
  - the in-memory document store, including combining several PDFs into
    one document.
- **WalletService** and **WalletRoutes** (`wallet_service.py`,
  `wallet_routes.py`): generating a wallet, preparing its ENS name,
  refreshing its balance, validating it and testing ENS. Also the wallet
  statistics, the balance listing and the resolve route.
- **AgentsBackend** and **Logger** (`agents.service.ts`,
  `logger.service.ts`): the backend's file-URL bookkeeping, batch upload,
  agent creation and lookup. Also its logger: level filtering, the line
  format and colours, scoped loggers, metadata merging and timed actions.
- **OrderedDict**: a Python `dict` with its insertion order, used by every
  store above.

Calls into code outside the core are parameters of the operations that
make them. These are the blockchain RPC and the GoldRush API, Web3 and ENS,
Fernet, PyPDF2, BeautifulSoup and `urlparse`, the HTTP client, the process
service, Supabase, and the third-party agent server. The clock, fresh ids,
the environment and process liveness are parameters too; liveness is the
set of pids that exist.

## Model

| member | source | states |
|---|---|---|
| Text.Lower | agents/src/tools/transaction_verifier.py:66-67 | lower-casing keeps the length |
| Text.LowerIdempotent | agents/src/services/company_agent_service.py:398 | lower-casing twice is lower-casing once |
| Text.FindFrom | agents/src/services/pdf_service.py:212-213 | the index found from `i` is the first occurrence at or after `i`, or -1 when there is none |
| Text.Find | agents/src/services/pdf_service.py:212-213 | `find` gives the first occurrence, and -1 exactly when the term does not occur |
| Text.SkipSpaces | agents/src/tools/pdf_reader.py:184 | the part left after leading whitespace is a suffix that starts with a non-space, and everything skipped is whitespace |
| Text.StripRight | agents/src/tools/pdf_reader.py:184 | the part left after trailing whitespace is a prefix that ends with a non-space, and everything dropped is whitespace |
| Text.CollapseStart | agents/src/tools/pdf_reader.py:182 | collapsing whitespace runs gives empty exactly for empty input, and starts with a space exactly where the input starts with whitespace |
| Text.CollapseShape | agents/src/tools/pdf_reader.py:182 | after `re.sub(r'\s+', ' ', …)` no two whitespace characters are adjacent and the only whitespace left is ' ' |
| Text.NonSpaceCollapse | agents/src/tools/pdf_reader.py:182 | collapsing whitespace keeps every non-space character, in order |
| Text.NonSpaceSkip | agents/src/tools/pdf_reader.py:184 | stripping leading whitespace keeps every non-space character |
| Text.NonSpaceStripRight | agents/src/tools/pdf_reader.py:184 | stripping trailing whitespace keeps every non-space character |
| Text.StripShape | agents/src/tools/pdf_reader.py:184 | `strip()` leaves no whitespace at either end, and keeps a text without runs free of runs |
| Text.StripBlank | agents/src/services/pdf_service.py:123 | `strip()` gives "" exactly when the text is all whitespace |
| Text.CleanTextNormalized | agents/src/tools/pdf_reader.py:179-185 | `_clean_text` output has no whitespace at either end, no whitespace runs, only ' ' as whitespace, and the same non-space characters as its input; the same code at agents/src/tools/webpage_reader.py:125-131 |
| Text.CollapseFixes | agents/src/tools/pdf_reader.py:182 | collapsing a text that has no runs and only ' ' changes nothing |
| Text.CleanTextIdempotent | agents/src/tools/pdf_reader.py:179-185 | `_clean_text` is idempotent |
| Text.OrElse | agents/src/tools/refund_processor.py:243 | `x or default` is `x` when it is a non-empty string and `default` otherwise |
| Text.TruncateShape | agents/src/tools/pdf_reader.py:82-84 | text within `max_length` is kept; longer text becomes its first `max_length` characters plus "...", so at most `max_length` + 3 long; the same code at agents/src/tools/webpage_reader.py:64-66 |
| Text.NatToString | agents/src/tools/refund_processor.py:220 | `str(n)` is a non-empty run of decimal digits |
| Text.DigitsValueOfNat | agents/src/tools/refund_processor.py:187-188 | reading back the digits of `str(n)` gives `n` |
| Text.ParseIntToString | agents/src/tools/refund_processor.py:187-188 | `int(str(i)) == i` for every integer |
| Text.Split | backend/services/logger.service.ts:56-58 | `split(",")` gives at least one piece, and no piece holds the separator |
| Text.SplitNoSep | backend/services/logger.service.ts:56-58 | a text without the separator splits into itself alone |
| Text.SplitConcat | backend/services/logger.service.ts:56-58 | splitting `a + "," + b` gives the pieces of `a` followed by those of `b` |
| Text.JoinSplit | backend/services/logger.service.ts:56-58 | joining the pieces with the separator gives back the text |
| TermSearch.SearchTerm | agents/src/services/pdf_service.py:209-229 | a term is found exactly when its lowercase form occurs in the lowercase content; then `position` is the first occurrence and there is a context; otherwise `position` is -1 and there is none |
| TermSearch.ContextCoversMatch | agents/src/services/pdf_service.py:214-217 | the context is the stripped slice `content[max(0, i−r) : min(len, i+len(term)+r)]`, which covers the whole match and reaches `r` characters either side unless clamped at an end; the same code at agents/src/tools/webpage_reader.py:180-207 |
| TermSearch.DistinctElementsBound | agents/src/services/pdf_service.py:231-237 | a term list has at most as many distinct terms as entries |
| TermSearch.SubsetCardinality | agents/src/services/pdf_service.py:231-237 | a subset is no larger than its superset |
| TermSearch.FoundCountBound | agents/src/services/pdf_service.py:231-237 | `terms_found` never exceeds `total_terms_searched` |
| TermSearch.SearchTerms | agents/src/tools/pdf_reader.py:232-262 | the loop records one result per distinct term, each the single-term search, and `terms_found` counts the found ones and is at most the number of terms |
| AgentRegistry.RefreshedStatus | agents/src/services/agent_service.py:125-130 | a record whose `process_id` is set (present and not 0) gets "running" exactly when that pid is live; a record without one keeps its stored status |
| AgentRegistry.ReportedStatus | agents/src/services/agent_service.py:240-245 | health ignores the stored status and reports "running" exactly for a set and live pid |
| AgentRegistry.RefreshAgreesWithHealth | agents/src/services/company_agent_service.py:366-370 | for a record with a pid the refreshed status equals the status health reports, and refreshing twice equals refreshing once |
| AgentRegistry.CheckPort | agents/src/services/agent_service.py:59-65 | the port loop reports a clash exactly when some registered record holds the requested port |
| AgentRegistry.PutFreePortKeepsUnique | agents/src/services/company_agent_service.py:275-280 | storing a record under a port no record holds keeps ports unique across the registry |
| AgentRegistry.PutSamePortKeepsUnique | agents/src/services/agent_service.py:204-205 | rewriting an existing record without changing its port keeps ports unique |
| AgentRegistry.RefreshAllChangesOnlyStatus | agents/src/services/agent_service.py:121-142 | listing keeps the ids, their order and every field but `status`; each record with a pid then says whether its process exists; listing again changes nothing; unique ports stay unique |
| AgentRegistry.RefreshAndList | agents/src/services/company_agent_service.py:361-387 | the list loop leaves the registry equal to every record refreshed, and lists the refreshed records in registry order |
| AgentRegistry.LiveCount | agents/src/services/agent_service.py:236-245 | the number of live pids counted by the health loop never exceeds the number of records |
| AgentRegistry.LiveCountZero | agents/src/services/agent_service.py:243-245 | `active_agents` is 0 exactly when no record has a live pid |
| AgentRegistry.LiveCountFull | agents/src/services/agent_service.py:243-245 | `active_agents` equals `total_agents` exactly when every record has a live pid |
| AgentRegistry.HealthReport | agents/src/services/agent_service.py:234-263 | `total_agents` is the registry size, `active_agents` is the number of live pids and at most `total_agents`, and there is one status entry per record, in registry order, "running" exactly for a live pid; the same code at agents/agent_server.py:311-346; the same code at agents/src/services/company_agent_service.py:496-528 |
| AgentRegistry.PidToStop | agents/src/services/agent_service.py:176-177 | delete stops a process exactly when the record's pid is set and live, and then stops that pid |
| AgentService.CreateResult | agents/src/services/agent_service.py:56-119 | create succeeds exactly when the port is free and the process survived the wait; a taken port gives 400 "Port … is already in use"; every later failure is a 500; success reports "running", the new pid, the requested port and address `agent_{id}@{name}` |
| AgentService.CreateAddsOneEntry | agents/src/services/agent_service.py:94-104 | a successful create with a fresh id adds exactly one entry (status "running", new pid, requested port, derived address) and keeps the others; a failed one leaves the registry as it was |
| AgentService.AgentService.constructor | agents/src/services/agent_service.py:15-17 | the registry starts empty |
| AgentService.AgentService.CreateAgent | agents/src/services/agent_service.py:56-119 | the port loop runs first; answer and new registry are `CreateResult` and `CreateState`; ports stay unique; the same code at agents/agent_server.py:127-190 |
| AgentService.AgentService.ListAgents | agents/src/services/agent_service.py:121-142 | every status is refreshed in place and the refreshed records are listed in registry order; the same code at agents/agent_server.py:193-215 |
| AgentService.AgentService.GetAgent | agents/src/services/agent_service.py:144-166 | an unknown id gives 404 "Agent not found" and changes nothing; otherwise only that record's status is refreshed and it is returned; the same code at agents/agent_server.py:217-240 |
| AgentService.AgentService.DeleteAgent | agents/src/services/agent_service.py:168-186 | an unknown id gives 404 and changes nothing; otherwise exactly that entry is removed, after its process is stopped if live; the same code at agents/agent_server.py:242-260 |
| AgentService.AgentService.StartAgent | agents/src/services/agent_service.py:188-209 | 404 for an unknown id, 400 "Agent is already running" for a live pid; otherwise a spawn sets the new pid and "running" and nothing else, and a failed spawn is a 500 nesting the process service's error; the same code at agents/agent_server.py:263-284 |
| AgentService.AgentService.StopAgent | agents/src/services/agent_service.py:211-232 | 404 for an unknown id, 400 "Agent is not running" without a live pid; a failed termination is the 500 of line 230 re-raised by line 232 as a second 500 quoting it; success sets "stopped" and no pid and nothing else; the same code at agents/agent_server.py:287-308 |
| CompanyAgentService.CreateResult | agents/src/services/company_agent_service.py:271-344 | create succeeds exactly when the port is free and the process survived the wait; a taken port gives 400; later failures are 500s; success reports "running", the new pid, the port, address `agent_{id}@{agent_name}` and the requested capabilities |
| CompanyAgentService.CreateAddsOneEntry | agents/src/services/company_agent_service.py:306-324 | a successful create with a fresh id adds exactly one "running" entry with the new pid, the port and the derived address and keeps the others; a failed one changes nothing |
| CompanyAgentService.Matching | agents/src/services/company_agent_service.py:394-413 | discovery keeps at most as many records as the registry holds |
| CompanyAgentService.MatchingExactly | agents/src/services/company_agent_service.py:394-413 | a record is discovered exactly when it has the capability (case-insensitively) and, if a non-empty company id is given, belongs to that company |
| CompanyAgentService.MatchingIgnoresCase | agents/src/services/company_agent_service.py:398 | the requested capability's case does not change the result |
| CompanyAgentService.CompanyFilterNarrows | agents/src/services/company_agent_service.py:395-396 | with a company id, discovery returns a sub-list of what it returns without one |
| CompanyAgentService.CompanyAgentService.DiscoverAgents | agents/src/services/company_agent_service.py:389-421 | reading only the registry, the responses are the matching records of its items in registry order, with their stored status, and `total_found` is their number |
| CompanyAgentService.CompanyAgentService.constructor | agents/src/services/company_agent_service.py:26-27 | the registry starts empty |
| CompanyAgentService.CompanyAgentService.CreateCompanyAgent | agents/src/services/company_agent_service.py:271-344 | the port loop runs first; answer and new registry are `CreateResult` and `CreateState`; ports stay unique |
| CompanyAgentService.CompanyAgentService.ListCompanyAgents | agents/src/services/company_agent_service.py:361-387 | every status is refreshed in place and the refreshed records are listed in registry order |
| CompanyAgentService.CompanyAgentService.GetCompanyAgent | agents/src/services/company_agent_service.py:447-474 | an unknown id gives 404 "Company agent not found" and changes nothing; otherwise only that record's status is refreshed |
| CompanyAgentService.CompanyAgentService.DeleteCompanyAgent | agents/src/services/company_agent_service.py:476-494 | an unknown id gives 404 and changes nothing; otherwise only that entry is removed, after its process is stopped if live |
| CompanyAgentService.CompanyAgentService.SendMessage | agents/src/services/company_agent_service.py:423-445 | an unknown id gives 404 "Agent not found"; otherwise the reply names the agent and echoes the message |
| AgentRegistry.Pids | agents/src/services/agent_service.py:240-245 | the health loop reads one process id per record |
| AgentRegistry.LiveCountSnoc | agents/src/services/agent_service.py:243-245 | one more record adds one to the live count exactly when its pid is live |
| AgentRegistry.RefreshedEverywhere | agents/src/services/agent_service.py:128-136 | a registry whose every record, in key order, is the refreshed record is the refreshed registry |
| RefundProcessor.NewRefundProcessor | agents/src/tools/refund_processor.py:14-23 | the configuration keeps the given fields, and an unset or empty escalation threshold becomes the maximum refund amount |
| RefundProcessor.CallCustomApi | agents/src/tools/refund_processor.py:50-93 | no API URL counts as valid; with one, the answer is valid exactly when the POST answered 200 with a truthy `valid`; every invalid answer carries an error |
| RefundProcessor.VerifyPayment | agents/src/tools/refund_processor.py:120-227 | a verified payment reports the expected amount as given; a rejection carries an error or a non-empty mismatch list |
| RefundProcessor.PaymentAmountRule | agents/src/tools/refund_processor.py:166-221 | for a found, successful transaction: verified exactly when from and to match case-insensitively and the amount is equal, or at least the expected amount when overpayment is allowed; the reported overpayment is `actual - expected` when allowed and "0" otherwise |
| RefundProcessor.PaymentLookupErrors | agents/src/tools/refund_processor.py:127-164 | no API key, an unsupported chain, a non-200 fetch, no item or an unsuccessful transaction rejects with an error and no field comparison |
| RefundProcessor.CheckLimit | agents/src/tools/refund_processor.py:247-260 | an amount within the maximum passes; above it the threshold is parsed and the amount is over the threshold or only over the maximum; an unparseable threshold is the `int()` error |
| RefundProcessor.RequestGates | agents/src/tools/refund_processor.py:237-290 | a request passes only with a company address, a requested amount within the effective maximum, a valid custom API answer when one is configured, and an exactly matching verified payment |
| RefundProcessor.ProcessRefund | agents/src/tools/refund_processor.py:229-351 | an empty company address rejects first; a refund has passed every gate and sends exactly the requested amount to the user with gas 21000 from a wallet holding at least that much |
| RefundProcessor.RefundLimitGate | agents/src/tools/refund_processor.py:243-260 | with parseable amounts: within the effective maximum can pass; above it the request is rejected, with `escalation_required` exactly when it also exceeds the threshold (both in process and validate) |
| RefundProcessor.DefaultThresholdAlwaysEscalates | agents/src/tools/refund_processor.py:23 | with the default threshold every request above the maximum asks for escalation |
| RefundProcessor.RefundLimitBeforeVerification | agents/src/tools/refund_processor.py:243-290 | a request above the maximum is rejected whatever the lookup, the custom API and the wallet answer: the limit gate runs first |
| RefundProcessor.InsufficientBalanceRejects | agents/src/tools/refund_processor.py:302-308 | a balance below the amount rejects with "Insufficient balance" before any transaction is built |
| RefundProcessor.UnsupportedChainStopsAtVerification | agents/src/tools/refund_processor.py:130-139 | a chain outside the three supported ones never reaches the wallet, in both refund kinds |
| RefundProcessor.CustomApiRejectionStops | agents/src/tools/refund_processor.py:262-277 | a configured custom API that does not answer valid stops process, validate and overpayment alike |
| RefundProcessor.ValidateRefundRequest | agents/src/tools/refund_processor.py:353-426 | valid exactly when the same gates as `process_refund` pass, and then it echoes the request |
| RefundProcessor.OverpaymentRefund | agents/src/tools/refund_processor.py:458-489 | no positive overpayment is rejected; a refund sends exactly `actual - expected`, which is within the effective maximum, to the user with gas 21000 |
| RefundProcessor.OverpaymentSend | agents/src/tools/refund_processor.py:491-550 | after the custom API passes, exactly the overpayment is sent, and the reason defaults to "Refund for overpayment: paid … wei instead of … wei" |
| RefundProcessor.ProcessOverpaymentRefund | agents/src/tools/refund_processor.py:427-557 | an empty company address rejects first; a refund follows a verified payment and sends exactly its actual amount minus the expected amount |
| RefundProcessor.OverpaymentVerificationFirst | agents/src/tools/refund_processor.py:441-456 | a failed verification is the answer however large the overpayment: verification runs before the limit gate |
| RefundProcessor.OverpaymentVerified | agents/src/tools/refund_processor.py:441-464 | for a matching payment, verification allowing overpayment passes exactly when actual ≥ expected |
| RefundProcessor.OverpaymentNeedsExcess | agents/src/tools/refund_processor.py:458-464 | an underpayment fails at verification and an exact payment is "No overpayment detected" |
| RefundProcessor.OverpaymentLimitGate | agents/src/tools/refund_processor.py:466-489 | an overpayment above the maximum is rejected, with escalation exactly above the threshold, reporting the amounts; a refund is within the maximum |
| TransactionVerifier.CompareLowered | agents/src/tools/transaction_verifier.py:66-74 | a field check gives no mismatch exactly when the two lowercased strings are equal, and otherwise one mismatch holding both lowercased values |
| TransactionVerifier.CompareExact | agents/src/tools/transaction_verifier.py:86-93 | an amount check gives no mismatch exactly when the strings are equal, and otherwise one mismatch holding both |
| TransactionVerifier.FirstTransferFrom | agents/src/tools/transaction_verifier.py:121-147 | the event the loop stops at is the first one from the token contract (case-insensitive), named like a transfer and with at least three parameters; none is found exactly when no event qualifies |
| TransactionVerifier.VerifyTransaction | agents/src/tools/transaction_verifier.py:40-168 | the outcome is the fetch error, "No transaction found", "Transaction was not successful", or the mismatch list of the selected mode (verified when it is empty) |
| TransactionVerifier.CheckNative | agents/src/tools/transaction_verifier.py:64-93 | the native branch appends the from, to and amount mismatches in that order |
| TransactionVerifier.CheckErc20 | agents/src/tools/transaction_verifier.py:95-154 | the ERC-20 branch appends the from and token-contract mismatches, then those of the event scan |
| TransactionVerifier.ScanTransfers | agents/src/tools/transaction_verifier.py:117-154 | the loop with `found_transfer` and `break` yields the recipient and amount mismatches of the first qualifying event, or the `token_transfer` mismatch when there is none |
| TransactionVerifier.VerifiedIffNoMismatch | agents/src/tools/transaction_verifier.py:51-59 | verified exactly when the fetch succeeded, the first item is successful and the mismatch list is empty; an empty `items` or an unsuccessful transaction is an error without field comparison; a mismatch answer is never empty; the same code at agents/src/tools/transaction_verifier.py:157-167 |
| TransactionVerifier.NativeFieldChecks | agents/src/tools/transaction_verifier.py:64-93 | in native mode there is a from, to or amount mismatch exactly when that field differs (addresses case-insensitively, the amount exactly) |
| TransactionVerifier.NativeAmountNotNormalised | agents/src/tools/transaction_verifier.py:86-87 | "0100" and "100" are different amounts: no numeric normalisation |
| TransactionVerifier.TokenContractCheck | agents/src/tools/transaction_verifier.py:107-115 | in ERC-20 mode a `token_contract` mismatch is recorded exactly when the transaction's recipient is not the token contract, case-insensitively |
| TransactionVerifier.NoTransferEventRejects | agents/src/tools/transaction_verifier.py:149-154 | without a qualifying event the last mismatch is `token_transfer`, so the transaction is not verified |
| TransactionVerifier.OnlyFirstTransferChecked | agents/src/tools/transaction_verifier.py:121-147 | events after the first qualifying one do not change the mismatches |
| TransactionVerifier.SkippedEventsIgnored | agents/src/tools/transaction_verifier.py:122-126 | an event from another sender, not named like a transfer, or with fewer than three parameters changes nothing |
| CapabilityService.EveryMemberListed | agents/src/services/capability_service.py:9-19 | the declaration-order list holds every `CapabilityType` member |
| CapabilityService.Lookup | agents/src/services/capability_service.py:285 | a found member is in the searched list and has the searched value |
| CapabilityService.LookupMisses | agents/src/services/capability_service.py:285 | a failed lookup means no listed member has that value |
| CapabilityService.Parse | agents/src/services/capability_service.py:285 | a name found in the tables is the value of the member found |
| CapabilityService.ParseMisses | agents/src/services/capability_service.py:285 | a name is missing from the tables exactly when it is no member's value |
| CapabilityService.ValuesDistinct | agents/src/services/capability_service.py:9-19 | no two members share a value, so each table has one key per member |
| CapabilityService.ParseValue | agents/src/services/capability_service.py:29-257 | each member's value looks up that member |
| CapabilityService.ToolTable | agents/src/services/capability_service.py:29-257 | looked up by value, `document_reference`, `transaction_verification` and `calculator` bring one tool, `refund_processing` three, and the five support capabilities none |
| CapabilityService.Description | agents/src/services/capability_service.py:277-279 | a name has a description exactly when it has a tool list: unknown names have none |
| CapabilityService.AvailableCapabilities | agents/src/services/capability_service.py:273-275 | exactly the nine member values, in declaration order |
| CapabilityService.AvailableMatchesTables | agents/src/services/capability_service.py:273-275 | a name is in the available list exactly when the tool table knows it |
| CapabilityService.ToolsForAppend | agents/src/services/capability_service.py:281-287 | the tools of a concatenated request are the concatenated tools |
| CapabilityService.GetToolsForCapabilities | agents/src/services/capability_service.py:281-287 | the `extend` loop yields the mapped tool lists concatenated in request order |
| CapabilityService.ToolsForOneMore | agents/src/services/capability_service.py:284-286 | a name inside a request contributes its own tools at its position, so a repeated name repeats its tools |
| CapabilityService.ToolsForSkipsUnknown | agents/src/services/capability_service.py:285 | an unknown name adds nothing |
| CapabilityService.InvalidCapabilities | agents/src/services/capability_service.py:296 | the invalid list holds exactly the requested names not available, and is no longer than the request |
| CapabilityService.ValidateCapabilities | agents/src/services/capability_service.py:293-302 | `valid` exactly when every requested name is available, which is exactly when the invalid list is empty; the invalid list holds exactly the unavailable requested names; the full available list is always returned |
| CapabilityService.InvalidCapabilitiesExact | agents/src/services/capability_service.py:296 | a requested name is reported invalid exactly when the tool table does not know it, as many times as it was requested |
| CapabilityService.InvalidKeepsDuplicates | agents/src/services/capability_service.py:296 | duplicates of an unavailable name are kept |
| CapabilityService.DescriptionLines | agents/src/services/capability_service.py:308-312 | at most one line per looked-up description |
| CapabilityService.DescriptionLinesAppend | agents/src/services/capability_service.py:308-312 | the lines of a concatenation are the concatenated lines |
| CapabilityService.Descriptions | agents/src/services/capability_service.py:309-310 | one looked-up description per requested name |
| CapabilityService.CapabilityLinesSpec | agents/src/services/capability_service.py:308-312 | no more capability lines than requested names |
| CapabilityService.DescriptionLinesOf | agents/src/services/capability_service.py:308-312 | the `append` loop produces "- desc" for each present, non-empty description, in order |
| CapabilityService.CapabilityLines | agents/src/services/capability_service.py:308-312 | the capability lines of the prompt are those of the looked-up descriptions |
| CapabilityService.DescriptionNonEmpty | agents/src/services/capability_service.py:259-271 | every capability description is non-empty |
| CapabilityService.DescriptionLinesAbsent | agents/src/services/capability_service.py:311 | no present description, no line |
| CapabilityService.DescriptionLinesPresent | agents/src/services/capability_service.py:311-312 | all descriptions present and non-empty gives one "- desc" line each, in order |
| CapabilityService.CapabilityLinesKnownOnly | agents/src/services/capability_service.py:308-312 | unknown capabilities give no line; known ones give exactly their "- description" lines, in request order |
| CapabilityService.ToolSchemas | agents/src/services/capability_service.py:314 | one schema per selected tool |
| CapabilityService.ToolLine | agents/src/services/capability_service.py:317 | each tool line is a "- " bullet |
| CapabilityService.ToolLines | agents/src/services/capability_service.py:315-317 | one "- name: description" line per tool, in order |
| CapabilityService.JoinOrDefault | agents/src/services/capability_service.py:319-320 | None or an empty list gives the default ("general, technical, billing" or "products and services"); a single item is itself |
| CapabilityService.SelectedCodeCapabilities | agents/src/services/capability_service.py:378-394 | exactly the requested code capabilities, each at most once, at most four |
| CapabilityService.ToolImports | agents/src/services/capability_service.py:378-394 | one import per selected code capability |
| CapabilityService.ToolFunctionTemplates | agents/src/services/capability_service.py:396-412 | one function template per selected code capability, as many as imports |
| CapabilityService.SelectionIgnoresOrder | agents/src/services/capability_service.py:378-412 | imports and function templates depend only on which names are requested, not on order or repetition; at most four |
| CapabilityService.AllCodeCapabilitiesSelected | agents/src/services/capability_service.py:378-412 | requesting all four, in any order, yields document, transaction, calculator, refund |
| CapabilityService.ToolsForSingle | agents/src/services/capability_service.py:281-287 | the tools of one capability name are its table entry, or none for an unknown name |
| CapabilityService.DescriptionLinesSnoc | agents/src/services/capability_service.py:308-312 | one more capability adds its `- description` line exactly when it has a non-empty description |
| PdfReader.EntriesNumbered | agents/src/tools/pdf_reader.py:63-79 | each `page_texts` entry is what the loop records for the page it names, numbered from 1 within the document |
| PdfReader.EntriesOrdered | agents/src/tools/pdf_reader.py:63-79 | `page_texts` is in strictly increasing page order |
| PdfReader.EntriesComplete | agents/src/tools/pdf_reader.py:66-79 | every page with text, and every page whose extraction raised, has an entry (so only empty pages are skipped) |
| PdfReader.ReadStep | agents/src/tools/pdf_reader.py:63-79 | one more page extends `page_texts` and `full_text` by that page's entry and text |
| PdfReader.ReadPages | agents/src/tools/pdf_reader.py:60-79 | the page loop builds exactly `PageEntries` and `FullText` of the pages |
| PdfReader.AssembleBounds | agents/src/tools/pdf_reader.py:81-97 | the content is the cleaned text when it fits, and otherwise its first `max_length` characters plus "..."; `content_length` ≤ `max_length` + 3; `total_pages_processed` ≤ `page_count` |
| PdfReader.EntriesAtMostPages | agents/src/tools/pdf_reader.py:63-79 | at most one entry per page |
| PdfReader.ReadOpened | agents/src/tools/pdf_reader.py:60-97 | the answer once the PDF is open is the assembled content of its pages |
| PdfReader.ReadPdf | agents/src/tools/pdf_reader.py:16-105 | a missing file, then a path not ending in ".pdf" in any case, fails before parsing; an open error is "Failed to read PDF: …"; otherwise the assembled content |
| PdfReader.ReadPdfFromBytes | agents/src/tools/pdf_reader.py:107-178 | the same reading without file checks, with its own error prefix |
| PdfReader.SearchPdfContent | agents/src/tools/pdf_reader.py:213-270 | a failed read is passed on; otherwise one result per distinct term, each the ±300-character search of the content; `total_terms_searched` is the number of terms; `terms_found` counts the found entries and is at most that |
| PdfReader.AllPages | agents/src/tools/pdf_reader.py:310-311 | no page numbers means pages 1..total |
| PdfReader.PagesPartition | agents/src/tools/pdf_reader.py:314-315 | every requested page lands in exactly one of the valid and invalid lists, which together are a permutation of the request |
| PdfReader.PagesSides | agents/src/tools/pdf_reader.py:314-315 | valid pages are inside [1, total] and invalid ones outside |
| PdfReader.AllPagesValid | agents/src/tools/pdf_reader.py:310-315 | with no page numbers every page is valid and none is invalid |
| PdfReader.AllInRange | agents/src/tools/pdf_reader.py:314-315 | requested pages all in range are all kept, in order |
| PdfReader.ExtractPdfPages | agents/src/tools/pdf_reader.py:272-353 | a missing file fails first; otherwise one entry per valid page in request order, `pages_requested` the request's size, `pages_extracted` the valid count, and the invalid pages in request order |
| PdfService.ProcessError | agents/src/services/pdf_service.py:33-39 | a reported read failure is a 400 "Failed to process PDF: …"; an exception is a 500 "Failed to process PDF from URL: …" |
| PdfService.PutKeepsWellFormed | agents/src/services/pdf_service.py:41-53 | storing a document under its own id with status "processed" keeps every stored document keyed by its `document_id` |
| PdfService.Stored | agents/src/services/pdf_service.py:92-99 | the store after the first `n` URLs stays a valid insertion-ordered dictionary |
| PdfService.CombinedBlankIff | agents/src/services/pdf_service.py:123-128 | the combined content strips to empty exactly when no URL gave a successful read with content |
| PdfService.SectionNotBlank | agents/src/services/pdf_service.py:101-103 | a contributing document's section (header, content, footer) always has a non-whitespace character |
| PdfService.NothingCombined | agents/src/services/pdf_service.py:92-121 | when no URL contributes, the combined content is empty and `processed_docs` is empty |
| PdfService.SectionInCombined | agents/src/services/pdf_service.py:101-103 | each URL's section occurs in the combined content right after the sections of the earlier URLs |
| PdfService.OccursInLonger | agents/src/services/pdf_service.py:103 | appending to the combined content keeps each earlier section where it was |
| PdfService.OccursAtEnd | agents/src/services/pdf_service.py:103 | the section just appended sits at the old end of the combined content |
| PdfService.ProcessedDocsExactly | agents/src/services/pdf_service.py:105-110 | `processed_docs` holds exactly the contributing URLs, each with its content length, page count and file size |
| PdfService.StoredKeys | agents/src/services/pdf_service.py:92-99 | after the loop the store holds the old ids plus the ids of the successful reads, and nothing else, and stays well formed |
| PdfService.AssembleDocuments | agents/src/services/pdf_service.py:92-121 | the loop stores every successful read, builds the combined content and `processed_docs`, and keeps the page and size totals equal to their sums |
| PdfService.PdfService.constructor | agents/src/services/pdf_service.py:13-16 | the store starts empty and well formed |
| PdfService.PdfService.ProcessPdfFromUrl | agents/src/services/pdf_service.py:18-72 | a failed read answers the matching error and leaves the store alone; a successful one stores the document under the new id and answers its fields |
| PdfService.AsWrittenAlwaysFails | agents/src/services/pdf_service.py:31 | the reader call as written raises `AttributeError` for every URL, which the generic handler answers with a 500 quoting it |
| PdfService.AsWrittenAddsNothing | agents/src/services/pdf_service.py:90-128 | when every read raises, every URL is skipped: nothing is combined, no document is listed and the store is unchanged, so the answer is the no-content error |
| PdfService.NoReadStoresNothing | agents/src/services/pdf_service.py:94-117 | outcomes without a successful read store nothing |
| PdfService.PdfService.ProcessMultiplePdfs | agents/src/services/pdf_service.py:74-175 | the successful reads are stored in every case; with no content the answer is the error "No content could be extracted from any of the provided PDFs" with no processed documents; otherwise the combined document (url `combined_<n>_documents`, summed pages and sizes, its metadata stamped with the processing time) is stored under its id and returned with the counts |
| PdfService.PdfService.GetDocumentContent | agents/src/services/pdf_service.py:177-190 | an unknown id is a 404; a known one answers its stored document |
| PdfService.PdfService.SearchDocumentContent | agents/src/services/pdf_service.py:192-237 | an unknown id is a 404; otherwise each term maps to its 300-character-context search of the content, with the number of terms searched and found (found ≤ searched) |
| PdfService.PdfService.GetProcessedDocuments | agents/src/services/pdf_service.py:239-244 | the listing is the store's values in insertion order, its count the store's size, each processed and with a distinct id |
| PdfService.PdfService.DeleteDocument | agents/src/services/pdf_service.py:246-252 | an unknown id is a 404 and changes nothing; a known one is removed alone, the store shrinking by one |
| WebpageReader.FirstMatchIsFirst | agents/src/tools/webpage_reader.py:100-123 | the main content is the text of the earliest selector that matched, and the fallback exactly when none matched |
| WebpageReader.ExtractMainContent | agents/src/tools/webpage_reader.py:100-123 | the selector loop returns the first match, else the body, else the whole page's text |
| WebpageReader.ReadWebpage | agents/src/tools/webpage_reader.py:24-98 | a URL without scheme or network location fails with "Invalid URL format" before any fetch; a timeout, an HTTP status error and any other failure each give their own message; otherwise the answer carries the stripped title (or "No title found"), the cleaned and truncated main content, its length and the status code |
| WebpageReader.ReadContentBounds | agents/src/tools/webpage_reader.py:62-66 | the content is never longer than `max_length + 3`; when it fits it is the whitespace-normalised text, otherwise its first `max_length` characters plus "..."; a found title has no outer whitespace |
| WebpageReader.SearchWebpageContent | agents/src/tools/webpage_reader.py:158-215 | the search succeeds exactly when the read did, and passes a failed read's message on unchanged (invalid URL, timeout, HTTP status with code and reason, or other failure); each term maps to its search of the read content with a 200-character context window, with the number of terms searched and found (found ≤ searched) |
| WebpageReader.KeptAnchors | agents/src/tools/webpage_reader.py:234-250 | the anchors kept are never more than the anchors on the page |
| WebpageReader.LinksFor | agents/src/tools/webpage_reader.py:246-250 | one link per kept anchor |
| WebpageReader.LinksForAppend | agents/src/tools/webpage_reader.py:246-250 | one more kept anchor appends its link at the end |
| WebpageReader.KeptExactly | agents/src/tools/webpage_reader.py:234-244 | an anchor is kept exactly when it is on the page and the domain filter is off or it is on the page's own domain |
| WebpageReader.SameDomainWhenFiltered | agents/src/tools/webpage_reader.py:243-244 | with the filter on, every listed link has the page's own domain |
| WebpageReader.AllKeptWhenUnfiltered | agents/src/tools/webpage_reader.py:243-244 | with the filter off, every anchor is kept, in page order |
| WebpageReader.LinksOfStep | agents/src/tools/webpage_reader.py:234-250 | one more anchor appends its link exactly when it passes the filter |
| WebpageReader.ExtractLinks | agents/src/tools/webpage_reader.py:217-267 | a fetch or parse failure gives "Failed to extract links: …"; otherwise the links are exactly those of the kept anchors, in page order, with their count and the filter flag |
| WalletService.ChainConfigOf | agents/src/services/wallet_service.py:29-51 | exactly "ethereum", "polygon" and "bsc" are configured, and only Ethereum supports ENS |
| WalletService.Web3For | agents/src/services/wallet_service.py:78-93 | a Web3 instance is had exactly for a configured chain that connects, and then with that chain's configuration |
| WalletService.GenerateWallet | agents/src/services/wallet_service.py:103-134 | generation succeeds exactly for a configured, connected chain; any failure is re-raised as "Wallet generation failed: …" |
| WalletService.NewWalletShape | agents/src/services/wallet_service.py:116-126 | a new wallet has the account address and chain, the chain's id and native token, balance "0", no ENS name and `ens_registered` false |
| WalletService.RequiredFieldsListed | agents/src/services/wallet_service.py:360-364 | having every entry of `required_fields` is having the five keys address, encrypted_private_key, chain, chain_id and created_at |
| WalletService.FindMissing | agents/src/services/wallet_service.py:362-364 | the loop reports a missing key exactly when some required key is absent |
| WalletService.ValidateWalletInfo | agents/src/services/wallet_service.py:358-370 | false when a required key is missing; otherwise true exactly when the address starts with "0x" and has 42 characters (a non-string address raises) |
| WalletService.GeneratedWalletValidates | agents/src/services/wallet_service.py:116-126 | a generated wallet has every required key and carries the account address |
| WalletService.Resolve | agents/src/services/wallet_service.py:136-174 | without an ENS instance nothing resolves; otherwise the answer is the lookup's when that is a non-empty string, and nothing else |
| WalletService.RemoveCharShape | agents/src/services/wallet_service.py:255 | removing a character leaves none of it, adds no character, and changes nothing when it was absent |
| WalletService.CleanLabelShape | agents/src/services/wallet_service.py:255 | the cleaned agent name has no space, underscore, hyphen or upper-case letter, and cleaning it again changes nothing |
| WalletService.LabelIsClean | agents/src/services/wallet_service.py:255 | a name already of that shape is its own cleaned label |
| WalletService.ProposedNameChoice | agents/src/services/wallet_service.py:255-270 | `<label>.eth` is proposed exactly when it does not resolve; otherwise `<label><first 8 of agent id, lower-cased>.eth` is proposed whether or not it resolves; the name always starts with the label and ends with ".eth" |
| WalletService.StatusFailed | agents/src/services/wallet_service.py:246-252 | the short failure update writes only "ens_" keys: a "failed" status with the given reason and no name or registered flag; the same update at 316-322, where a wallet without a chain gives the reason "'chain'" |
| WalletService.AddressMissing | agents/src/services/wallet_service.py:279-312 | a wallet without an address ends in the inner handler, which writes only "ens_" keys |
| WalletService.Prepared | agents/src/services/wallet_service.py:294-301 | a prepared name writes only "ens_" keys |
| WalletService.RegistrationUpdate | agents/src/services/wallet_service.py:246-312 | on Ethereum, registration writes only "ens_" keys |
| WalletService.Registered | agents/src/services/wallet_service.py:237-322 | registration leaves every key outside the "ens_" family as it was, present or absent |
| WalletService.OffEthereumUntouched | agents/src/services/wallet_service.py:242-244 | a wallet on another chain is returned unchanged |
| WalletService.WithoutEnsFailed | agents/src/services/wallet_service.py:246-252 | on Ethereum without ENS the status is "failed" with "ENS not initialized" |
| WalletService.PreparedOutcome | agents/src/services/wallet_service.py:294-301 | with ENS the proposed name is stored, never marked registered, status "prepared", and the registry is available exactly when the last name checked did not resolve |
| WalletService.RegisterEnsName | agents/src/services/wallet_service.py:237-322 | the wallet dict is updated in place to the registered dict |
| WalletService.BalanceUpdated | agents/src/services/wallet_service.py:324-349 | only `balance` (the fetched balance, "0" when the fetch failed) and `balance_updated_at` are set; every other key is kept |
| WalletService.UpdateWalletBalance | agents/src/services/wallet_service.py:337-349 | the wallet dict is updated in place to the balance-updated dict |
| WalletService.CreateAgentWallet | agents/src/services/wallet_service.py:372-404 | creation fails exactly when generation fails, with "Agent wallet creation failed: …"; otherwise a fresh dict that is generated, registered, balance-updated and then given the agent's keys |
| WalletService.CreatedWalletValidates | agents/src/services/wallet_service.py:379-393 | the later steps keep every required key and the generated address |
| WalletService.ResolutionOf | agents/src/services/wallet_service.py:446-457 | a test name's resolution succeeds exactly when the name resolves |
| WalletService.SuccessCount | agents/src/services/wallet_service.py:467 | the count of successful resolutions is at most the number of resolutions |
| WalletService.SuccessCountPositive | agents/src/services/wallet_service.py:467-471 | the count is positive exactly when some resolution succeeded |
| WalletService.ResolveAll | agents/src/services/wallet_service.py:444-464 | one resolution per test name, in order, and the count of those that succeeded |
| WalletService.TestEnsFunctionality | agents/src/services/wallet_service.py:406-484 | the flags report ENS and Web3 readiness, where a connection whose chain id or block number read raises is still reported connected, with its error listed and no network info; network info is present only for a fully read connection; the errors list each failure in order, three names are looked up, and overall success holds exactly when ENS is initialised, Web3 reported connected and some test name resolved |
| WalletService.WalletInfo.constructor | agents/src/services/wallet_service.py:116-126 | the wallet dict starts with the fields it is given |
| WalletRoutes.CountWallets | agents/src/routes/wallet_routes.py:247 | agents with a wallet are at most all agents |
| WalletRoutes.EnsAtMostWallets | agents/src/routes/wallet_routes.py:246-248 | agents with an ENS name ≤ agents with a wallet ≤ all agents |
| WalletRoutes.SumCountsFrame | agents/src/routes/wallet_routes.py:256 | the sum of the chain counts depends only on the counts of the listed chains |
| WalletRoutes.SumCountsIncrement | agents/src/routes/wallet_routes.py:256 | adding one to a chain already in the tally adds one to the sum |
| WalletRoutes.SumCountsAppend | agents/src/routes/wallet_routes.py:256 | a new chain with count one adds one to the sum |
| WalletRoutes.Tally | agents/src/routes/wallet_routes.py:256 | the chain's count goes up by one, from 0 when it was absent; the tally stays a valid insertion-ordered dictionary |
| WalletRoutes.TallySum | agents/src/routes/wallet_routes.py:256 | each tally step adds exactly one to the sum of the counts |
| WalletRoutes.ChainCountsExact | agents/src/routes/wallet_routes.py:253-256 | the tally has a key exactly for each chain some wallet is on, with the number of wallets on it |
| WalletRoutes.ChainsUsed | agents/src/routes/wallet_routes.py:250-256 | the loop builds that tally with its keys in the order the chains are first seen, and its counts add up to the number of agents with a wallet |
| WalletRoutes.ChainOrderExactly | agents/src/routes/wallet_routes.py:250-256 | the first-seen order lists exactly the chains in use, each once |
| WalletRoutes.Coverage | agents/src/routes/wallet_routes.py:269-270 | a ratio is only formed over a positive base |
| WalletRoutes.GetWalletStats | agents/src/routes/wallet_routes.py:238-273 | the counts nest (ENS ≤ wallets ≤ agents); each coverage is 0 exactly when its base is 0; `chains_used` has a key per chain in use, in first-seen order, with its wallet count, the counts summing to the agents with wallets |
| WalletRoutes.BalancesAtMostWallets | agents/src/routes/wallet_routes.py:209-230 | the listing has at most one entry per agent with a wallet |
| WalletRoutes.BalancesExactly | agents/src/routes/wallet_routes.py:209-230 | an entry is listed exactly when it is the refreshed entry of an agent with a wallet whose refresh did not raise |
| WalletRoutes.GetAllWalletBalances | agents/src/routes/wallet_routes.py:203-232 | the loop lists, in agent order, the refreshed balance of each agent with a wallet, skipping those whose refresh raised |
| WalletRoutes.ResolveRoute | agents/src/routes/wallet_routes.py:294-308 | the address is the service's resolution; success holds exactly when one came back, and the error "ENS name not found or resolution failed" is set exactly when it did not |
| AgentsBackend.Dedup | backend/microservices/agents/agents.service.ts:275-276 | deduplicating never lengthens the list |
| AgentsBackend.DedupShape | backend/microservices/agents/agents.service.ts:275-276 | the deduplicated list holds exactly the same URLs, each once |
| AgentsBackend.DedupDistinct | backend/microservices/agents/agents.service.ts:275-276 | a list without repeats is left as it is |
| AgentsBackend.UpdatedFileUrls | backend/microservices/agents/agents.service.ts:266-281 | the written `file_urls` keep the deduplicated current list as a prefix, add at most one entry, contain the new URL, have no repeats, and hold exactly the current URLs and the new one |
| AgentsBackend.AppendIfAbsent | backend/microservices/agents/agents.service.ts:275-276 | on a list without repeats the new URL is appended exactly when absent, and otherwise nothing changes |
| AgentsBackend.StoragePathSegments | backend/microservices/agents/agents.service.ts:360-361 | when the ids hold no `/`, the storage path splits back into the organisation id, the agent id and the file name's segments |
| AgentsBackend.UploadOne | backend/microservices/agents/agents.service.ts:351-411 | a file yields its public URL (the bucket's public prefix and `org/agent/file`) exactly when both the storage upload and the `file_urls` update succeed; an upload error is thrown before the update runs |
| AgentsBackend.PartitionComplete | backend/microservices/agents/agents.service.ts:427-457 | every file lands in exactly one of `successful` and `failed` |
| AgentsBackend.SuccessfulExactly | backend/microservices/agents/agents.service.ts:427-441 | a file is listed as successful exactly when its upload and update succeeded, with its name and the public URL of its storage path |
| AgentsBackend.UrlsOf | backend/microservices/agents/agents.service.ts:127-129 | one public URL per successful upload |
| AgentsBackend.UrlsOfAppend | backend/microservices/agents/agents.service.ts:127-129 | one more upload appends its URL |
| AgentsBackend.UploadStep | backend/microservices/agents/agents.service.ts:427-457 | one more file extends exactly one of the two lists: `successful` with its URL or `failed` with its message (`Unknown error` for a non-Error) |
| AgentsBackend.FileUrlList.constructor | backend/microservices/agents/agents.service.ts:113 | the list starts as the caller's URLs |
| AgentsBackend.FileUrlList.Push | backend/microservices/agents/agents.service.ts:441 | the URL is appended to the caller's list in place |
| AgentsBackend.UploadNext | backend/microservices/agents/agents.service.ts:428-441 | a success writes the deduplicated list plus the new URL as the agent's `file_urls` and then pushes the URL onto the caller's list; a failure changes neither |
| AgentsBackend.UploadFiles | backend/microservices/agents/agents.service.ts:413-468 | the files split, in input order, into the successful and the failed lists, which together count every file; the caller's list grows by the successful URLs in order; the last `file_urls` written is the deduplicated caller's list, and one is written exactly when some file succeeded |
| AgentsBackend.InsertedAsWritten | backend/microservices/agents/agents.service.ts:62-79 | the stored row takes only the id, name, description and organisation from the caller, and the table's defaults for `file_urls` and `active` |
| AgentsBackend.InsertDropsFileUrls | backend/microservices/agents/agents.service.ts:62-148 | an agent created with an uploaded file is stored without that file's URL |
| AgentsBackend.FinalFileUrlsCount | backend/microservices/agents/agents.service.ts:113-129 | with files given, the stored list has one URL per file that did not fail, replacing the client's list |
| AgentsBackend.CreateAgent | backend/microservices/agents/agents.service.ts:96-163 | a notification failure or an insert failure is rethrown; otherwise the agent is stored under the third party's id, active, with its fields and the final `file_urls` (the uploaded URLs when files are given, else the client's list, else empty) |
| AgentsBackend.GetAgentById | backend/microservices/agents/agents.service.ts:165-183 | a query error other than PostgREST's "no rows" code is thrown; otherwise the row, or nothing, is returned |
| Logger.NameShape | backend/services/logger.service.ts:1 | level names are non-empty lower-case words, their upper-cased forms capitals, and distinct levels have distinct names |
| Logger.TrimStart | backend/services/logger.service.ts:59 | the leading run of JavaScript white space is removed, and only that |
| Logger.TrimEnd | backend/services/logger.service.ts:59 | the trailing run of JavaScript white space is removed, and only that |
| Logger.ListedLevels | backend/services/logger.service.ts:56-59 | one listed level per comma-separated part of the lower-cased `LOG_LEVEL` |
| Logger.LowerFixes | backend/services/logger.service.ts:57 | lower-casing leaves text without capitals unchanged |
| Logger.TrimKeeps | backend/services/logger.service.ts:59 | text with no white space at either end trims to itself |
| Logger.SingleWord | backend/services/logger.service.ts:56-59 | a lower-case word lists just itself |
| Logger.SingleLevel | backend/services/logger.service.ts:49-61 | a `LOG_LEVEL` naming one level enables that level and no other |
| Logger.ListingMore | backend/services/logger.service.ts:56-60 | listing more levels after a comma keeps every level already enabled |
| Logger.Write | backend/services/logger.service.ts:63-99 | nothing is written exactly when the level is not enabled; otherwise one line of that level carrying the metadata as given, `LEVEL [ts] (scope) -> message`, wrapped in the level's colour and the reset code exactly when `NODE_ENV` is not "production" |
| Logger.NoEscapeConcat | backend/services/logger.service.ts:82 | joining text without escape characters gives text without them |
| Logger.ProductionUncoloured | backend/services/logger.service.ts:44-82 | in production a line holds no escape character beyond those of its timestamp, scope and message |
| Logger.DevelopmentColoured | backend/services/logger.service.ts:36-82 | outside production a line starts with the level's colour code and ends with the reset code |
| Logger.Merge | backend/services/logger.service.ts:107 | without call metadata the defaults are used as they are; with it, every call key wins and every other default key is kept, and no other key appears |
| Logger.MergeAssociative | backend/services/logger.service.ts:107 | merging defaults with two layers of metadata in turn equals merging them with the two layers merged first (also backend/services/logger.service.ts:144) |
| Logger.Child | backend/services/logger.service.ts:142-146 | a child's scope starts with the parent's and ends with the child's name, and it keeps the parent's defaults when given no metadata |
| Logger.ChildOfChild | backend/services/logger.service.ts:142-146 | scoping by `a` then `b` is scoping once by `a::b` with the two metadata layers merged |
| Logger.ChildLog | backend/services/logger.service.ts:101-160 | a child logger writes under `parent::child`, always shown as the scope part, with the call metadata merged over both layers of defaults |
| Logger.Present | backend/services/logger.service.ts:70-72 | a call writes at most one line |
| Logger.Time | backend/services/logger.service.ts:110-140 | the action's result or error is passed on unchanged; at most a debug `start:` line and an info `end:` line are written, none exactly when neither level is enabled; with info enabled the last line is the `end:` line, whose metadata has `duration_ms` or, when the action threw, the error under `error` |
| OrderedDict.Dict.Put | agents/src/services/pdf_service.py:43 | assigning a key keeps the dictionary valid, maps the key to the value, keeps an existing key's position and appends a new key last |
| OrderedDict.Dict.Remove | agents/src/services/pdf_service.py:251 | deleting a key removes it alone, the remaining keys being the old order without it; a present key shrinks the size by one |
| OrderedDict.Dict.Values | agents/src/services/pdf_service.py:243 | `list(d.values())` has one value per key, in key order |
| OrderedDict.Empty | agents/src/services/pdf_service.py:16 | `{}` is valid, of size 0 and maps nothing |
| OrderedDict.Without | agents/src/services/pdf_service.py:251 | dropping a key from the key order gives a subsequence of it (the other keys in their order), keeps exactly the other keys, keeps them distinct, and shortens a distinct order holding the key by one |

## Modelled as the code behaves

- `process_multiple_pdfs` stores each successful read under its own id,
  because it goes through `process_pdf_from_url`. It does so even when no
  combined document results (`PdfService.Stored`,
  `PdfService.PdfService.ProcessMultiplePdfs`).
- `updateAgentFileUrls` removes every repeat from the current list, not just
  a repeat of the new URL. The new URL is only appended when absent
  (`AgentsBackend.UpdatedFileUrls`, `AgentsBackend.AppendIfAbsent`).
- A failed stop raises a 500 inside the `try` of `stop_agent`. The generic
  handler catches it and raises a second 500 that quotes the first.
- The native amount check compares the strings exactly, with no numeric
  normalisation.

## Left out

- PdfService.PdfService.ProcessPdfFromUrl: its `Read` and `ReadFailed`
  outcomes describe a PDF URL reader that agents/src/tools/pdf_reader.py
  does not define. As written, the import of `read_pdf_from_url` at
  pdf_service.py:6 fails, and the call at line 31 raises `AttributeError`
  (`PdfService.ReadAsWritten`). So the success paths of
  `process_pdf_from_url` and `process_multiple_pdfs` model the evidently
  intended reader (see "## Findings").
- External calls are parameters of the operations that make them. Their own
  behaviour is not modelled. This covers:
  - the GoldRush lookup, and Web3 signing, sending, receipts, balance and gas;
  - Fernet, the ENS library and PyPDF2;
  - BeautifulSoup, `urlparse`/`urljoin` and the HTTP clients;
  - the process service, Supabase and the third-party agent server.
- Floating point is left out:
  - wei-to-ether display and `from_wei`;
  - the coverage percentages, which are kept as the ratio they round;
  - `estimated_total_balance_eth`;
  - the logger's `duration_ms`, which is a parameter.
- The reader's and the page's metadata are not modelled: PDF metadata,
  `_extract_metadata` and the metadata kept with a stored single document.
- The `ImportError` paths of the PDF reader are not modelled.
- The standalone wrapper functions at the end of `pdf_reader.py` and
  `webpage_reader.py` are not modelled.
- Uptime strings, the clock, fresh UUIDs and the working directory are
  parameters.
- Each create answer reads the clock a second time, after the stored
  record. The model uses one `now` for both.
- The generated agent scripts (f-string templates) and the prompt text
  around the capability bullet lines are not modelled. The script path is
  joined with `/` in place of `os.path.join`.
- File writes and removals, `asyncio.sleep` waits and console output are
  not modelled. The logger returns the line it would write.
- The outermost `except Exception` handlers that turn any unexpected error
  into a generic 500 or a failure dict are not modelled. This includes the
  verifier's "Verification failed: …" answer for a malformed record, and
  `search_webpage_content`'s "Failed to search webpage: …".
- `get_all_wallet_balances` writes each refreshed wallet back into the
  company registry. That write-back is not modelled.
- RPC URLs and other configuration read from the environment are not
  modelled. The logger's `LOG_LEVEL` and `NODE_ENV` are modelled.
- `getPublicUrl` is modelled as the bucket's public prefix followed by the
  storage path. A file's bytes and MIME type play no part.
- The Supabase pass-throughs are not modelled: `notifyThirdPartyServer`'s
  request, `getAgentsForOrg`, `updateAgent`, `deleteAgent` and
  `updateAgentActiveStatus`. Each only forwards a query.
- The metadata objects do not model key order. Key order only affects how
  the console prints them.
- The routes other than the wallet routes modelled above, and HTTP routing,
  are not part of this model.
- Text.Lower: lower-cases ASCII letters only. Python's `str.lower` also
  maps other letters, and can change a string's length. That would shift
  the positions and contexts the term search reports.
- Text.IsSpace: whitespace is the Latin-1 whitespace of Python's `\s` and
  `str.isspace`. Other Unicode spaces count as ordinary characters.
- Text.ParseInt: accepts an optional sign followed by decimal digits only.
  Python's `int(..)` also accepts surrounding whitespace and `_`
  separators; those inputs are reported as not parsing.

## Findings

| source | as written | input that shows it | evidently intended | confidence | as-written member | corrected member |
|---|---|---|---|---|---|---|
| backend/microservices/agents/agents.service.ts:62-79 | `storeAgentInDatabase` inserts only `name`, `org_id`, `agent_id` and `description`. `createAgent` passes `active: true`, the final `file_urls` and `resource_urls` (lines 140-148), and all three are dropped. | An agent created with one uploaded file: the stored row has the table's default `file_urls`, not the uploaded URL. | The row stores every column `createAgent` passes: active, with the final `file_urls` and the `resource_urls`. | not executed | AgentsBackend.InsertDropsFileUrls | AgentsBackend.CreateAgent |
| agents/src/services/pdf_service.py:31 | `process_pdf_from_url` calls `self.pdf_reader.read_pdf_from_url`. `PDFReader` in agents/src/tools/pdf_reader.py defines no such method, and the module-level `read_pdf_from_url` imported at line 6 does not exist either. | Any URL: the call raises `AttributeError`, the handler at lines 66-72 answers 500 "Failed to process PDF from URL: 'PDFReader' object has no attribute 'read_pdf_from_url'", and `process_multiple_pdfs` over any URLs answers the no-content error. | A reader that fetches the PDF and reads it as `read_pdf_from_bytes` does, so a readable PDF is stored and answered with its content. | not executed | PdfService.AsWrittenAddsNothing | PdfService.PdfService.ProcessPdfFromUrl |
