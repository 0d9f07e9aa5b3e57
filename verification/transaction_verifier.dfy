/** `verify_transaction`: compares a transaction fetched from the GoldRush API
    with the transfer the caller expects, field by field, for a native-coin
    transfer or for an ERC-20 token transfer (whose recipient and amount live
    in the `Transfer(from, to, value)` event of the token contract). */
module TransactionVerifier {
  import opened Wrappers
  import opened Text

  // ---------------------------------------------------------------------------
  // The fetched record (missing keys already replaced by the `.get` defaults)

  /** One decoded event parameter; `value` defaults to "". */
  datatype Param = Param(value: string)

  /** A log event: `sender_address` (default "") and the decoded `name`
      (default "") and `params` (default []). */
  datatype LogEvent = LogEvent(senderAddress: string, name: string, params: seq<Param>)

  /** `items[0]` of the API answer. `successful` defaults to False,
      `from_address`/`to_address` to "", `value` to "0", `log_events` to []. */
  datatype TxRecord = TxRecord(
    successful: bool,
    fromAddress: string,
    toAddress: string,
    value: string,
    logEvents: seq<LogEvent>)

  /** The HTTP answer: its status and, when it is 200, the `items` list. */
  datatype FetchResponse = FetchResponse(status: int, items: seq<TxRecord>)

  /** One entry of the `mismatches` list. */
  datatype Mismatch = Mismatch(field: string, expected: string, actual: string)

  /** The returned dictionary: `verified: True` with "All parameters match",
      `verified: False` with `mismatches`, or `verified: False` with `error`. */
  datatype VerifyOutcome =
    | Verified
    | Mismatched(mismatches: seq<Mismatch>)
    | Failed(error: string)

  // ---------------------------------------------------------------------------
  // Specification

  /** A mismatch for `field` when the two lowercased strings differ. */
  function CompareLowered(field: string, expected: string, actual: string): (ms: seq<Mismatch>)
    ensures ms == [] <==> Lower(expected) == Lower(actual)
    ensures ms != [] ==> ms == [Mismatch(field, Lower(expected), Lower(actual))]
  {
    if Lower(actual) != Lower(expected) then [Mismatch(field, Lower(expected), Lower(actual))] else []
  }

  /** A mismatch for `field` when the two strings differ exactly. */
  function CompareExact(field: string, expected: string, actual: string): (ms: seq<Mismatch>)
    ensures ms == [] <==> expected == actual
    ensures ms != [] ==> ms == [Mismatch(field, expected, actual)]
  {
    if actual != expected then [Mismatch(field, expected, actual)] else []
  }

  function NativeMismatches(tx: TxRecord, fromAddress: string, toAddress: string, amount: string): seq<Mismatch> {
    CompareLowered("from_address", fromAddress, tx.fromAddress)
    + CompareLowered("to_address", toAddress, tx.toAddress)
    + CompareExact("amount", amount, tx.value)
  }

  /** An event that is checked: emitted by the token contract, with "transfer"
      in its name (both case-insensitive) and at least three parameters. */
  predicate IsTransferOf(e: LogEvent, tokenAddress: string) {
    && Lower(e.senderAddress) == Lower(tokenAddress)
    && Contains(Lower(e.name), "transfer")
    && |e.params| >= 3
  }

  function FirstTransferFrom(events: seq<LogEvent>, tokenAddress: string, i: nat): (r: Option<nat>)
    requires i <= |events|
    decreases |events| - i
    ensures r.Some? ==> i <= r.value < |events| && IsTransferOf(events[r.value], tokenAddress)
    ensures r.Some? ==> forall j :: i <= j < r.value ==> !IsTransferOf(events[j], tokenAddress)
    ensures r.None? ==> forall j :: i <= j < |events| ==> !IsTransferOf(events[j], tokenAddress)
  {
    if i == |events| then None
    else if IsTransferOf(events[i], tokenAddress) then Some(i)
    else FirstTransferFrom(events, tokenAddress, i + 1)
  }

  /** The index of the event the loop stops at, if any. */
  function FirstTransfer(events: seq<LogEvent>, tokenAddress: string): Option<nat> {
    FirstTransferFrom(events, tokenAddress, 0)
  }

  /** The checks made on the first transfer event: `params[1]` against the
      recipient (case-insensitive), `params[2]` against the amount (exact). */
  function TransferMismatches(e: LogEvent, toAddress: string, amount: string): seq<Mismatch>
    requires |e.params| >= 3
  {
    CompareLowered("transfer_recipient", toAddress, e.params[1].value)
    + CompareExact("amount", amount, e.params[2].value)
  }

  function NoTransferMismatch(toAddress: string, amount: string): Mismatch {
    Mismatch("token_transfer", "Transfer of " + amount + " tokens to " + toAddress,
             "No matching transfer event found")
  }

  function Erc20Mismatches(tx: TxRecord, fromAddress: string, toAddress: string,
                           tokenAddress: string, amount: string): seq<Mismatch>
  {
    CompareLowered("from_address", fromAddress, tx.fromAddress)
    + CompareLowered("token_contract", tokenAddress, tx.toAddress)
    + TransferCheck(tx.logEvents, toAddress, tokenAddress, amount)
  }

  /** The mismatches from the event scan: those of the first qualifying
      event, or the `token_transfer` mismatch when there is none. */
  function TransferCheck(events: seq<LogEvent>, toAddress: string, tokenAddress: string, amount: string): seq<Mismatch> {
    match FirstTransfer(events, tokenAddress)
    case Some(k) => TransferMismatches(events[k], toAddress, amount)
    case None => [NoTransferMismatch(toAddress, amount)]
  }

  function ExpectedOutcome(response: FetchResponse, fromAddress: string, toAddress: string,
                           tokenAddress: string, amount: string, isNative: bool): VerifyOutcome
  {
    if response.status != 200 then Failed("Failed to fetch transaction: " + IntToString(response.status))
    else if response.items == [] then Failed("No transaction found")
    else if !response.items[0].successful then Failed("Transaction was not successful")
    else
      var ms := if isNative then NativeMismatches(response.items[0], fromAddress, toAddress, amount)
                else Erc20Mismatches(response.items[0], fromAddress, toAddress, tokenAddress, amount);
      if ms == [] then Verified else Mismatched(ms)
  }

  // ---------------------------------------------------------------------------
  // The verifier

  method VerifyTransaction(response: FetchResponse, fromAddress: string, toAddress: string,
                           tokenAddress: string, amount: string, isNative: bool)
    returns (r: VerifyOutcome)
    ensures r == ExpectedOutcome(response, fromAddress, toAddress, tokenAddress, amount, isNative)
  {
    if response.status != 200 {
      return Failed("Failed to fetch transaction: " + IntToString(response.status));
    }
    if response.items == [] {
      return Failed("No transaction found");
    }
    var tx := response.items[0];
    if !tx.successful {
      return Failed("Transaction was not successful");
    }
    var mismatches: seq<Mismatch>;
    if isNative {
      mismatches := CheckNative(tx, fromAddress, toAddress, amount);
    } else {
      mismatches := CheckErc20(tx, fromAddress, toAddress, tokenAddress, amount);
    }
    if mismatches != [] {
      return Mismatched(mismatches);
    }
    return Verified;
  }

  /** The native-coin branch of `verify_transaction`. */
  method CheckNative(tx: TxRecord, fromAddress: string, toAddress: string, amount: string)
    returns (mismatches: seq<Mismatch>)
    ensures mismatches == NativeMismatches(tx, fromAddress, toAddress, amount)
  {
    mismatches := [];
    var actualFrom := Lower(tx.fromAddress);
    var expectedFrom := Lower(fromAddress);
    if actualFrom != expectedFrom {
      mismatches := mismatches + [Mismatch("from_address", expectedFrom, actualFrom)];
    }
    var actualTo := Lower(tx.toAddress);
    var expectedTo := Lower(toAddress);
    if actualTo != expectedTo {
      mismatches := mismatches + [Mismatch("to_address", expectedTo, actualTo)];
    }
    if tx.value != amount {
      mismatches := mismatches + [Mismatch("amount", amount, tx.value)];
    }
  }

  /** The ERC-20 branch of `verify_transaction`: the two header checks, then
      the scan for the first qualifying transfer event. */
  method CheckErc20(tx: TxRecord, fromAddress: string, toAddress: string,
                    tokenAddress: string, amount: string)
    returns (mismatches: seq<Mismatch>)
    ensures mismatches == Erc20Mismatches(tx, fromAddress, toAddress, tokenAddress, amount)
  {
    mismatches := [];
    var actualFrom := Lower(tx.fromAddress);
    var expectedFrom := Lower(fromAddress);
    if actualFrom != expectedFrom {
      mismatches := mismatches + [Mismatch("from_address", expectedFrom, actualFrom)];
    }
    var actualTo := Lower(tx.toAddress);
    var expectedContract := Lower(tokenAddress);
    if actualTo != expectedContract {
      mismatches := mismatches + [Mismatch("token_contract", expectedContract, actualTo)];
    }
    assert mismatches == CompareLowered("from_address", fromAddress, tx.fromAddress)
                         + CompareLowered("token_contract", tokenAddress, tx.toAddress);
    var transfer := ScanTransfers(tx.logEvents, toAddress, tokenAddress, amount);
    mismatches := mismatches + transfer;
  }

  /** The event loop: the checks of the first event from the token contract
      whose name mentions "transfer" and that has at least three parameters,
      or the `token_transfer` mismatch when there is none. */
  method ScanTransfers(events: seq<LogEvent>, toAddress: string, tokenAddress: string, amount: string)
    returns (mismatches: seq<Mismatch>)
    ensures mismatches == TransferCheck(events, toAddress, tokenAddress, amount)
  {
    mismatches := [];
    var foundTransfer := false;
    var i := 0;
    while i < |events|
      invariant 0 <= i <= |events|
      invariant !foundTransfer && mismatches == []
      invariant FirstTransfer(events, tokenAddress) == FirstTransferFrom(events, tokenAddress, i)
    {
      var event := events[i];
      if Lower(event.senderAddress) == Lower(tokenAddress) && Contains(Lower(event.name), "transfer") {
        if |event.params| >= 3 {
          var actualRecipient := Lower(event.params[1].value);
          var expectedRecipient := Lower(toAddress);
          if actualRecipient != expectedRecipient {
            mismatches := mismatches + [Mismatch("transfer_recipient", expectedRecipient, actualRecipient)];
          }
          var actualAmount := event.params[2].value;
          if actualAmount != amount {
            mismatches := mismatches + [Mismatch("amount", amount, actualAmount)];
          }
          foundTransfer := true;
          break;
        }
      }
      i := i + 1;
    }
    if !foundTransfer {
      mismatches := mismatches + [NoTransferMismatch(toAddress, amount)];
    }
  }

  // ---------------------------------------------------------------------------
  // Properties

  predicate HasField(ms: seq<Mismatch>, field: string) {
    exists i :: 0 <= i < |ms| && ms[i].field == field
  }

  /** `verified` is true iff the fetch succeeded, the first item is a
      successful transaction, and the mismatch list is empty; a failed fetch,
      an empty `items` or an unsuccessful transaction is reported as an error
      without any field comparison. */
  lemma VerifiedIffNoMismatch(response: FetchResponse, fromAddress: string, toAddress: string,
                              tokenAddress: string, amount: string, isNative: bool)
    ensures var r := ExpectedOutcome(response, fromAddress, toAddress, tokenAddress, amount, isNative);
            && (r.Verified? <==>
                 && response.status == 200 && response.items != [] && response.items[0].successful
                 && (if isNative then NativeMismatches(response.items[0], fromAddress, toAddress, amount)
                     else Erc20Mismatches(response.items[0], fromAddress, toAddress, tokenAddress, amount)) == [])
            && (r.Mismatched? ==> r.mismatches != [])
            && (response.status == 200 && response.items == [] ==> r == Failed("No transaction found"))
            && (response.status == 200 && response.items != [] && !response.items[0].successful ==>
                  r == Failed("Transaction was not successful"))
  {
  }

  /** Native mode: the sender and recipient are compared case-insensitively,
      the amount as an exact string, one mismatch per failing field. */
  lemma NativeFieldChecks(tx: TxRecord, fromAddress: string, toAddress: string, amount: string)
    ensures var ms := NativeMismatches(tx, fromAddress, toAddress, amount);
            && (HasField(ms, "from_address") <==> Lower(tx.fromAddress) != Lower(fromAddress))
            && (HasField(ms, "to_address") <==> Lower(tx.toAddress) != Lower(toAddress))
            && (HasField(ms, "amount") <==> tx.value != amount)
            && (ms == [] <==> Lower(tx.fromAddress) == Lower(fromAddress)
                              && Lower(tx.toAddress) == Lower(toAddress) && tx.value == amount)
            && |ms| <= 3
  {
    var a := CompareLowered("from_address", fromAddress, tx.fromAddress);
    var b := CompareLowered("to_address", toAddress, tx.toAddress);
    var c := CompareExact("amount", amount, tx.value);
    var ms := a + b + c;
    assert HasField(ms, "from_address") ==> a != [] by {
      if a == [] {
        forall i | 0 <= i < |ms| ensures ms[i].field != "from_address" {
          assert ms[i] in b + c;
        }
      }
    }
    assert HasField(ms, "to_address") ==> b != [] by {
      if b == [] {
        forall i | 0 <= i < |ms| ensures ms[i].field != "to_address" {
          assert ms[i] in a + c;
        }
      }
    }
    assert HasField(ms, "amount") ==> c != [] by {
      if c == [] {
        forall i | 0 <= i < |ms| ensures ms[i].field != "amount" {
          assert ms[i] in a + b;
        }
      }
    }
    if a != [] { assert ms[0].field == "from_address"; }
    if b != [] { assert ms[|a|].field == "to_address"; }
    if c != [] { assert ms[|a| + |b|].field == "amount"; }
  }

  /** Amounts are not normalised: "0100" and "100" are different amounts. */
  lemma NativeAmountNotNormalised(tx: TxRecord, fromAddress: string, toAddress: string)
    requires tx.value == "0100"
    ensures NativeMismatches(tx, fromAddress, toAddress, "100") != []
  {
  }

  /** ERC-20 mode: the transaction must be sent to the token contract
      (case-insensitive), otherwise a `token_contract` mismatch is recorded. */
  lemma TokenContractCheck(tx: TxRecord, fromAddress: string, toAddress: string,
                           tokenAddress: string, amount: string)
    ensures var ms := Erc20Mismatches(tx, fromAddress, toAddress, tokenAddress, amount);
            var k := |CompareLowered("from_address", fromAddress, tx.fromAddress)|;
            (Lower(tx.toAddress) != Lower(tokenAddress) <==>
               k < |ms| && ms[k] == Mismatch("token_contract", Lower(tokenAddress), Lower(tx.toAddress)))
  {
  }

  /** Without a qualifying transfer event the transaction is never verified:
      the last mismatch is `token_transfer`. */
  lemma NoTransferEventRejects(tx: TxRecord, fromAddress: string, toAddress: string,
                               tokenAddress: string, amount: string)
    requires forall e :: e in tx.logEvents ==> !IsTransferOf(e, tokenAddress)
    ensures var ms := Erc20Mismatches(tx, fromAddress, toAddress, tokenAddress, amount);
            ms != [] && ms[|ms| - 1] == NoTransferMismatch(toAddress, amount)
  {
  }

  /** Only the first qualifying event is examined: events after it have no
      influence on the result, and a qualifying event whose recipient and
      amount match leaves no transfer mismatch. */
  lemma OnlyFirstTransferChecked(tx: TxRecord, fromAddress: string, toAddress: string,
                                 tokenAddress: string, amount: string, k: nat, later: seq<LogEvent>)
    requires FirstTransfer(tx.logEvents, tokenAddress) == Some(k)
    ensures var cut := tx.(logEvents := tx.logEvents[..k + 1] + later);
            Erc20Mismatches(cut, fromAddress, toAddress, tokenAddress, amount)
              == Erc20Mismatches(tx, fromAddress, toAddress, tokenAddress, amount)
  {
    var events := tx.logEvents[..k + 1] + later;
    var i := 0;
    while i < k
      invariant 0 <= i <= k
      invariant FirstTransferFrom(events, tokenAddress, i) == FirstTransferFrom(events, tokenAddress, 0)
    {
      assert events[i] == tx.logEvents[i];
      i := i + 1;
    }
    assert events[k] == tx.logEvents[k];
  }

  /** Events that are not from the token contract, or not named like a
      transfer, or carry fewer than three parameters, are skipped. */
  lemma SkippedEventsIgnored(tx: TxRecord, fromAddress: string, toAddress: string,
                             tokenAddress: string, amount: string, skipped: LogEvent)
    requires !IsTransferOf(skipped, tokenAddress)
    ensures var more := tx.(logEvents := [skipped] + tx.logEvents);
            Erc20Mismatches(more, fromAddress, toAddress, tokenAddress, amount)
              == Erc20Mismatches(tx, fromAddress, toAddress, tokenAddress, amount)
  {
    var events := [skipped] + tx.logEvents;
    ShiftedSearch(tx.logEvents, skipped, tokenAddress, 0);
    assert FirstTransfer(events, tokenAddress) == FirstTransferFrom(events, tokenAddress, 1);
    if FirstTransfer(tx.logEvents, tokenAddress).Some? {
      var k := FirstTransfer(tx.logEvents, tokenAddress).value;
      assert events[k + 1] == tx.logEvents[k];
    }
    assert TransferCheck(events, toAddress, tokenAddress, amount)
        == TransferCheck(tx.logEvents, toAddress, tokenAddress, amount);
  }

  lemma {:induction false} ShiftedSearch(events: seq<LogEvent>, first: LogEvent, tokenAddress: string, i: nat)
    requires i <= |events|
    decreases |events| - i
    ensures var a := FirstTransferFrom([first] + events, tokenAddress, i + 1);
            var b := FirstTransferFrom(events, tokenAddress, i);
            (a.None? <==> b.None?) && (b.Some? ==> a == Some(b.value + 1))
  {
    var events' := [first] + events;
    if i < |events| {
      assert events'[i + 1] == events[i];
      ShiftedSearch(events, first, tokenAddress, i + 1);
    }
  }
}
