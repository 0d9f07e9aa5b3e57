/** `RefundProcessor`: the gates a refund request passes before the agent's
    wallet sends coins back to a user. The company's configuration is fixed at
    construction; every network answer (the GoldRush transaction lookup, the
    company's validation API, the wallet's balance and the send itself) is an
    input of the model. */
module RefundProcessor {
  import opened Wrappers
  import opened Text
  import TransactionVerifier

  // ---------------------------------------------------------------------------
  // Configuration

  /** Chain id and native token of a supported refund chain. */
  datatype ChainConfig = ChainConfig(chainId: int, nativeToken: string)

  /** `self.chain_configs`: the test networks behind the three chain names. */
  const ChainConfigs: map<string, ChainConfig> := map[
    "ethereum" := ChainConfig(11155111, "ETH"),
    "polygon" := ChainConfig(80002, "AMOY"),
    "bsc" := ChainConfig(84532, "ETH")
  ]

  /** `chain_mapping` in `_verify_transaction`: the GoldRush name of a chain. */
  const GoldRushChains: map<string, string> := map[
    "ethereum" := "eth-sepolia",
    "polygon" := "polygon-amoy",
    "bsc" := "base-sepolia"
  ]

  /** The fields `__init__` keeps (amounts are decimal wei strings). */
  datatype RefundConfig = RefundConfig(
    companyId: string,
    maxRefundAmount: string,
    expectedAddress: string,
    customApiUrl: Option<string>,
    escalationThreshold: string)

  /** `RefundProcessor.__init__`: an unset or empty escalation threshold
      defaults to the maximum refund amount. */
  function NewRefundProcessor(companyId: string, maxRefundAmount: string, expectedAddress: string,
                              customApiUrl: Option<string>, escalationThreshold: Option<string>): (c: RefundConfig)
    ensures c.companyId == companyId && c.maxRefundAmount == maxRefundAmount
    ensures c.expectedAddress == expectedAddress && c.customApiUrl == customApiUrl
    ensures !Truthy(escalationThreshold) ==> c.escalationThreshold == maxRefundAmount
    ensures Truthy(escalationThreshold) ==> c.escalationThreshold == escalationThreshold.value
  {
    RefundConfig(companyId, maxRefundAmount, expectedAddress, customApiUrl, OrElse(escalationThreshold, maxRefundAmount))
  }

  /** `max_refund_amount or self.max_refund_amount`. */
  function EffectiveMax(config: RefundConfig, maxOverride: Option<string>): string {
    OrElse(maxOverride, config.maxRefundAmount)
  }

  /** The message of the `ValueError` raised by `int(s)`. */
  function InvalidLiteral(s: string): string {
    "invalid literal for int() with base 10: '" + s + "'"
  }

  // ---------------------------------------------------------------------------
  // `_call_custom_api`

  /** What the POST to the company's API produced: an exception, or a status
      with the `valid` flag's truthiness and the `error` text of the body. */
  datatype CustomApiResponse =
    | CustomApiRaised(message: string)
    | CustomApiAnswered(status: int, validTruthy: bool, error: Option<string>)

  datatype CustomApiResult = CustomApiResult(valid: bool, message: Option<string>, error: Option<string>)

  function CallCustomApi(apiUrl: Option<string>, response: CustomApiResponse): (r: CustomApiResult)
    ensures !Truthy(apiUrl) ==> r == CustomApiResult(true, Some("No custom API configured"), None)
    ensures Truthy(apiUrl) ==> (r.valid <==> response.CustomApiAnswered? && response.status == 200 && response.validTruthy)
    ensures !r.valid ==> r.error.Some?
  {
    if !Truthy(apiUrl) then CustomApiResult(true, Some("No custom API configured"), None)
    else match response
      case CustomApiRaised(m) => CustomApiResult(false, None, Some("Custom API call failed: " + m))
      case CustomApiAnswered(status, validTruthy, error) =>
        if status != 200 then CustomApiResult(false, None, Some("Custom API returned status " + IntToString(status)))
        else if validTruthy then CustomApiResult(true, Some("Custom API validation successful"), None)
        else CustomApiResult(false, None, Some(error.GetOr("Custom API validation failed")))
  }

  // ---------------------------------------------------------------------------
  // `_verify_transaction` over the fetched record

  /** A mismatch entry; the overpayment-tolerant amount check adds an `error`. */
  datatype FieldMismatch = FieldMismatch(field: string, expected: string, actual: string, error: Option<string>)

  /** `verified: True` with the amounts, or `verified: False` with an `error`
      (absent when the rejection is a mismatch list). */
  datatype PaymentCheck =
    | PaymentVerified(actualAmount: string, expectedAmount: string, overpayment: string)
    | PaymentRejected(error: Option<string>, mismatches: seq<FieldMismatch>)

  function AddressMismatches(tx: TransactionVerifier.TxRecord, expectedFrom: string, expectedTo: string): seq<FieldMismatch> {
    (if Lower(tx.fromAddress) != Lower(expectedFrom)
     then [FieldMismatch("from_address", Lower(expectedFrom), Lower(tx.fromAddress), None)] else [])
    + (if Lower(tx.toAddress) != Lower(expectedTo)
       then [FieldMismatch("to_address", Lower(expectedTo), Lower(tx.toAddress), None)] else [])
  }

  function AmountMismatches(actual: int, expected: int, expectedAmount: string, allowOverpayment: bool): seq<FieldMismatch> {
    if allowOverpayment then
      if actual < expected
      then [FieldMismatch("amount", "At least " + expectedAmount, IntToString(actual),
                          Some("Payment amount is less than expected"))]
      else []
    else if actual != expected then [FieldMismatch("amount", expectedAmount, IntToString(actual), None)]
    else []
  }

  function VerifyPayment(apiKeyConfigured: bool, chain: string, response: TransactionVerifier.FetchResponse,
                         expectedFrom: string, expectedTo: string, expectedAmount: string,
                         allowOverpayment: bool): (r: PaymentCheck)
    ensures r.PaymentVerified? ==> r.expectedAmount == expectedAmount
    ensures r.PaymentRejected? ==> r.error.Some? || r.mismatches != []
  {
    if !apiKeyConfigured then PaymentRejected(Some("GoldRush API key not configured"), [])
    else if chain !in GoldRushChains then PaymentRejected(Some("Unsupported chain for verification: " + chain), [])
    else if response.status != 200 then
      PaymentRejected(Some("Failed to fetch transaction: " + IntToString(response.status)), [])
    else if response.items == [] then PaymentRejected(Some("No transaction found"), [])
    else if !response.items[0].successful then PaymentRejected(Some("Transaction was not successful"), [])
    else
      var tx := response.items[0];
      match (ParseInt(tx.value), ParseInt(expectedAmount))
      case (None, _) => PaymentRejected(Some("Verification failed: " + InvalidLiteral(tx.value)), [])
      case (_, None) => PaymentRejected(Some("Verification failed: " + InvalidLiteral(expectedAmount)), [])
      case (Some(actual), Some(expected)) =>
        var ms := AddressMismatches(tx, expectedFrom, expectedTo)
                  + AmountMismatches(actual, expected, expectedAmount, allowOverpayment);
        if ms != [] then PaymentRejected(None, ms)
        else PaymentVerified(IntToString(actual), expectedAmount,
                             if allowOverpayment then IntToString(if actual - expected > 0 then actual - expected else 0)
                             else "0")
  }

  // ---------------------------------------------------------------------------
  // The wallet and the refund transfer

  datatype Receipt = Receipt(transactionHash: string, gasUsed: int)

  /** The agent wallet as the refund sees it: decrypting the key (an error
      message if Fernet raises), whether the RPC node answers, the balance,
      gas price and nonce it reports, and the outcome of sign-send-wait. */
  datatype Wallet = Wallet(
    decryptedKey: Result<string, string>,
    connected: bool,
    balance: int,
    gasPrice: int,
    nonce: int,
    send: Result<Receipt, string>)

  /** Everything a refund call learns from outside. */
  datatype Network = Network(
    goldRushKeyConfigured: bool,
    lookup: TransactionVerifier.FetchResponse,
    customApi: CustomApiResponse,
    wallet: Wallet)

  /** The transaction the agent signs. */
  datatype Transfer = Transfer(to: string, value: int, gas: int, gasPrice: int, nonce: int)

  /** The standard gas limit of a plain value transfer. */
  const TransferGas := 21000

  /** The amounts an overpayment response reports. */
  datatype OverpaymentAmounts = OverpaymentAmounts(overpaymentAmount: string, expectedAmount: string, actualAmount: string)

  /** The dictionary `process_refund` / `process_overpayment_refund` return;
      `escalationReason` is present exactly when `escalation_required` is. */
  datatype RefundOutcome =
    | Refunded(refundTxHash: string, refundAmount: string, gasUsed: int, userAddress: string,
               reason: Option<string>, transfer: Transfer, amounts: Option<OverpaymentAmounts>)
    | Rejected(error: string, escalationReason: Option<string>, amounts: Option<OverpaymentAmounts>)

  /** How a gate stops a request: a returned rejection, or a raised exception
      whose message the caller prefixes. */
  datatype Stop =
    | Reject(error: string, escalationReason: Option<string>)
    | Raise(message: string)

  /** The limit gate's verdict on an amount. */
  datatype Limit = WithinLimit | OverMaximum | OverThreshold(threshold: int)

  /** `if amount > max: threshold = int(self.escalation_threshold) ...`: the
      threshold is parsed only when the maximum is exceeded. */
  function CheckLimit(amount: int, maxRefund: int, escalationThreshold: string): (r: Result<Limit, string>)
    ensures amount <= maxRefund ==> r == Ok(WithinLimit)
    ensures amount > maxRefund && ParseInt(escalationThreshold).Some? ==>
              r.Ok? && (r.value.OverThreshold? <==> amount > ParseInt(escalationThreshold).value)
    ensures r.Ok? && r.value.OverThreshold? ==> ParseInt(escalationThreshold) == Some(r.value.threshold)
    ensures r.Ok? && r.value.OverMaximum? ==> maxRefund < amount
    ensures r.Err? ==> amount > maxRefund && r.error == InvalidLiteral(escalationThreshold)
  {
    if amount <= maxRefund then Ok(WithinLimit)
    else match ParseInt(escalationThreshold)
      case None => Err(InvalidLiteral(escalationThreshold))
      case Some(t) => if amount > t then Ok(OverThreshold(t)) else Ok(OverMaximum)
  }

  /** `_get_web3_instance` followed by the balance check and the send. */
  function SendRefund(chain: string, wallet: Wallet, to: string, amount: int): Result<(Receipt, Transfer), Stop> {
    if wallet.decryptedKey.Err? then Err(Raise(wallet.decryptedKey.error))
    else if chain !in ChainConfigs then Err(Raise("Unsupported chain: " + chain))
    else if !wallet.connected then Err(Raise("Failed to connect to " + chain + " network"))
    else if wallet.balance < amount then
      Err(Reject("Insufficient balance: " + IntToString(wallet.balance) + " wei < " + IntToString(amount) + " wei", None))
    else
      var transfer := Transfer(to, amount, TransferGas, wallet.gasPrice, wallet.nonce);
      match wallet.send
      case Err(m) => Err(Raise(m))
      case Ok(receipt) => Ok((receipt, transfer))
  }

  // ---------------------------------------------------------------------------
  // `process_refund` and `validate_refund_request`

  /** The arguments of a refund request. */
  datatype RefundRequest = RefundRequest(
    userAddress: string,
    transactionHash: string,
    requestedAmount: string,
    refundChain: string,
    maxRefundAmount: Option<string>,
    reason: Option<string>)

  function NoCompanyAddress(config: RefundConfig): string {
    "No company address configured for company " + config.companyId
  }

  function CustomApiStop(result: CustomApiResult): Stop {
    Reject("Custom API validation failed: " + result.error.GetOr("Unknown error"), None)
  }

  function VerificationStop(check: PaymentCheck): Stop
    requires check.PaymentRejected?
  {
    Reject("Transaction verification failed: " + check.error.GetOr("Unknown error"), None)
  }

  /** The gates shared by `process_refund` and `validate_refund_request`, in
      their order: company address, amount limit and escalation, the custom
      API, then the exact-amount verification of the original payment. On
      success it yields the requested amount in wei. */
  function RequestGates(config: RefundConfig, req: RefundRequest, net: Network): (r: Result<int, Stop>)
    ensures r.Ok? ==> config.expectedAddress != ""
    ensures r.Ok? ==> ParseInt(req.requestedAmount) == Some(r.value)
    ensures r.Ok? ==> ParseInt(EffectiveMax(config, req.maxRefundAmount)).Some?
                      && r.value <= ParseInt(EffectiveMax(config, req.maxRefundAmount)).value
    ensures r.Ok? && Truthy(config.customApiUrl) ==> CallCustomApi(config.customApiUrl, net.customApi).valid
    ensures r.Ok? ==> VerifyPayment(net.goldRushKeyConfigured, req.refundChain, net.lookup, req.userAddress,
                                    config.expectedAddress, req.requestedAmount, false).PaymentVerified?
  {
    if config.expectedAddress == "" then Err(Reject(NoCompanyAddress(config), None))
    else
      var effectiveMax := EffectiveMax(config, req.maxRefundAmount);
      match (ParseInt(req.requestedAmount), ParseInt(effectiveMax))
      case (None, _) => Err(Raise(InvalidLiteral(req.requestedAmount)))
      case (_, None) => Err(Raise(InvalidLiteral(effectiveMax)))
      case (Some(requested), Some(maxRefund)) =>
        match CheckLimit(requested, maxRefund, config.escalationThreshold)
        case Err(m) => Err(Raise(m))
        case Ok(OverThreshold(t)) =>
          Err(Reject("Requested amount " + req.requestedAmount + " exceeds escalation threshold "
                     + IntToString(t) + ". Human intervention required.",
                     Some("Amount exceeds company escalation threshold")))
        case Ok(OverMaximum) =>
          Err(Reject("Requested amount " + req.requestedAmount + " exceeds maximum refund " + effectiveMax, None))
        case Ok(WithinLimit) =>
          var api := CallCustomApi(config.customApiUrl, net.customApi);
          if Truthy(config.customApiUrl) && !api.valid then Err(CustomApiStop(api))
          else
            var check := VerifyPayment(net.goldRushKeyConfigured, req.refundChain, net.lookup,
                                       req.userAddress, config.expectedAddress, req.requestedAmount, false);
            if check.PaymentRejected? then Err(VerificationStop(check))
            else Ok(requested)
  }

  /** The response for a stopped request, with the caller's exception prefix. */
  function StopToOutcome(stop: Stop, prefix: string, amounts: Option<OverpaymentAmounts>): RefundOutcome {
    match stop
    case Reject(e, esc) => Rejected(e, esc, amounts)
    case Raise(m) => Rejected(prefix + m, None, None)
  }

  /** `process_refund`: after the gates, exactly the requested amount is sent
      back to the user with the standard gas limit, provided the agent wallet
      holds at least that much. */
  function ProcessRefund(config: RefundConfig, req: RefundRequest, net: Network): (r: RefundOutcome)
    ensures config.expectedAddress == "" ==> r == Rejected(NoCompanyAddress(config), None, None)
    ensures r.Refunded? ==> RequestGates(config, req, net) == Ok(r.transfer.value)
    ensures r.Refunded? ==> r.transfer == Transfer(req.userAddress, r.transfer.value, 21000, net.wallet.gasPrice, net.wallet.nonce)
    ensures r.Refunded? ==> r.refundAmount == req.requestedAmount && net.wallet.balance >= r.transfer.value
    ensures r.Refunded? ==> r.reason == req.reason && r.amounts == None
  {
    match RequestGates(config, req, net)
    case Err(stop) => StopToOutcome(stop, "Refund processing failed: ", None)
    case Ok(amount) =>
      match SendRefund(req.refundChain, net.wallet, req.userAddress, amount)
      case Err(stop) => StopToOutcome(stop, "Refund processing failed: ", None)
      case Ok((receipt, transfer)) =>
        Refunded(receipt.transactionHash, req.requestedAmount, receipt.gasUsed, req.userAddress,
                 req.reason, transfer, None)
  }

  datatype ValidationOutcome =
    | RequestValid(userAddress: string, transactionHash: string, requestedAmount: string)
    | RequestInvalid(error: string, escalationReason: Option<string>)

  /** `validate_refund_request`: the same gates as `process_refund`, and no
      wallet access. */
  function ValidateRefundRequest(config: RefundConfig, req: RefundRequest, net: Network): (r: ValidationOutcome)
    ensures r.RequestValid? <==> RequestGates(config, req, net).Ok?
    ensures r.RequestValid? ==> r == RequestValid(req.userAddress, req.transactionHash, req.requestedAmount)
  {
    match RequestGates(config, req, net)
    case Ok(_) => RequestValid(req.userAddress, req.transactionHash, req.requestedAmount)
    case Err(Reject(e, esc)) => RequestInvalid(e, esc)
    case Err(Raise(m)) => RequestInvalid("Validation failed: " + m, None)
  }

  // ---------------------------------------------------------------------------
  // `process_overpayment_refund`

  function OverpaymentReason(actual: int, expectedAmount: string): string {
    "Refund for overpayment: paid " + IntToString(actual) + " wei instead of " + expectedAmount + " wei"
  }

  /** `process_overpayment_refund` after a successful verification of a
      payment of `actual` wei against `expected`: the overpayment must be
      positive, then the limit and escalation gates apply to it, then the
      custom API, and finally exactly the overpayment is sent back. */
  function OverpaymentRefund(config: RefundConfig, req: RefundRequest, net: Network, actual: int, expected: int)
    : (r: RefundOutcome)
    ensures actual <= expected ==>
              r == Rejected("No overpayment detected. Actual payment matches or is less than expected amount.", None, None)
    ensures r.Refunded? ==> r.transfer.value == actual - expected > 0
    ensures r.Refunded? ==> r.transfer.to == req.userAddress && r.transfer.gas == 21000
    ensures r.Refunded? ==> net.wallet.balance >= r.transfer.value && r.refundAmount == IntToString(r.transfer.value)
    ensures r.Refunded? ==> ParseInt(EffectiveMax(config, req.maxRefundAmount)).Some?
                            && actual - expected <= ParseInt(EffectiveMax(config, req.maxRefundAmount)).value
    ensures Truthy(config.customApiUrl) && !CallCustomApi(config.customApiUrl, net.customApi).valid ==> !r.Refunded?
  {
    var prefix := "Overpayment refund processing failed: ";
    var overpayment := actual - expected;
    if overpayment <= 0 then
      Rejected("No overpayment detected. Actual payment matches or is less than expected amount.", None, None)
    else
      var effectiveMax := EffectiveMax(config, req.maxRefundAmount);
      var amounts := Some(OverpaymentAmounts(IntToString(overpayment), req.requestedAmount, IntToString(actual)));
      match ParseInt(effectiveMax)
      case None => Rejected(prefix + InvalidLiteral(effectiveMax), None, None)
      case Some(maxRefund) =>
        match CheckLimit(overpayment, maxRefund, config.escalationThreshold)
        case Err(m) => Rejected(prefix + m, None, None)
        case Ok(OverThreshold(t)) =>
          Rejected("Overpayment amount " + IntToString(overpayment) + " exceeds escalation threshold "
                   + IntToString(t) + ". Human intervention required.",
                   Some("Overpayment amount exceeds company escalation threshold"), amounts)
        case Ok(OverMaximum) =>
          Rejected("Overpayment amount " + IntToString(overpayment) + " exceeds maximum refund " + effectiveMax,
                   None, amounts)
        case Ok(WithinLimit) => OverpaymentSend(config, req, net, actual, overpayment, amounts)
  }

  /** The last steps of `process_overpayment_refund`: the custom API, then the
      transfer of the overpayment. */
  function OverpaymentSend(config: RefundConfig, req: RefundRequest, net: Network, actual: int, overpayment: int,
                           amounts: Option<OverpaymentAmounts>): (r: RefundOutcome)
    ensures r.Refunded? ==> r.transfer == Transfer(req.userAddress, overpayment, 21000, net.wallet.gasPrice, net.wallet.nonce)
    ensures r.Refunded? ==> net.wallet.balance >= overpayment && r.refundAmount == IntToString(overpayment)
    ensures r.Refunded? ==> r.reason == Some(OrElse(req.reason, OverpaymentReason(actual, req.requestedAmount)))
    ensures Truthy(config.customApiUrl) && !CallCustomApi(config.customApiUrl, net.customApi).valid ==> !r.Refunded?
  {
    var prefix := "Overpayment refund processing failed: ";
    var api := CallCustomApi(config.customApiUrl, net.customApi);
    if Truthy(config.customApiUrl) && !api.valid then StopToOutcome(CustomApiStop(api), prefix, None)
    else
      match SendRefund(req.refundChain, net.wallet, req.userAddress, overpayment)
      case Err(stop) => StopToOutcome(stop, prefix, None)
      case Ok((receipt, transfer)) =>
        Refunded(receipt.transactionHash, IntToString(overpayment), receipt.gasUsed, req.userAddress,
                 Some(OrElse(req.reason, OverpaymentReason(actual, req.requestedAmount))),
                 transfer, amounts)
  }

  /** `process_overpayment_refund`: verification (allowing overpayment) comes
      first; a refund sends exactly the verified amount minus the expected
      amount. */
  function ProcessOverpaymentRefund(config: RefundConfig, req: RefundRequest, net: Network): (r: RefundOutcome)
    ensures config.expectedAddress == "" ==> r == Rejected(NoCompanyAddress(config), None, None)
    ensures r.Refunded? ==>
              && config.expectedAddress != ""
              && var check := VerifyPayment(net.goldRushKeyConfigured, req.refundChain, net.lookup, req.userAddress,
                                            config.expectedAddress, req.requestedAmount, true);
                 check.PaymentVerified?
                 && ParseInt(check.actualAmount).Some? && ParseInt(req.requestedAmount).Some?
                 && r.transfer.value == ParseInt(check.actualAmount).value - ParseInt(req.requestedAmount).value
    ensures r.Refunded? ==> r.transfer.value > 0 && r.transfer.to == req.userAddress && r.transfer.gas == 21000
    ensures r.Refunded? ==> net.wallet.balance >= r.transfer.value
    ensures r.Refunded? ==> r.refundAmount == IntToString(r.transfer.value)
  {
    if config.expectedAddress == "" then Rejected(NoCompanyAddress(config), None, None)
    else
      var check := VerifyPayment(net.goldRushKeyConfigured, req.refundChain, net.lookup, req.userAddress,
                                 config.expectedAddress, req.requestedAmount, true);
      if check.PaymentRejected? then StopToOutcome(VerificationStop(check), "", None)
      else
        var prefix := "Overpayment refund processing failed: ";
        match (ParseInt(check.actualAmount), ParseInt(req.requestedAmount))
        case (None, _) => Rejected(prefix + InvalidLiteral(check.actualAmount), None, None)
        case (_, None) => Rejected(prefix + InvalidLiteral(req.requestedAmount), None, None)
        case (Some(actual), Some(expected)) => OverpaymentRefund(config, req, net, actual, expected)
  }

  // ---------------------------------------------------------------------------
  // Properties

  /** The limit gate of `process_refund` and `validate_refund_request`, for a
      company address and parseable amounts: a request within the effective
      maximum passes it; above the maximum it is rejected, with
      `escalation_required` exactly when it also exceeds the threshold. */
  lemma RefundLimitGate(config: RefundConfig, req: RefundRequest, net: Network, requested: int, maxRefund: int, threshold: int)
    requires config.expectedAddress != ""
    requires ParseInt(req.requestedAmount) == Some(requested)
    requires ParseInt(EffectiveMax(config, req.maxRefundAmount)) == Some(maxRefund)
    requires ParseInt(config.escalationThreshold) == Some(threshold)
    ensures var r := ProcessRefund(config, req, net);
            && (requested > maxRefund && requested > threshold ==>
                  r.Rejected? && r.escalationReason == Some("Amount exceeds company escalation threshold"))
            && (requested > maxRefund && requested <= threshold ==>
                  r == Rejected("Requested amount " + req.requestedAmount + " exceeds maximum refund "
                                + EffectiveMax(config, req.maxRefundAmount), None, None))
            && (r.Refunded? ==> requested <= maxRefund)
    ensures var v := ValidateRefundRequest(config, req, net);
            && (requested > maxRefund ==> v.RequestInvalid? && (v.escalationReason.Some? <==> requested > threshold))
  {
  }

  /** With the default threshold (equal to the maximum), every request above
      the maximum asks for escalation: the plain "exceeds maximum" rejection
      only happens when a larger threshold was configured. */
  lemma DefaultThresholdAlwaysEscalates(companyId: string, maxRefundAmount: string, expectedAddress: string,
                                        customApiUrl: Option<string>, req: RefundRequest, net: Network, requested: int)
    requires expectedAddress != "" && !Truthy(req.maxRefundAmount)
    requires ParseInt(req.requestedAmount) == Some(requested)
    requires ParseInt(maxRefundAmount).Some? && requested > ParseInt(maxRefundAmount).value
    ensures var config := NewRefundProcessor(companyId, maxRefundAmount, expectedAddress, customApiUrl, None);
            ProcessRefund(config, req, net).Rejected?
            && ProcessRefund(config, req, net).escalationReason.Some?
  {
  }

  /** The limit gate runs before the payment is looked up: a request above
      the maximum is rejected whatever the lookup, the custom API and the
      wallet would answer. */
  lemma RefundLimitBeforeVerification(config: RefundConfig, req: RefundRequest, net1: Network, net2: Network, requested: int)
    requires ParseInt(req.requestedAmount) == Some(requested)
    requires ParseInt(EffectiveMax(config, req.maxRefundAmount)).Some?
    requires requested > ParseInt(EffectiveMax(config, req.maxRefundAmount)).value
    ensures ProcessRefund(config, req, net1) == ProcessRefund(config, req, net2)
    ensures ProcessRefund(config, req, net1).Rejected?
  {
  }

  /** The overpayment refund verifies first: when the payment lookup fails,
      the answer is the verification error, however large the overpayment. */
  lemma OverpaymentVerificationFirst(config: RefundConfig, req: RefundRequest, net: Network)
    requires config.expectedAddress != ""
    requires VerifyPayment(net.goldRushKeyConfigured, req.refundChain, net.lookup, req.userAddress,
                           config.expectedAddress, req.requestedAmount, true).PaymentRejected?
    ensures var check := VerifyPayment(net.goldRushKeyConfigured, req.refundChain, net.lookup, req.userAddress,
                                       config.expectedAddress, req.requestedAmount, true);
            ProcessOverpaymentRefund(config, req, net)
              == Rejected("Transaction verification failed: " + check.error.GetOr("Unknown error"), None, None)
  {
  }

  /** A payment of `actual` wei against `expected`, from the user to the
      company, found and successful on a supported chain: verification allowing
      overpayment passes exactly when `actual >= expected`, and then the rest
      of the overpayment refund works on `actual` and `expected`. */
  lemma OverpaymentVerified(config: RefundConfig, req: RefundRequest, net: Network, actual: int, expected: int)
    requires config.expectedAddress != ""
    requires net.goldRushKeyConfigured && req.refundChain in GoldRushChains && net.lookup.status == 200
    requires net.lookup.items != [] && net.lookup.items[0].successful
    requires Lower(net.lookup.items[0].fromAddress) == Lower(req.userAddress)
    requires Lower(net.lookup.items[0].toAddress) == Lower(config.expectedAddress)
    requires ParseInt(net.lookup.items[0].value) == Some(actual) && ParseInt(req.requestedAmount) == Some(expected)
    ensures actual < expected ==>
              ProcessOverpaymentRefund(config, req, net) == Rejected("Transaction verification failed: Unknown error", None, None)
    ensures actual >= expected ==>
              ProcessOverpaymentRefund(config, req, net) == OverpaymentRefund(config, req, net, actual, expected)
  {
    var check := VerifyPayment(net.goldRushKeyConfigured, req.refundChain, net.lookup, req.userAddress,
                               config.expectedAddress, req.requestedAmount, true);
    PaymentAmountRule(net.goldRushKeyConfigured, req.refundChain, net.lookup, req.userAddress,
                      config.expectedAddress, req.requestedAmount, true, actual, expected);
    if actual < expected {
      assert check.PaymentRejected? && check.error == None;
    }
  }

  /** For such a payment an underpayment fails verification (so the "less
      than expected" case of the no-overpayment message never arises) and an
      exact payment is rejected as no overpayment. */
  lemma OverpaymentNeedsExcess(config: RefundConfig, req: RefundRequest, net: Network, actual: int, expected: int)
    requires config.expectedAddress != ""
    requires net.goldRushKeyConfigured && req.refundChain in GoldRushChains && net.lookup.status == 200
    requires net.lookup.items != [] && net.lookup.items[0].successful
    requires Lower(net.lookup.items[0].fromAddress) == Lower(req.userAddress)
    requires Lower(net.lookup.items[0].toAddress) == Lower(config.expectedAddress)
    requires ParseInt(net.lookup.items[0].value) == Some(actual) && ParseInt(req.requestedAmount) == Some(expected)
    ensures var r := ProcessOverpaymentRefund(config, req, net);
            && (actual < expected ==> r == Rejected("Transaction verification failed: Unknown error", None, None))
            && (actual == expected ==>
                  r == Rejected("No overpayment detected. Actual payment matches or is less than expected amount.", None, None))
  {
    OverpaymentVerified(config, req, net, actual, expected);
  }

  /** Once verified, an overpayment above the maximum is rejected (with
      escalation exactly above the threshold) and reports the amounts, and a
      refund sends exactly `actual - expected`, which is within the maximum. */
  lemma OverpaymentLimitGate(config: RefundConfig, req: RefundRequest, net: Network,
                             actual: int, expected: int, maxRefund: int, threshold: int)
    requires actual > expected
    requires ParseInt(EffectiveMax(config, req.maxRefundAmount)) == Some(maxRefund)
    requires ParseInt(config.escalationThreshold) == Some(threshold)
    ensures var r := OverpaymentRefund(config, req, net, actual, expected);
            && (actual - expected > maxRefund ==>
                  r.Rejected? && (r.escalationReason.Some? <==> actual - expected > threshold)
                  && r.amounts == Some(OverpaymentAmounts(IntToString(actual - expected), req.requestedAmount, IntToString(actual))))
            && (r.Refunded? ==> r.transfer.value == actual - expected && actual - expected <= maxRefund)
  {
  }

  /** The payment check: sender and recipient are compared case-insensitively;
      the amount must be equal, or, when overpayment is allowed, at least the
      expected amount; the reported overpayment is `max(0, actual - expected)`
      when allowed and "0" otherwise. */
  lemma PaymentAmountRule(apiKeyConfigured: bool, chain: string, response: TransactionVerifier.FetchResponse,
                          expectedFrom: string, expectedTo: string, expectedAmount: string,
                          allowOverpayment: bool, actual: int, expected: int)
    requires apiKeyConfigured && chain in GoldRushChains && response.status == 200
    requires response.items != [] && response.items[0].successful
    requires ParseInt(response.items[0].value) == Some(actual) && ParseInt(expectedAmount) == Some(expected)
    ensures var r := VerifyPayment(apiKeyConfigured, chain, response, expectedFrom, expectedTo, expectedAmount, allowOverpayment);
            && (r.PaymentVerified? <==>
                  && Lower(response.items[0].fromAddress) == Lower(expectedFrom)
                  && Lower(response.items[0].toAddress) == Lower(expectedTo)
                  && (if allowOverpayment then actual >= expected else actual == expected))
            && (r.PaymentVerified? ==>
                  && ParseInt(r.actualAmount) == Some(actual)
                  && r.overpayment == if allowOverpayment then IntToString(actual - expected) else "0")
  {
    ParseIntToString(actual);
  }

  /** A payment lookup failure on the way (no API key, an unsupported chain, a
      failed fetch, no item, an unsuccessful transaction) is reported as an
      error, before any field is compared. */
  lemma PaymentLookupErrors(apiKeyConfigured: bool, chain: string, response: TransactionVerifier.FetchResponse,
                            expectedFrom: string, expectedTo: string, expectedAmount: string, allowOverpayment: bool)
    requires !apiKeyConfigured || chain !in GoldRushChains || response.status != 200
             || response.items == [] || !response.items[0].successful
    ensures var r := VerifyPayment(apiKeyConfigured, chain, response, expectedFrom, expectedTo, expectedAmount, allowOverpayment);
            r.PaymentRejected? && r.error.Some? && r.mismatches == []
  {
  }

  /** A refund chain outside the three supported ones never reaches the
      wallet: the payment lookup already rejects it. */
  lemma UnsupportedChainStopsAtVerification(config: RefundConfig, req: RefundRequest, net: Network)
    requires req.refundChain !in GoldRushChains
    ensures ProcessRefund(config, req, net).Rejected?
    ensures ProcessOverpaymentRefund(config, req, net).Rejected?
  {
  }

  /** The refund transfer is built only when the balance covers it. */
  lemma InsufficientBalanceRejects(config: RefundConfig, req: RefundRequest, net: Network, requested: int)
    requires RequestGates(config, req, net) == Ok(requested)
    requires net.wallet.decryptedKey.Ok? && req.refundChain in ChainConfigs && net.wallet.connected
    requires net.wallet.balance < requested
    ensures ProcessRefund(config, req, net)
              == Rejected("Insufficient balance: " + IntToString(net.wallet.balance) + " wei < "
                          + IntToString(requested) + " wei", None, None)
  {
  }

  /** A configured custom API that does not answer `valid` stops every kind
      of refund that reaches it. */
  lemma CustomApiRejectionStops(config: RefundConfig, req: RefundRequest, net: Network)
    requires Truthy(config.customApiUrl) && !CallCustomApi(config.customApiUrl, net.customApi).valid
    ensures !ProcessRefund(config, req, net).Refunded?
    ensures !ValidateRefundRequest(config, req, net).RequestValid?
    ensures !ProcessOverpaymentRefund(config, req, net).Refunded?
  {
  }
}
