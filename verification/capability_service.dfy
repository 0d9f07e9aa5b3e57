/** `CapabilityService`: the fixed table from an agent capability to the tools
    (function-calling schemas) it brings, the capability descriptions, and the
    selections made from a requested capability list when an agent is
    generated. */
module CapabilityService {
  import opened Wrappers
  import opened Text

  /** A tool's `function.name` and `function.description` (its parameter
      schema is not part of the model). */
  datatype Tool = Tool(name: string, description: string)

  /** `CapabilityType`. */
  datatype Capability =
    | DocumentReference
    | TransactionVerification
    | Calculator
    | RefundProcessing
    | CustomerSupport
    | ProductInformation
    | TechnicalSupport
    | BillingSupport
    | GeneralInquiries

  /** The enum members in declaration order. */
  const AllCapabilities: seq<Capability> := [
    DocumentReference, TransactionVerification, Calculator, RefundProcessing, CustomerSupport,
    ProductInformation, TechnicalSupport, BillingSupport, GeneralInquiries
  ]

  lemma EveryMemberListed()
    ensures forall c: Capability :: c in AllCapabilities
  {
    forall c: Capability ensures c in AllCapabilities {
      match c
      case DocumentReference => assert AllCapabilities[0] == c;
      case TransactionVerification => assert AllCapabilities[1] == c;
      case Calculator => assert AllCapabilities[2] == c;
      case RefundProcessing => assert AllCapabilities[3] == c;
      case CustomerSupport => assert AllCapabilities[4] == c;
      case ProductInformation => assert AllCapabilities[5] == c;
      case TechnicalSupport => assert AllCapabilities[6] == c;
      case BillingSupport => assert AllCapabilities[7] == c;
      case GeneralInquiries => assert AllCapabilities[8] == c;
    }
  }

  /** `CapabilityType.X.value`. */
  function Value(c: Capability): string {
    match c
    case DocumentReference => "document_reference"
    case TransactionVerification => "transaction_verification"
    case Calculator => "calculator"
    case RefundProcessing => "refund_processing"
    case CustomerSupport => "customer_support"
    case ProductInformation => "product_information"
    case TechnicalSupport => "technical_support"
    case BillingSupport => "billing_support"
    case GeneralInquiries => "general_inquiries"
  }

  /** The first member of `cs` whose value is `s`, if any. */
  function Lookup(s: string, cs: seq<Capability>): (r: Option<Capability>)
    ensures r.Some? ==> r.value in cs && Value(r.value) == s
  {
    if cs == [] then None
    else if Value(cs[0]) == s then Some(cs[0])
    else Lookup(s, cs[1..])
  }

  lemma {:induction false} LookupMisses(s: string, cs: seq<Capability>)
    requires Lookup(s, cs).None?
    ensures forall c :: c in cs ==> Value(c) != s
  {
    if cs != [] {
      LookupMisses(s, cs[1..]);
    }
  }

  /** The enum member whose value is `s`, if any (a lookup by key in the
      tables, which are keyed by these values). */
  function Parse(s: string): (r: Option<Capability>)
    ensures r.Some? ==> Value(r.value) == s
  {
    Lookup(s, AllCapabilities)
  }

  /** A name is unknown exactly when it is no member's value. */
  lemma ParseMisses(s: string)
    ensures Parse(s).None? <==> forall c :: Value(c) != s
  {
    if Parse(s).None? {
      LookupMisses(s, AllCapabilities);
      EveryMemberListed();
    }
  }

  /** No two members share a value, so the tables have one key per member. */
  lemma ValuesDistinct()
    ensures forall i, j :: 0 <= i < j < |AllCapabilities| ==> Value(AllCapabilities[i]) != Value(AllCapabilities[j])
  {
  }

  /** Every member's value names that member. */
  lemma ParseValue(c: Capability)
    ensures Parse(Value(c)) == Some(c)
  {
    var r := Parse(Value(c));
    EveryMemberListed();
    if r.None? {
      LookupMisses(Value(c), AllCapabilities);
    } else {
      var i :| 0 <= i < |AllCapabilities| && AllCapabilities[i] == r.value;
      var j :| 0 <= j < |AllCapabilities| && AllCapabilities[j] == c;
      ValuesDistinct();
      assert i == j;
    }
  }

  /** The tools of the function-calling table. */
  datatype ToolId =
    | SearchCompanyDocuments
    | VerifyTransaction
    | Calculate
    | ProcessRefund
    | ValidateRefundRequest
    | ProcessOverpaymentRefund

  function ToolOf(t: ToolId): Tool {
    match t
    case SearchCompanyDocuments => Tool("search_company_documents",
      "Search through company PDF documents for specific information about products, policies, or procedures")
    case VerifyTransaction => Tool("verify_transaction",
      "Verify if a blockchain transaction matches the expected parameters for payment verification")
    case Calculate => Tool("calculate", "Perform mathematical calculations and evaluations safely")
    case ProcessRefund => Tool("process_refund", "Process a refund transaction to a user's wallet address")
    case ValidateRefundRequest => Tool("validate_refund_request",
      "Validate a refund request without processing the transaction")
    case ProcessOverpaymentRefund => Tool("process_overpayment_refund",
      "Process a refund for overpayment scenarios where user paid more than the expected amount")
  }

  /** `capability_tools_mapping`, per member: one tool for each of the first
      three capabilities, three for refunds, none for the support ones. */
  function Tools(c: Capability): seq<ToolId> {
    match c
    case DocumentReference => [SearchCompanyDocuments]
    case TransactionVerification => [VerifyTransaction]
    case Calculator => [Calculate]
    case RefundProcessing => [ProcessRefund, ValidateRefundRequest, ProcessOverpaymentRefund]
    case _ => []
  }

  /** `capability_descriptions`, per member. */
  function DescriptionOf(c: Capability): string {
    match c
    case DocumentReference => "Search and reference company documents, PDFs, and knowledge base"
    case TransactionVerification => "Verify blockchain transactions and payment confirmations"
    case Calculator => "Perform mathematical calculations and evaluations"
    case RefundProcessing => "Process refunds and validate refund requests with company-specific limits"
    case CustomerSupport => "Provide customer support and assistance"
    case ProductInformation => "Provide information about company products and services"
    case TechnicalSupport => "Provide technical support and troubleshooting"
    case BillingSupport => "Handle billing inquiries and payment questions"
    case GeneralInquiries => "Handle general questions and inquiries"
  }

  /** `capability_tools_mapping.get(capability)`. */
  function ToolsOf(capability: string): Option<seq<ToolId>> {
    match Parse(capability)
    case Some(c) => Some(Tools(c))
    case None => None
  }

  /** Looked up by its value, each capability brings its own tools: one
      for documents, transactions and the calculator, three for refunds, and
      none for the five support capabilities. */
  lemma ToolTable(c: Capability)
    ensures ToolsOf(Value(c)) == Some(Tools(c))
    ensures |Tools(c)| == (if c == RefundProcessing then 3 else if c in CodeCapabilities then 1 else 0)
  {
    ParseValue(c);
  }

  /** `get_capability_description`: `capability_descriptions.get(capability)`. */
  function Description(capability: string): (r: Option<string>)
    ensures r.Some? <==> ToolsOf(capability).Some?
  {
    match Parse(capability)
    case Some(c) => Some(DescriptionOf(c))
    case None => None
  }

  /** `get_available_capabilities`: `[cap.value for cap in CapabilityType]`. */
  function AvailableCapabilities(): (r: seq<string>)
    ensures |r| == |AllCapabilities| == 9
    ensures forall i :: 0 <= i < 9 ==> r[i] == Value(AllCapabilities[i])
  {
    seq(|AllCapabilities|, i requires 0 <= i < |AllCapabilities| => Value(AllCapabilities[i]))
  }

  /** A name is in the available list exactly when the tool table (and so
      the description table) has it. */
  lemma AvailableMatchesTables(s: string)
    ensures s in AvailableCapabilities() <==> ToolsOf(s).Some?
  {
    var r := AvailableCapabilities();
    if Parse(s).Some? {
      var c := Parse(s).value;
      assert c in AllCapabilities;
      var k :| 0 <= k < 9 && AllCapabilities[k] == c;
      assert r[k] == s;
    }
    if s in r {
      var k :| 0 <= k < 9 && r[k] == s;
      ParseMisses(s);
      assert Value(AllCapabilities[k]) == s;
    }
  }

  // ---------------------------------------------------------------------------
  // `get_tools_for_capabilities`

  /** The mapped tool lists of the requested capabilities, concatenated. */
  function ToolsFor(capabilities: seq<string>): seq<ToolId> {
    if capabilities == [] then []
    else ToolsOf(capabilities[0]).GetOr([]) + ToolsFor(capabilities[1..])
  }

  lemma {:induction false} ToolsForAppend(a: seq<string>, b: seq<string>)
    ensures ToolsFor(a + b) == ToolsFor(a) + ToolsFor(b)
  {
    if a != [] {
      assert (a + b)[0] == a[0];
      assert (a + b)[1..] == a[1..] + b;
      ToolsForAppend(a[1..], b);
    } else {
      assert a + b == b;
    }
  }

  method GetToolsForCapabilities(capabilities: seq<string>) returns (tools: seq<ToolId>)
    ensures tools == ToolsFor(capabilities)
  {
    tools := [];
    var i := 0;
    while i < |capabilities|
      invariant 0 <= i <= |capabilities|
      invariant tools == ToolsFor(capabilities[..i])
    {
      var capability := capabilities[i];
      if ToolsOf(capability).Some? {
        tools := tools + ToolsOf(capability).value;
      }
      ToolsForAppend(capabilities[..i], [capability]);
      assert capabilities[..i + 1] == capabilities[..i] + [capability];
      i := i + 1;
    }
    assert capabilities[..i] == capabilities;
  }

  lemma ToolsForSingle(c: string)
    ensures ToolsFor([c]) == ToolsOf(c).GetOr([])
  {
    assert [c][1..] == [];
  }

  /** A repeated name repeats its tools: the result for `a + [c] + b` is the
      result for `a`, then `c`'s tools, then the result for `b`. */
  lemma ToolsForOneMore(a: seq<string>, c: string, b: seq<string>)
    ensures ToolsFor(a + [c] + b) == ToolsFor(a) + ToolsOf(c).GetOr([]) + ToolsFor(b)
  {
    ToolsForAppend(a + [c], b);
    ToolsForAppend(a, [c]);
    ToolsForSingle(c);
  }

  /** An unknown name adds nothing. */
  lemma ToolsForSkipsUnknown(a: seq<string>, c: string, b: seq<string>)
    requires ToolsOf(c).None?
    ensures ToolsFor(a + [c] + b) == ToolsFor(a + b)
  {
    ToolsForOneMore(a, c, b);
    ToolsForAppend(a, b);
  }

  // ---------------------------------------------------------------------------
  // `validate_capabilities`

  /** `[cap for cap in capabilities if cap not in available]`. */
  function InvalidCapabilities(capabilities: seq<string>): (r: seq<string>)
    ensures |r| <= |capabilities|
    ensures forall c :: c in r <==> c in capabilities && c !in AvailableCapabilities()
  {
    if capabilities == [] then []
    else if capabilities[0] in AvailableCapabilities() then InvalidCapabilities(capabilities[1..])
    else [capabilities[0]] + InvalidCapabilities(capabilities[1..])
  }

  datatype Validation = Validation(valid: bool, invalidCapabilities: seq<string>, availableCapabilities: seq<string>)

  function ValidateCapabilities(capabilities: seq<string>): (r: Validation)
    ensures r.valid <==> forall c :: c in capabilities ==> c in AvailableCapabilities()
    ensures r.valid <==> r.invalidCapabilities == []
    ensures forall c :: c in r.invalidCapabilities <==> c in capabilities && c !in AvailableCapabilities()
    ensures r.availableCapabilities == AvailableCapabilities()
  {
    var invalid := InvalidCapabilities(capabilities);
    assert invalid != [] ==> invalid[0] in invalid;
    Validation(|invalid| == 0, invalid, AvailableCapabilities())
  }

  /** A requested name is reported invalid exactly when the tool table does
      not know it, and each invalid name is kept as often as it was requested,
      in request order. */
  lemma {:induction false} InvalidCapabilitiesExact(capabilities: seq<string>, c: string)
    ensures c in ValidateCapabilities(capabilities).invalidCapabilities <==> c in capabilities && ToolsOf(c).None?
    ensures ToolsOf(c).None? ==>
              multiset(ValidateCapabilities(capabilities).invalidCapabilities)[c] == multiset(capabilities)[c]
  {
    AvailableMatchesTables(c);
    if ToolsOf(c).None? {
      InvalidKeepsDuplicates(capabilities, c);
    }
  }

  lemma {:induction false} InvalidKeepsDuplicates(capabilities: seq<string>, c: string)
    requires c !in AvailableCapabilities()
    ensures multiset(InvalidCapabilities(capabilities))[c] == multiset(capabilities)[c]
  {
    if capabilities != [] {
      InvalidKeepsDuplicates(capabilities[1..], c);
      assert capabilities == [capabilities[0]] + capabilities[1..];
    }
  }

  // ---------------------------------------------------------------------------
  // The variable parts of `get_system_prompt_for_capabilities`

  /** One "- {desc}" line per looked-up description that is present and
      non-empty, in order. */
  function DescriptionLines(descriptions: seq<Option<string>>): (lines: seq<string>)
    ensures |lines| <= |descriptions|
  {
    if descriptions == [] then []
    else
      (var d := descriptions[0]; if d.Some? && d.value != "" then ["- " + d.value] else [])
      + DescriptionLines(descriptions[1..])
  }

  lemma {:induction false} DescriptionLinesAppend(a: seq<Option<string>>, b: seq<Option<string>>)
    ensures DescriptionLines(a + b) == DescriptionLines(a) + DescriptionLines(b)
  {
    if a != [] {
      assert (a + b)[0] == a[0];
      assert (a + b)[1..] == a[1..] + b;
      DescriptionLinesAppend(a[1..], b);
    } else {
      assert a + b == b;
    }
  }

  lemma DescriptionLinesSnoc(descriptions: seq<Option<string>>, d: Option<string>)
    ensures DescriptionLines(descriptions + [d])
              == DescriptionLines(descriptions) + if d.Some? && d.value != "" then ["- " + d.value] else []
  {
    DescriptionLinesAppend(descriptions, [d]);
    assert [d][1..] == [];
  }

  /** `get_capability_description` of each requested capability. */
  function Descriptions(capabilities: seq<string>): (r: seq<Option<string>>)
    ensures |r| == |capabilities|
  {
    seq(|capabilities|, i requires 0 <= i < |capabilities| => Description(capabilities[i]))
  }

  /** The capability lines of the system prompt. */
  function CapabilityLinesSpec(capabilities: seq<string>): (lines: seq<string>)
    ensures |lines| <= |capabilities|
  {
    DescriptionLines(Descriptions(capabilities))
  }

  /** The loop that fills `capability_descriptions`, over the looked-up
      descriptions. */
  method DescriptionLinesOf(descriptions: seq<Option<string>>) returns (lines: seq<string>)
    ensures lines == DescriptionLines(descriptions)
  {
    lines := [];
    var i := 0;
    while i < |descriptions|
      invariant 0 <= i <= |descriptions|
      invariant lines == DescriptionLines(descriptions[..i])
    {
      var desc := descriptions[i];
      assert descriptions[..i + 1] == descriptions[..i] + [desc];
      DescriptionLinesSnoc(descriptions[..i], desc);
      if desc.Some? && desc.value != "" {
        lines := lines + ["- " + desc.value];
      }
      i := i + 1;
    }
    assert descriptions[..i] == descriptions;
  }

  /** The capability lines of the prompt: each capability's description is
      looked up, and the present, non-empty ones become lines. */
  method CapabilityLines(capabilities: seq<string>) returns (lines: seq<string>)
    ensures lines == CapabilityLinesSpec(capabilities)
  {
    lines := DescriptionLinesOf(Descriptions(capabilities));
  }

  /** Every capability description is non-empty (shown a few table rows at a
      time: each literal's length costs the solver work in proportion to it). */
  lemma ToolDescriptionsNonEmpty()
    ensures |DescriptionOf(DocumentReference)| > 0 && |DescriptionOf(TransactionVerification)| > 0
  {
  }

  lemma RefundDescriptionsNonEmpty()
    ensures |DescriptionOf(Calculator)| > 0 && |DescriptionOf(RefundProcessing)| > 0
  {
  }

  lemma SupportDescriptionsNonEmpty()
    ensures |DescriptionOf(CustomerSupport)| > 0 && |DescriptionOf(ProductInformation)| > 0
    ensures |DescriptionOf(TechnicalSupport)| > 0
  {
  }

  lemma InquiryDescriptionsNonEmpty()
    ensures |DescriptionOf(BillingSupport)| > 0 && |DescriptionOf(GeneralInquiries)| > 0
  {
  }

  lemma DescriptionNonEmpty(c: Capability)
    ensures |DescriptionOf(c)| > 0
  {
    match c
    case DocumentReference | TransactionVerification => ToolDescriptionsNonEmpty();
    case Calculator | RefundProcessing => RefundDescriptionsNonEmpty();
    case CustomerSupport | ProductInformation | TechnicalSupport => SupportDescriptionsNonEmpty();
    case BillingSupport | GeneralInquiries => InquiryDescriptionsNonEmpty();
  }

  lemma {:induction false} DescriptionLinesAbsent(descriptions: seq<Option<string>>)
    requires forall i :: 0 <= i < |descriptions| ==> descriptions[i].None?
    ensures DescriptionLines(descriptions) == []
  {
    if descriptions != [] {
      DescriptionLinesAbsent(descriptions[1..]);
    }
  }

  lemma {:induction false} DescriptionLinesPresent(descriptions: seq<Option<string>>)
    requires forall i :: 0 <= i < |descriptions| ==> descriptions[i].Some? && descriptions[i].value != ""
    ensures |DescriptionLines(descriptions)| == |descriptions|
    ensures forall i :: 0 <= i < |descriptions| ==> DescriptionLines(descriptions)[i] == "- " + descriptions[i].value
  {
    if descriptions != [] {
      DescriptionLinesPresent(descriptions[1..]);
    }
  }

  /** Exactly the known capabilities contribute a line, in request order. */
  lemma CapabilityLinesKnownOnly(capabilities: seq<string>)
    ensures (forall c :: c in capabilities ==> Parse(c).None?) ==> CapabilityLinesSpec(capabilities) == []
    ensures (forall c :: c in capabilities ==> Parse(c).Some?) ==>
              && |CapabilityLinesSpec(capabilities)| == |capabilities|
              && forall i :: 0 <= i < |capabilities| ==>
                   CapabilityLinesSpec(capabilities)[i] == "- " + DescriptionOf(Parse(capabilities[i]).value)
  {
    var ds := Descriptions(capabilities);
    if forall c :: c in capabilities ==> Parse(c).None? {
      forall i | 0 <= i < |ds| ensures ds[i].None? {
        assert capabilities[i] in capabilities;
      }
      DescriptionLinesAbsent(ds);
    }
    if forall c :: c in capabilities ==> Parse(c).Some? {
      forall i | 0 <= i < |ds|
        ensures ds[i] == Some(DescriptionOf(Parse(capabilities[i]).value)) && ds[i].value != ""
      {
        assert capabilities[i] in capabilities;
        DescriptionNonEmpty(Parse(capabilities[i]).value);
      }
      DescriptionLinesPresent(ds);
    }
  }

  /** The tool schemas `get_tools_for_capabilities` returns. */
  function ToolSchemas(capabilities: seq<string>): (r: seq<Tool>)
    ensures |r| == |ToolsFor(capabilities)|
  {
    var ids := ToolsFor(capabilities);
    seq(|ids|, i requires 0 <= i < |ids| => ToolOf(ids[i]))
  }

  /** One "- {name}: {description}" line per tool. */
  function ToolLine(t: Tool): (line: string)
    ensures StartsWith(line, "- ")
  {
    "- " + t.name + ": " + t.description
  }

  method ToolLines(tools: seq<Tool>) returns (lines: seq<string>)
    ensures |lines| == |tools|
    ensures forall i :: 0 <= i < |lines| ==> lines[i] == ToolLine(tools[i])
  {
    lines := [];
    var i := 0;
    while i < |tools|
      invariant 0 <= i <= |tools|
      invariant |lines| == i
      invariant forall k :: 0 <= k < i ==> lines[k] == ToolLine(tools[k])
    {
      lines := lines + [ToolLine(tools[i])];
      i := i + 1;
    }
  }

  /** `', '.join(items) if items else default`. */
  function JoinOrDefault(items: Option<seq<string>>, default: string): (r: string)
    ensures items.None? || items.value == [] ==> r == default
    ensures items.Some? && |items.value| == 1 ==> r == items.value[0]
  {
    if items.Some? && items.value != [] then Join(items.value, ", ") else default
  }

  function SupportCategories(categories: Option<seq<string>>): string {
    JoinOrDefault(categories, "general, technical, billing")
  }

  function CompanyProducts(products: Option<seq<string>>): string {
    JoinOrDefault(products, "products and services")
  }

  // ---------------------------------------------------------------------------
  // `get_tool_imports_for_capabilities` and `get_tool_functions_for_capabilities`

  /** The four capabilities that bring generated code, in their fixed order. */
  const CodeCapabilities: seq<Capability> := [DocumentReference, TransactionVerification, Calculator, RefundProcessing]

  function ImportFor(c: Capability): string {
    match c
    case DocumentReference => "from tools.pdf_reader import PDFReader"
    case TransactionVerification =>
      "from tools.transaction_verifier import verify_transaction, get_transaction_verification_schema"
    case Calculator => "import math"
    case RefundProcessing =>
      "from tools.refund_processor import create_refund_processor, process_refund, validate_refund_request, process_overpayment_refund"
    case _ => ""
  }

  /** The code capabilities whose value is in the request, in the fixed order. */
  function SelectedCodeCapabilities(capabilities: seq<string>): (r: seq<Capability>)
    ensures forall c :: c in r <==> c in CodeCapabilities && Value(c) in capabilities
    ensures forall i, j :: 0 <= i < j < |r| ==> r[i] != r[j]
    ensures |r| <= 4
  {
    (if Value(DocumentReference) in capabilities then [DocumentReference] else [])
    + (if Value(TransactionVerification) in capabilities then [TransactionVerification] else [])
    + (if Value(Calculator) in capabilities then [Calculator] else [])
    + (if Value(RefundProcessing) in capabilities then [RefundProcessing] else [])
  }

  /** `get_tool_imports_for_capabilities`. */
  function ToolImports(capabilities: seq<string>): (r: seq<string>)
    ensures |r| == |SelectedCodeCapabilities(capabilities)|
  {
    var selected := SelectedCodeCapabilities(capabilities);
    seq(|selected|, i requires 0 <= i < |selected| => ImportFor(selected[i]))
  }

  /** Which function templates `get_tool_functions_for_capabilities` joins
      with "\n\n", in order (the template texts are not part of the model). */
  function ToolFunctionTemplates(capabilities: seq<string>): (r: seq<Capability>)
    ensures |r| == |ToolImports(capabilities)|
  {
    SelectedCodeCapabilities(capabilities)
  }

  /** Imports and function templates depend only on which capabilities are
      requested, not on their order or repetition, and there is at most one
      per code capability. */
  lemma SelectionIgnoresOrder(a: seq<string>, b: seq<string>)
    requires forall c :: c in a <==> c in b
    ensures ToolImports(a) == ToolImports(b)
    ensures ToolFunctionTemplates(a) == ToolFunctionTemplates(b)
    ensures |ToolImports(a)| <= 4
  {
  }

  /** Requesting every code capability, in any order, yields all four imports
      in the order document, transaction, calculator, refund. */
  lemma AllCodeCapabilitiesSelected(capabilities: seq<string>)
    requires forall c :: c in CodeCapabilities ==> Value(c) in capabilities
    ensures SelectedCodeCapabilities(capabilities) == CodeCapabilities
  {
    assert CodeCapabilities[0] == DocumentReference && Value(DocumentReference) in capabilities;
    assert CodeCapabilities[1] == TransactionVerification && Value(TransactionVerification) in capabilities;
    assert CodeCapabilities[2] == Calculator && Value(Calculator) in capabilities;
    assert CodeCapabilities[3] == RefundProcessing && Value(RefundProcessing) in capabilities;
  }
}
