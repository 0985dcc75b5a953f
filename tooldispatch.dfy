/**
 * Tool dispatch of server.ts: `routeToolCall` maps a tool name to one
 * method of one of the seven tools objects, and the CallTool handler turns
 * anything thrown into an ordinary text result.
 */
module ToolDispatch {
  import opened Wrappers
  import opened JsonValue

  /** The tools objects the server holds, one per group of the Companies House API. */
  datatype Group = CompanyTools | SearchTools | OfficerTools | FilingTools | ChargeTools | OwnershipTools | DocumentTools

  /** A handler: the method `operation` of the tools object of `group`. */
  datatype Handler = Handler(group: Group, operation: string)

  /**
   * The if-chain of `routeToolCall`, in its order: each tool name with the
   * method of the tools object it calls.
   */
  const Dispatch: seq<(string, Handler)> := [
    // Company information
    ("search_companies", Handler(CompanyTools, "search")),
    ("get_company_profile", Handler(CompanyTools, "getProfile")),
    ("get_registered_office_address", Handler(CompanyTools, "getAddress")),
    ("get_registers", Handler(CompanyTools, "getRegisters")),
    ("get_insolvency", Handler(CompanyTools, "getInsolvency")),
    ("get_exemptions", Handler(CompanyTools, "getExemptions")),
    ("get_uk_establishments", Handler(CompanyTools, "getEstablishments")),
    // Search operations
    ("advanced_company_search", Handler(SearchTools, "advancedSearch")),
    ("search_all", Handler(SearchTools, "searchAll")),
    ("search_officers", Handler(SearchTools, "searchOfficers")),
    ("search_disqualified_officers", Handler(SearchTools, "searchDisqualified")),
    ("alphabetical_search", Handler(SearchTools, "alphabeticalSearch")),
    ("dissolved_search", Handler(SearchTools, "dissolvedSearch")),
    // Officer operations
    ("get_officers", Handler(OfficerTools, "list")),
    ("get_officer_appointment", Handler(OfficerTools, "getAppointment")),
    ("get_officer_appointments_list", Handler(OfficerTools, "listAppointments")),
    ("get_corporate_officer_disqualification", Handler(OfficerTools, "getCorporateDisqualification")),
    ("get_natural_officer_disqualification", Handler(OfficerTools, "getNaturalDisqualification")),
    // Filing history
    ("get_filing_history", Handler(FilingTools, "list")),
    ("get_filing_history_item", Handler(FilingTools, "getItem")),
    // Charges
    ("get_charges", Handler(ChargeTools, "list")),
    ("get_charge_details", Handler(ChargeTools, "getDetails")),
    // Persons with significant control
    ("get_persons_with_significant_control", Handler(OwnershipTools, "listPSC")),
    ("get_psc_individual", Handler(OwnershipTools, "getIndividual")),
    ("get_psc_individual_beneficial_owner", Handler(OwnershipTools, "getIndividualBeneficialOwner")),
    ("get_psc_individual_verification", Handler(OwnershipTools, "getIndividualVerification")),
    ("get_psc_individual_full_record", Handler(OwnershipTools, "getIndividualFullRecord")),
    ("get_psc_corporate_entity", Handler(OwnershipTools, "getCorporateEntity")),
    ("get_psc_corporate_entity_beneficial_owner", Handler(OwnershipTools, "getCorporateBeneficialOwner")),
    ("get_psc_legal_person", Handler(OwnershipTools, "getLegalPerson")),
    ("get_psc_legal_person_beneficial_owner", Handler(OwnershipTools, "getLegalPersonBeneficialOwner")),
    ("get_psc_statement", Handler(OwnershipTools, "getStatement")),
    ("get_psc_statements_list", Handler(OwnershipTools, "listStatements")),
    ("get_psc_super_secure", Handler(OwnershipTools, "getSuperSecure")),
    ("get_psc_super_secure_beneficial_owner", Handler(OwnershipTools, "getSuperSecureBeneficialOwner")),
    // Documents
    ("get_document_metadata", Handler(DocumentTools, "getMetadata")),
    ("get_document_content", Handler(DocumentTools, "getContent"))
  ]

  /** The 37 names the chain compares against, in its order. */
  const ToolNames: seq<string> := [
    "search_companies", "get_company_profile", "get_registered_office_address",
    "get_registers", "get_insolvency", "get_exemptions",
    "get_uk_establishments", "advanced_company_search", "search_all",
    "search_officers", "search_disqualified_officers", "alphabetical_search",
    "dissolved_search", "get_officers", "get_officer_appointment",
    "get_officer_appointments_list", "get_corporate_officer_disqualification", "get_natural_officer_disqualification",
    "get_filing_history", "get_filing_history_item", "get_charges",
    "get_charge_details", "get_persons_with_significant_control", "get_psc_individual",
    "get_psc_individual_beneficial_owner", "get_psc_individual_verification", "get_psc_individual_full_record",
    "get_psc_corporate_entity", "get_psc_corporate_entity_beneficial_owner", "get_psc_legal_person",
    "get_psc_legal_person_beneficial_owner", "get_psc_statement", "get_psc_statements_list",
    "get_psc_super_secure", "get_psc_super_secure_beneficial_owner", "get_document_metadata",
    "get_document_content"]

  /** The chain of comparisons with early return: the handler of the first entry named `toolName`. */
  function FirstMatch(table: seq<(string, Handler)>, toolName: string): Option<Handler> {
    if table == [] then None
    else if table[0].0 == toolName then Some(table[0].1)
    else FirstMatch(table[1..], toolName)
  }

  /** `routeToolCall`'s choice of handler; None where it throws "Unknown tool". */
  function RouteToolCall(toolName: string): Option<Handler> {
    FirstMatch(Dispatch, toolName)
  }

  /** No name occurs twice in a table. */
  ghost predicate DistinctNames(table: seq<(string, Handler)>) {
    forall i, j | 0 <= i < j < |table| :: table[i].0 != table[j].0
  }

  /** A lookup succeeds exactly for the names of the table, and finds an entry of the table. */
  lemma {:induction false} FirstMatchFound(table: seq<(string, Handler)>, toolName: string)
    ensures FirstMatch(table, toolName).Some? <==> exists i | 0 <= i < |table| :: table[i].0 == toolName
    ensures FirstMatch(table, toolName).Some? ==>
            exists i | 0 <= i < |table| :: table[i] == (toolName, FirstMatch(table, toolName).value)
  {
    if table != [] && table[0].0 != toolName {
      FirstMatchFound(table[1..], toolName);
      if exists i | 0 <= i < |table| :: table[i].0 == toolName {
        var i :| 0 <= i < |table| && table[i].0 == toolName;
        assert table[1..][i - 1] == table[i];
      }
      if FirstMatch(table, toolName).Some? {
        var i :| 0 <= i < |table[1..]| && table[1..][i] == (toolName, FirstMatch(table, toolName).value);
        assert table[i + 1] == table[1..][i];
      }
    }
  }

  /** With distinct names the first match is the unique match: entry i is found under its own name. */
  lemma {:induction false} FirstMatchIsUnique(table: seq<(string, Handler)>, i: nat)
    requires DistinctNames(table) && i < |table|
    ensures FirstMatch(table, table[i].0) == Some(table[i].1)
  {
    if i > 0 {
      assert table[0].0 != table[i].0;
      assert table[1..][i - 1] == table[i];
      FirstMatchIsUnique(table[1..], i - 1);
    }
  }

  /** The chain's names are the 37 names, in order. */
  lemma DispatchNames()
    ensures |Dispatch| == |ToolNames| == 37
    ensures forall i | 0 <= i < |Dispatch| :: Dispatch[i].0 == ToolNames[i]
  {
  }

  /** The 37 names are pairwise distinct. */
  lemma ToolNamesDistinct()
    ensures forall i, j | 0 <= i < j < |ToolNames| :: ToolNames[i] != ToolNames[j]
  {
  }

  /**
   * The inverse of the chain, grouped by tools object: the tool name each
   * method of each tools object is reached by.
   */
  function ToolNameOf(h: Handler): Option<string> {
    match h.group
    case CompanyTools =>
      if h.operation == "search" then Some("search_companies")
      else if h.operation == "getProfile" then Some("get_company_profile")
      else if h.operation == "getAddress" then Some("get_registered_office_address")
      else if h.operation == "getRegisters" then Some("get_registers")
      else if h.operation == "getInsolvency" then Some("get_insolvency")
      else if h.operation == "getExemptions" then Some("get_exemptions")
      else if h.operation == "getEstablishments" then Some("get_uk_establishments")
      else None
    case SearchTools =>
      if h.operation == "advancedSearch" then Some("advanced_company_search")
      else if h.operation == "searchAll" then Some("search_all")
      else if h.operation == "searchOfficers" then Some("search_officers")
      else if h.operation == "searchDisqualified" then Some("search_disqualified_officers")
      else if h.operation == "alphabeticalSearch" then Some("alphabetical_search")
      else if h.operation == "dissolvedSearch" then Some("dissolved_search")
      else None
    case OfficerTools =>
      if h.operation == "list" then Some("get_officers")
      else if h.operation == "getAppointment" then Some("get_officer_appointment")
      else if h.operation == "listAppointments" then Some("get_officer_appointments_list")
      else if h.operation == "getCorporateDisqualification" then Some("get_corporate_officer_disqualification")
      else if h.operation == "getNaturalDisqualification" then Some("get_natural_officer_disqualification")
      else None
    case FilingTools =>
      if h.operation == "list" then Some("get_filing_history")
      else if h.operation == "getItem" then Some("get_filing_history_item")
      else None
    case ChargeTools =>
      if h.operation == "list" then Some("get_charges")
      else if h.operation == "getDetails" then Some("get_charge_details")
      else None
    case OwnershipTools =>
      if h.operation == "listPSC" then Some("get_persons_with_significant_control")
      else if h.operation == "getIndividual" then Some("get_psc_individual")
      else if h.operation == "getIndividualBeneficialOwner" then Some("get_psc_individual_beneficial_owner")
      else if h.operation == "getIndividualVerification" then Some("get_psc_individual_verification")
      else if h.operation == "getIndividualFullRecord" then Some("get_psc_individual_full_record")
      else if h.operation == "getCorporateEntity" then Some("get_psc_corporate_entity")
      else if h.operation == "getCorporateBeneficialOwner" then Some("get_psc_corporate_entity_beneficial_owner")
      else if h.operation == "getLegalPerson" then Some("get_psc_legal_person")
      else if h.operation == "getLegalPersonBeneficialOwner" then Some("get_psc_legal_person_beneficial_owner")
      else if h.operation == "getStatement" then Some("get_psc_statement")
      else if h.operation == "listStatements" then Some("get_psc_statements_list")
      else if h.operation == "getSuperSecure" then Some("get_psc_super_secure")
      else if h.operation == "getSuperSecureBeneficialOwner" then Some("get_psc_super_secure_beneficial_owner")
      else None
    case DocumentTools =>
      if h.operation == "getMetadata" then Some("get_document_metadata")
      else if h.operation == "getContent" then Some("get_document_content")
      else None
  }

  /** Each entry of the chain is the inverse table read backwards. */
  lemma DispatchInverse()
    ensures forall i | 0 <= i < |Dispatch| :: ToolNameOf(Dispatch[i].1) == Some(Dispatch[i].0)
  {
  }

  /** The chain compares against 37 distinct names. */
  lemma DispatchDistinct()
    ensures DistinctNames(Dispatch)
  {
    DispatchNames();
    ToolNamesDistinct();
  }

  /** A name is routed exactly when it is one of the 37 names. */
  lemma KnownNamesRoute(toolName: string)
    ensures RouteToolCall(toolName).Some? <==> toolName in ToolNames
  {
    FirstMatchFound(Dispatch, toolName);
    DispatchNames();
  }

  /** Each of the 37 names reaches the handler listed with it, and only that one. */
  lemma EveryNameRoutes(i: nat)
    requires i < |Dispatch|
    ensures RouteToolCall(Dispatch[i].0) == Some(Dispatch[i].1)
  {
    DispatchDistinct();
    FirstMatchIsUnique(Dispatch, i);
  }

  /** Routing and the inverse table agree: the handler a name reaches answers to that name. */
  lemma RouteRoundTrip(toolName: string)
    requires RouteToolCall(toolName).Some?
    ensures ToolNameOf(RouteToolCall(toolName).value) == Some(toolName)
  {
    FirstMatchFound(Dispatch, toolName);
    DispatchInverse();
  }

  /** A listed name reaches the handler listed with it, whichever entry is looked at. */
  lemma ListedNameRoutes(toolName: string)
    ensures forall i | 0 <= i < |Dispatch| && Dispatch[i].0 == toolName :: RouteToolCall(toolName) == Some(Dispatch[i].1)
  {
    forall i | 0 <= i < |Dispatch| && Dispatch[i].0 == toolName
      ensures RouteToolCall(toolName) == Some(Dispatch[i].1)
    {
      EveryNameRoutes(i);
    }
  }

  /** Each handler is reached by one name only. */
  lemma RouteInjective(a: string, b: string)
    requires RouteToolCall(a).Some? && RouteToolCall(a) == RouteToolCall(b)
    ensures a == b
  {
    RouteRoundTrip(a);
    RouteRoundTrip(b);
  }
  
  // ---------------------------------------------------------------------
  // The CallTool handler.
  // ---------------------------------------------------------------------

  /** One item of a tool result's `content`. */
  datatype Content = Text(text: string)

  /** A CallTool result; what a handler returns is passed on as it is. */
  datatype CallToolResult = CallToolResult(content: seq<Content>)

  /** What a `throw` carries: an `Error` object with its message, or any other value. */
  datatype Thrown = ErrorObject(message: string) | OtherValue(value: Json)

  /** How a handler call ends. */
  datatype Completion = Returned(result: CallToolResult) | Threw(thrown: Thrown)

  /**
   * `routeToolCall(name, args)`: the chosen handler runs on the arguments;
   * an unknown name throws. The tools objects themselves are the parameter
   * `run`, which this model does not look into.
   */
  function RouteAndRun(toolName: string, args: Json, run: (Handler, Json) -> Completion): (c: Completion)
    ensures toolName !in ToolNames ==> c == Threw(ErrorObject("Unknown tool: " + toolName))
    ensures forall i | 0 <= i < |Dispatch| && Dispatch[i].0 == toolName :: c == run(Dispatch[i].1, args)
  {
    KnownNamesRoute(toolName);
    ListedNameRoutes(toolName);
    match RouteToolCall(toolName)
    case None => Threw(ErrorObject("Unknown tool: " + toolName))
    case Some(h) => run(h, args)
  }

  /** The text result a caught error becomes: one text item, "Error: " followed by the message. */
  function ErrorResult(message: string): (r: CallToolResult)
    ensures |r.content| == 1 && "Error: " <= r.content[0].text && r.content[0].text[7..] == message
  {
    CallToolResult([Text("Error: " + message)])
  }

  /** The CallTool request handler: nothing thrown escapes, it becomes a text result. */
  function CallTool(toolName: string, args: Json, run: (Handler, Json) -> Completion): (r: CallToolResult)
    ensures RouteAndRun(toolName, args, run).Returned? ==> r == RouteAndRun(toolName, args, run).result
    ensures RouteAndRun(toolName, args, run).Threw? ==> |r.content| == 1 && "Error: " <= r.content[0].text
  {
    match RouteAndRun(toolName, args, run)
    case Returned(result) => result
    case Threw(ErrorObject(message)) => ErrorResult(message)
    case Threw(OtherValue(_)) => ErrorResult("An unexpected error occurred")
  }

  /** An unknown name yields the text "Error: Unknown tool: <name>", whatever the arguments. */
  lemma UnknownToolIsTextResult(toolName: string, args: Json, run: (Handler, Json) -> Completion)
    requires toolName !in ToolNames
    ensures CallTool(toolName, args, run) == ErrorResult("Unknown tool: " + toolName)
  {
    KnownNamesRoute(toolName);
  }

  /** A thrown `Error` becomes a single text item carrying its message. */
  lemma ThrownErrorIsTextResult(toolName: string, args: Json, run: (Handler, Json) -> Completion, message: string)
    requires RouteToolCall(toolName).Some?
    requires run(RouteToolCall(toolName).value, args) == Threw(ErrorObject(message))
    ensures CallTool(toolName, args, run) == ErrorResult(message)
  {
  }

  /** Anything thrown that is not an `Error` yields the generic message. */
  lemma ThrownValueIsGenericText(toolName: string, args: Json, run: (Handler, Json) -> Completion, value: Json)
    requires RouteToolCall(toolName).Some?
    requires run(RouteToolCall(toolName).value, args) == Threw(OtherValue(value))
    ensures CallTool(toolName, args, run) == ErrorResult("An unexpected error occurred")
  {
  }

  /** A handler's own result is returned unchanged. */
  lemma SuccessPassesThrough(toolName: string, args: Json, run: (Handler, Json) -> Completion)
    requires RouteToolCall(toolName).Some?
    requires run(RouteToolCall(toolName).value, args).Returned?
    ensures CallTool(toolName, args, run) == run(RouteToolCall(toolName).value, args).result
  {
  }

  /** A tool definition as ListTools publishes it; its schema is kept abstract. */
  datatype ToolDefinition = ToolDefinition(name: string, description: string, inputSchema: Json)

  /** The ListTools request handler: the definitions, whatever the request. */
  function ListTools(request: Json, definitions: seq<ToolDefinition>): seq<ToolDefinition> {
    definitions
  }

  /** ListTools does not depend on its request. */
  lemma ListToolsIgnoresRequest(r1: Json, r2: Json, definitions: seq<ToolDefinition>)
    ensures ListTools(r1, definitions) == ListTools(r2, definitions) == definitions
  {
  }
}
