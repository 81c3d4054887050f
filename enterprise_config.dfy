/** The enterprise configuration types, their closed enumerations, and the
    per-industry template table `INDUSTRY_TEMPLATES`. */
module EnterpriseConfig {
  import opened JsValues
  import Text

  // ---------------------------------------------------------------------
  // Closed enumerations of the type definitions, each with the string
  // literal that stands for it in a configuration file.
  // ---------------------------------------------------------------------

  /** `APIEndpoint.method`. */
  datatype HttpMethod = Get | Post | Put | Delete {
    function Literal(): string {
      match this
      case Get => "GET"
      case Post => "POST"
      case Put => "PUT"
      case Delete => "DELETE"
    }
  }

  /** `APIParameter.type`. */
  datatype ParamType = StringParam | NumberParam | BooleanParam | DateParam | ArrayParam {
    function Literal(): string {
      match this
      case StringParam => "string"
      case NumberParam => "number"
      case BooleanParam => "boolean"
      case DateParam => "date"
      case ArrayParam => "array"
    }
  }

  /** `APIConfig.authentication.type`. */
  datatype AuthType = ApiKey | OAuth | Basic | Bearer {
    function Literal(): string {
      match this
      case ApiKey => "api_key"
      case OAuth => "oauth"
      case Basic => "basic"
      case Bearer => "bearer"
    }
  }

  /** `VoiceAgentConfig.personality.tone`. */
  datatype Tone = Professional | Friendly | Casual | Formal {
    function Literal(): string {
      match this
      case Professional => "professional"
      case Friendly => "friendly"
      case Casual => "casual"
      case Formal => "formal"
    }
  }

  /** `VoiceAgentConfig.personality.responseStyle`. */
  datatype ResponseStyle = Concise | Detailed | Conversational {
    function Literal(): string {
      match this
      case Concise => "concise"
      case Detailed => "detailed"
      case Conversational => "conversational"
    }
  }

  /** `ToolConfig.type`. */
  datatype ToolType = ApiTool | KnowledgeBaseTool | CustomTool {
    function Literal(): string {
      match this
      case ApiTool => "api"
      case KnowledgeBaseTool => "knowledge_base"
      case CustomTool => "custom"
    }
  }

  /** Reading an HTTP method from its literal: exactly the four literals are
      accepted, each as the method it names. */
  function ParseHttpMethod(s: string): (m: Option<HttpMethod>)
    ensures m.Some? <==> s in {"GET", "POST", "PUT", "DELETE"}
    ensures m.Some? ==> m.value.Literal() == s
  {
    if s == "GET" then Some(Get)
    else if s == "POST" then Some(Post)
    else if s == "PUT" then Some(Put)
    else if s == "DELETE" then Some(Delete)
    else None
  }

  /** Reading a tone from its literal. */
  function ParseTone(s: string): (t: Option<Tone>)
    ensures t.Some? <==> s in {"professional", "friendly", "casual", "formal"}
    ensures t.Some? ==> t.value.Literal() == s
  {
    if s == "professional" then Some(Professional)
    else if s == "friendly" then Some(Friendly)
    else if s == "casual" then Some(Casual)
    else if s == "formal" then Some(Formal)
    else None
  }

  /** Reading a response style from its literal. */
  function ParseResponseStyle(s: string): (r: Option<ResponseStyle>)
    ensures r.Some? <==> s in {"concise", "detailed", "conversational"}
    ensures r.Some? ==> r.value.Literal() == s
  {
    if s == "concise" then Some(Concise)
    else if s == "detailed" then Some(Detailed)
    else if s == "conversational" then Some(Conversational)
    else None
  }

  // ---------------------------------------------------------------------
  // The configuration. Properties that a configuration read from a file may
  // lack, and that some operation reads, are Options; `undefined` is None.
  // ---------------------------------------------------------------------

  datatype ContactInfo = ContactInfo(
    phone: Option<string>,
    email: Option<string>,
    whatsapp: Option<string>,
    chat: Option<string>)

  /** The SIP block `createConfig` adds when SIP is enabled. */
  datatype SipConfig = SipConfig(
    enabled: bool,
    phoneNumber: Option<string>,
    sipProvider: Option<string>,
    sipUri: string,
    webhookUrl: string,
    projectId: string,
    instructions: Option<string>,
    voice: Option<string>)

  datatype EnterpriseInfo = EnterpriseInfo(
    name: Option<string>,
    industry: Option<string>,
    description: Option<string>,
    headquarters: Option<string>,
    website: Option<string>,
    supportHours: Option<string>,
    languages: Option<seq<string>>,
    contactInfo: Option<ContactInfo>,
    sipConfig: Option<SipConfig>)

  datatype ApiParameter = ApiParameter(
    name: string,
    paramType: ParamType,
    required: bool,
    description: string,
    example: Option<string>)

  datatype ApiEndpoint = ApiEndpoint(
    name: string,
    path: string,
    httpMethod: HttpMethod,
    description: string,
    parameters: seq<ApiParameter>,
    responseFormat: string,
    voiceResponseTemplate: Option<string>)

  datatype Authentication = Authentication(
    authType: AuthType,
    header: Option<string>,
    parameter: Option<string>)

  datatype ApiConfig = ApiConfig(
    name: string,
    description: string,
    baseUrl: Option<string>,
    endpoints: seq<ApiEndpoint>,
    authentication: Option<Authentication>)

  datatype DocumentChunk = DocumentChunk(
    id: string,
    title: string,
    content: string,
    category: string,
    tags: seq<string>)

  /** `similarityThreshold` is a JavaScript number that is only stored and
      copied, never computed with. */
  datatype SearchConfig = SearchConfig(maxResults: int, similarityThreshold: real)

  datatype KnowledgeBase = KnowledgeBase(
    name: string,
    description: string,
    documents: Option<seq<DocumentChunk>>,
    categories: Option<seq<string>>,
    searchConfig: SearchConfig)

  datatype Personality = Personality(tone: Tone, language: string, responseStyle: ResponseStyle)

  datatype VoiceAgent = VoiceAgent(
    name: string,
    instructions: string,
    personality: Personality,
    capabilities: Option<seq<string>>,
    fallbackMessage: string)

  datatype ToolConfig = ToolConfig(name: string, description: string, toolType: ToolType, enabled: bool)

  /** `EnterpriseVoiceAgentConfig`. */
  datatype Config = Config(
    enterprise: Option<EnterpriseInfo>,
    apis: Option<seq<ApiConfig>>,
    knowledgeBase: Option<KnowledgeBase>,
    voiceAgent: Option<VoiceAgent>,
    tools: Option<seq<ToolConfig>>)

  /** What reading a configuration file and `JSON.parse` produce together:
      either one of them threw (with that error's message), or the file held
      a value, None being the JSON literal `null`. */
  datatype ParseResult = Rejected(message: string) | Parsed(value: Option<Config>)

  // ---------------------------------------------------------------------
  // INDUSTRY_TEMPLATES
  // ---------------------------------------------------------------------

  datatype Template = Template(
    industry: string,
    capabilities: seq<string>,
    defaultApis: Option<seq<ApiConfig>>)

  const AirlineCapabilities: seq<string> := [
    "Flight booking and reservations",
    "Baggage policies and allowances",
    "Check-in and boarding procedures",
    "Ticket changes and cancellations",
    "Loyalty program information",
    "Special assistance services",
    "Flight status and delays",
    "Refunds and compensation"
  ]

  const AirlineTemplate := Template(
    "Airline",
    AirlineCapabilities,
    Some([FlightStatusApi]))

  const FlightStatusApi := ApiConfig(
    "Flight Status API",
    "Real-time flight information and status updates",
    None,
    [ ApiEndpoint(
        "get_flight_status",
        "/flights/status",
        Get,
        "Get flight status by flight number or route",
        [ ApiParameter("flightNumber", StringParam, false, "Flight number", None),
          ApiParameter("departureCity", StringParam, false, "Departure city", None),
          ApiParameter("arrivalCity", StringParam, false, "Arrival city", None) ],
        "JSON",
        Some("Flight {flightNumber} from {departureCity} to {arrivalCity} is {status}.")) ],
    None)

  const HotelCapabilities: seq<string> := [
    "Room booking and reservations",
    "Room availability and pricing",
    "Check-in and check-out procedures",
    "Cancellation policies",
    "Loyalty program information",
    "Special requests and amenities",
    "Room service and facilities",
    "Billing and payment information"
  ]

  const HotelTemplate := Template(
    "Hotel",
    HotelCapabilities,
    None)

  const BankCapabilities: seq<string> := [
    "Account balance inquiries",
    "Transaction history",
    "Transfer and payment services",
    "Loan and credit information",
    "Investment services",
    "Card management",
    "Fraud protection",
    "Branch and ATM locations"
  ]

  const BankTemplate := Template(
    "Banking",
    BankCapabilities,
    None)

  const RetailCapabilities: seq<string> := [
    "Product information and availability",
    "Order status and tracking",
    "Returns and exchanges",
    "Loyalty program benefits",
    "Shipping and delivery",
    "Payment and billing",
    "Customer support",
    "Store locations and hours"
  ]

  const RetailTemplate := Template(
    "Retail",
    RetailCapabilities,
    None)

  /** The keys of `INDUSTRY_TEMPLATES`. */
  const TemplateKeys: set<string> := {"airline", "hotel", "bank", "retail"}

  /** The table's own entries: `INDUSTRY_TEMPLATES` restricted to its own
      keys. */
  function OwnTemplate(key: string): Option<Template> {
    if key == "airline" then Some(AirlineTemplate)
    else if key == "hotel" then Some(HotelTemplate)
    else if key == "bank" then Some(BankTemplate)
    else if key == "retail" then Some(RetailTemplate)
    else None
  }

  /** The property key a template lookup uses for `industry`: an absent
      industry is looked up under the key "undefined". */
  function IndustryKey(industry: Option<string>): string {
    Str(industry)
  }

  /** The template `createConfig` uses: the table's own entry for the
      industry when there is one, and otherwise the retail template, which
      the table always holds. */
  function TemplateFor(industry: Option<string>): (t: Template)
    ensures IndustryKey(industry) in TemplateKeys ==> Some(t) == OwnTemplate(IndustryKey(industry))
    ensures IndustryKey(industry) !in TemplateKeys ==> t == RetailTemplate
  {
    match OwnTemplate(IndustryKey(industry))
    case Some(t) => t
    case None => RetailTemplate
  }

  /** The table holds an entry for exactly its four keys. */
  lemma OwnTemplateKeys(key: string)
    ensures OwnTemplate(key).Some? <==> key in TemplateKeys
  {
  }

  /** A capability is shown on a line of its own, so it holds no line break. */
  predicate SingleLine(s: string) {
    '\n' !in s
  }

  predicate AllSingleLine(lines: seq<string>) {
    forall l <- lines :: SingleLine(l)
  }

  /** Every template lists exactly eight capabilities, each on one line. */
  lemma TemplateCapabilities(key: string)
    requires key in TemplateKeys
    ensures |OwnTemplate(key).value.capabilities| == 8
    ensures AllSingleLine(OwnTemplate(key).value.capabilities)
  {
    if key == "airline" {
      AirlineSingleLine();
    } else if key == "hotel" {
      HotelSingleLine();
    } else if key == "bank" {
      BankSingleLine();
    } else {
      RetailSingleLine();
    }
  }

  lemma AirlineSingleLine()
    ensures AllSingleLine(AirlineTemplate.capabilities)
  {
    AirlineFirstHalfSingleLine();
    AirlineSecondHalfSingleLine();
  }

  lemma AirlineFirstHalfSingleLine()
    ensures AllSingleLine(AirlineCapabilities[..4])
  {
    var c := AirlineCapabilities;
    assert SingleLine(c[0]); assert SingleLine(c[1]); assert SingleLine(c[2]); assert SingleLine(c[3]);
  }

  lemma AirlineSecondHalfSingleLine()
    ensures AllSingleLine(AirlineCapabilities[4..])
  {
    var c := AirlineCapabilities;
    assert SingleLine(c[4]); assert SingleLine(c[5]); assert SingleLine(c[6]); assert SingleLine(c[7]);
  }

  lemma HotelSingleLine()
    ensures AllSingleLine(HotelTemplate.capabilities)
  {
    HotelFirstHalfSingleLine();
    HotelSecondHalfSingleLine();
  }

  lemma HotelFirstHalfSingleLine()
    ensures AllSingleLine(HotelCapabilities[..4])
  {
    var c := HotelCapabilities;
    assert SingleLine(c[0]); assert SingleLine(c[1]); assert SingleLine(c[2]); assert SingleLine(c[3]);
  }

  lemma HotelSecondHalfSingleLine()
    ensures AllSingleLine(HotelCapabilities[4..])
  {
    var c := HotelCapabilities;
    assert SingleLine(c[4]); assert SingleLine(c[5]); assert SingleLine(c[6]); assert SingleLine(c[7]);
  }

  lemma BankSingleLine()
    ensures AllSingleLine(BankTemplate.capabilities)
  {
    BankFirstHalfSingleLine();
    BankSecondHalfSingleLine();
  }

  lemma BankFirstHalfSingleLine()
    ensures AllSingleLine(BankCapabilities[..4])
  {
    var c := BankCapabilities;
    assert SingleLine(c[0]); assert SingleLine(c[1]); assert SingleLine(c[2]); assert SingleLine(c[3]);
  }

  lemma BankSecondHalfSingleLine()
    ensures AllSingleLine(BankCapabilities[4..])
  {
    var c := BankCapabilities;
    assert SingleLine(c[4]); assert SingleLine(c[5]); assert SingleLine(c[6]); assert SingleLine(c[7]);
  }

  lemma RetailSingleLine()
    ensures AllSingleLine(RetailTemplate.capabilities)
  {
    RetailFirstHalfSingleLine();
    RetailSecondHalfSingleLine();
  }

  lemma RetailFirstHalfSingleLine()
    ensures AllSingleLine(RetailCapabilities[..4])
  {
    var c := RetailCapabilities;
    assert SingleLine(c[0]); assert SingleLine(c[1]); assert SingleLine(c[2]); assert SingleLine(c[3]);
  }

  lemma RetailSecondHalfSingleLine()
    ensures AllSingleLine(RetailCapabilities[4..])
  {
    var c := RetailCapabilities;
    assert SingleLine(c[4]); assert SingleLine(c[5]); assert SingleLine(c[6]); assert SingleLine(c[7]);
  }

  /** Only the airline template has default APIs: one GET endpoint on
      `/flights/status` whose three parameters are optional strings. */
  lemma TemplateDefaultApis(key: string)
    requires key in TemplateKeys
    ensures OwnTemplate(key).value.defaultApis.Some? <==> key == "airline"
    ensures key == "airline" ==>
      var apis := OwnTemplate(key).value.defaultApis.value;
      && |apis| == 1 && |apis[0].endpoints| == 1
      && apis[0].endpoints[0].httpMethod == Get
      && apis[0].endpoints[0].path == "/flights/status"
      && |apis[0].endpoints[0].parameters| == 3
      && forall p <- apis[0].endpoints[0].parameters :: p.paramType == StringParam && !p.required
  {
  }

  // ---------------------------------------------------------------------
  // The lookup as written: `INDUSTRY_TEMPLATES[industry] || retail`
  // indexes a plain object literal, so it also finds the members every
  // object inherits from Object.prototype.
  // ---------------------------------------------------------------------

  /** The names of the members inherited from Object.prototype. */
  const ObjectPrototypeKeys: set<string> := {
    "constructor", "hasOwnProperty", "isPrototypeOf", "propertyIsEnumerable",
    "toLocaleString", "toString", "valueOf", "__proto__",
    "__defineGetter__", "__defineSetter__", "__lookupGetter__", "__lookupSetter__" }

  /** What `INDUSTRY_TEMPLATES[key]` yields: an own template, an inherited
      member (a function or Object.prototype itself, all truthy and none with
      a `capabilities` property), or `undefined`. */
  datatype Lookup = Own(template: Template) | Inherited | Missing

  function LookupAsWritten(key: string): Lookup {
    match OwnTemplate(key)
    case Some(t) => Own(t)
    case None => if key in ObjectPrototypeKeys then Inherited else Missing
  }

  /** The capability list `createConfig` reaches as written, through
      `template.capabilities.map(...)` in `generateInstructions`: an inherited
      member is truthy, so it is taken instead of the retail fallback, and
      reading `.map` of its missing `capabilities` throws. */
  function CapabilitiesAsWritten(industry: Option<string>): (r: Result<seq<string>>)
    ensures IndustryKey(industry) !in ObjectPrototypeKeys ==> r == Ok(TemplateFor(industry).capabilities)
  {
    match LookupAsWritten(IndustryKey(industry))
    case Own(t) => Ok(t.capabilities)
    case Inherited => Err(ReadOfUndefined("map"))
    case Missing => Ok(RetailTemplate.capabilities)
  }

  /** An industry named after an Object.prototype member throws where the
      retail fallback was meant to apply. */
  lemma PrototypeKeyThrows(key: string)
    requires key in ObjectPrototypeKeys
    ensures key !in TemplateKeys
    ensures TemplateFor(Some(key)) == RetailTemplate
    ensures CapabilitiesAsWritten(Some(key)) == Err(ReadOfUndefined("map"))
  {
  }
}
