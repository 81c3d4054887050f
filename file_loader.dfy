/** `EnterpriseFileLoader`: reads a configuration file chosen by the user,
    checks it with its own lighter validator and hands it on. Reading the
    file and `JSON.parse` are one abstract step whose outcome is a
    `ParseResult`. */
module FileLoader {
  import opened JsValues
  import opened EnterpriseConfig
  import opened Requirements
  import opened ConfigManager

  // ---------------------------------------------------------------------
  // validateConfig
  // ---------------------------------------------------------------------

  const MissingEnterprise: string := "Missing enterprise information"
  const MissingName: string := "Missing enterprise name"
  const MissingVoiceAgent: string := "Missing voice agent configuration"
  const MissingKnowledgeBase: string := "Missing knowledge base configuration"

  /** The loader's `validateConfig`: four guards in order, the first that
      fails throws its message. A JSON `null` throws on its first property
      read. It accepts exactly the configurations with an enterprise that
      has a name, a voice agent and a knowledge base: it checks neither the
      industry nor the contact information. */
  function ValidateLoaded(v: Option<Config>): (r: Option<string>)
    ensures v.None? ==> r == Some(ReadOfNull("enterprise"))
    ensures r == None <==>
      && v.Some? && v.value.enterprise.Some? && Truthy(v.value.enterprise.value.name)
      && v.value.voiceAgent.Some? && v.value.knowledgeBase.Some?
  {
    match v
    case None => Some(ReadOfNull("enterprise"))
    case Some(c) =>
      if c.enterprise.None? then Some(MissingEnterprise)
      else if !Truthy(c.enterprise.value.name) then Some(MissingName)
      else if c.voiceAgent.None? then Some(MissingVoiceAgent)
      else if c.knowledgeBase.None? then Some(MissingKnowledgeBase)
      else None
  }

  /** The same four checks as requirements, in the loader's order. */
  const LoaderRequirements: seq<Requirement> := [HasEnterprise, HasName, HasVoiceAgent, HasKnowledgeBase]

  function LoaderMessage(r: Requirement): string
    requires r in LoaderRequirements
  {
    match r
    case HasEnterprise => MissingEnterprise
    case HasName => MissingName
    case HasVoiceAgent => MissingVoiceAgent
    case HasKnowledgeBase => MissingKnowledgeBase
  }

  /** The loader reports the first of its four requirements the configuration
      does not meet, with that requirement's message. */
  lemma LoaderFirstFailure(c: Config)
    ensures ValidateLoaded(Some(c)) ==
      match FirstFailure(c, LoaderRequirements)
      case None => None
      case Some(r) => Some(LoaderMessage(r))
  {
    var rs := LoaderRequirements;
    assert rs == [HasEnterprise, HasName, HasVoiceAgent, HasKnowledgeBase];
    if c.enterprise.None? {
      FirstFailureIsFirst(c, rs, 0);
    } else if !Truthy(c.enterprise.value.name) {
      FirstFailureIsFirst(c, rs, 1);
    } else if c.voiceAgent.None? {
      FirstFailureIsFirst(c, rs, 2);
    } else if c.knowledgeBase.None? {
      FirstFailureIsFirst(c, rs, 3);
    } else {
      FirstFailureIsFirst(c, rs, 0);
      assert Meets(c, rs[0]) && Meets(c, rs[1]) && Meets(c, rs[2]) && Meets(c, rs[3]);
    }
  }

  /** Whatever the manager accepts, the loader accepts. */
  lemma ManagerStricter(c: Config)
    requires ValidationError(Some(c)) == None
    ensures ValidateLoaded(Some(c)) == None
  {
    ManagerValidation(c);
  }

  /** A configuration whose enterprise has a name but no industry and no
      contact information. */
  const NamedOnly := Config(
    Some(EnterpriseInfo(Some("Acme"), None, None, None, None, None, None, None, None)),
    None,
    Some(KnowledgeBase("", "", None, None, SearchConfig(3, 0.7))),
    Some(VoiceAgent("", "", Personality(Professional, "", Conversational), None, "")),
    None)

  /** The converse fails: the loader accepts a file the manager would reject
      for its missing industry. */
  lemma LoaderLaxer()
    ensures ValidateLoaded(Some(NamedOnly)) == None
    ensures ValidationError(Some(NamedOnly)) == Some(MissingEnterpriseField + "industry")
  {
    var rs := ManagerRequirements;
    assert rs == [HasEnterprise, HasKnowledgeBase, HasVoiceAgent, HasName, HasIndustry, HasContactInfo];
    ManagerValidationOrder(NamedOnly, 4);
  }

  // ---------------------------------------------------------------------
  // downloadTemplate
  // ---------------------------------------------------------------------

  /** The example configuration offered for download (its fields in the
      order the source lists them). */
  const DownloadTemplate := Config(
    Some(EnterpriseInfo(
      Some("Example Company"),
      Some("Technology"),
      Some("A technology company providing innovative solutions"),
      Some("San Francisco, CA, USA"),
      Some("https://example.com"),
      Some("24/7"),
      Some(["English"]),
      Some(ContactInfo(Some("+1-800-123-4567"), Some("support@example.com"), None, None)),
      None)),
    Some([ApiConfig(
      "Customer API",
      "Customer information and account management",
      Some("https://api.example.com"),
      [ ApiEndpoint(
          "get_customer_info",
          "/customers/{id}",
          Get,
          "Get customer information by ID",
          [ApiParameter("id", StringParam, true, "Customer ID", None)],
          "JSON",
          None) ],
      None)]),
    Some(KnowledgeBase(
      "Example Knowledge Base",
      "Customer support knowledge base",
      Some([DocumentChunk(
        "policy_1",
        "Return Policy",
        "Our return policy allows returns within 30 days of purchase...",
        "Policies",
        ["returns", "policy"])]),
      Some(["Policies", "Support", "Products"]),
      SearchConfig(3, 0.7))),
    Some(VoiceAgent(
      "Example Voice Assistant",
      "You are a helpful customer service representative for Example Company...",
      Personality(Professional, "English", Conversational),
      Some(["Customer support", "Product information", "Account management", "Technical assistance"]),
      "I'm sorry, I couldn't find that information. Please contact our support team for assistance.")),
    Some([]))

  /** The downloadable example passes the loader's validation, and the
      manager's as well. */
  lemma DownloadTemplateValidates()
    ensures ValidateLoaded(Some(DownloadTemplate)) == None
    ensures ValidationError(Some(DownloadTemplate)) == None
  {
    var e := DownloadTemplate.enterprise.value;
    assert e.name.value[0] == 'E';
    assert e.industry.value[0] == 'T';
    EnterpriseFieldReported(DownloadTemplate);
  }

  // ---------------------------------------------------------------------
  // Loading
  // ---------------------------------------------------------------------

  const NoFileMessage: string := "Please select a configuration file"
  const LoadFailurePrefix: string := "Failed to load configuration: "

  /** What the `try` block of `handleLoadConfig` ends with: the configuration
      handed to `onConfigLoaded`, or the message of the error thrown by the
      read, the parse or the validation. */
  function LoadOutcome(read: ParseResult): (r: Result<Config>)
    ensures r.Ok? <==> read.Parsed? && ValidateLoaded(read.value) == None
    ensures r.Ok? ==> read.value == Some(r.value)
    ensures read.Rejected? ==> r == Err(read.message)
    ensures read.Parsed? && ValidateLoaded(read.value).Some? ==> r == Err(ValidateLoaded(read.value).value)
  {
    match read
    case Rejected(m) => Err(m)
    case Parsed(v) =>
      match ValidateLoaded(v)
      case Some(m) => Err(m)
      case None => Ok(v.value)
  }

  /** A selected file; only its presence matters to the logic. */
  datatype File = File(name: string)

  class EnterpriseFileLoader {
    var isLoading: bool
    var error: Option<string>
    var selectedFile: Option<File>

    constructor ()
      ensures !isLoading && error.None? && selectedFile.None?
    {
      isLoading := false;
      error := None;
      selectedFile := None;
    }

    /** The Load button is enabled when a file is selected and no load is
        running. */
    function LoadEnabled(): bool
      reads this
      ensures LoadEnabled() ==> selectedFile.Some?
    {
      selectedFile.Some? && !isLoading
    }

    /** `handleFileSelect`: the first chosen file, if any, becomes the
        selection and clears the error; choosing nothing changes nothing. */
    method HandleFileSelect(files: seq<File>)
      modifies this
      ensures |files| > 0 ==> selectedFile == Some(files[0]) && error.None?
      ensures |files| == 0 ==> selectedFile == old(selectedFile) && error == old(error)
      ensures isLoading == old(isLoading)
    {
      if |files| > 0 {
        selectedFile := Some(files[0]);
        error := None;
      }
    }

    /** The synchronous part of `handleLoadConfig`, up to the first `await`:
        without a selection it only sets the error; otherwise the load
        starts with the error cleared. */
    method BeginLoad() returns (started: bool)
      modifies this
      ensures started <==> old(selectedFile).Some?
      ensures !started ==> error == Some(NoFileMessage) && isLoading == old(isLoading)
      ensures started ==> isLoading && error.None?
      ensures selectedFile == old(selectedFile)
      ensures old(LoadEnabled()) ==> started
      ensures !LoadEnabled()
    {
      if selectedFile.None? {
        error := Some(NoFileMessage);
        return false;
      }
      isLoading := true;
      error := None;
      started := true;
    }

    /** The rest of `handleLoadConfig`, once the file has been read and
        parsed: on success the configuration is returned for
        `onConfigLoaded`, on any error its message is shown; the load ends
        either way. */
    method FinishLoad(read: ParseResult) returns (loaded: Option<Config>)
      requires isLoading
      modifies this
      ensures !isLoading
      ensures selectedFile == old(selectedFile)
      ensures LoadEnabled() <==> selectedFile.Some?
      ensures match LoadOutcome(read)
        case Ok(c) => loaded == Some(c) && error == old(error)
        case Err(m) => loaded.None? && error == Some(LoadFailurePrefix + m)
    {
      match LoadOutcome(read) {
        case Ok(c) =>
          loaded := Some(c);
        case Err(m) =>
          error := Some(LoadFailurePrefix + m);
          loaded := None;
      }
      isLoading := false;
    }

    /** `handleLoadConfig` from start to end, given what reading and
        parsing the selected file produce. */
    method HandleLoadConfig(read: ParseResult) returns (loaded: Option<Config>)
      modifies this
      ensures old(selectedFile).None? ==>
        loaded.None? && error == Some(NoFileMessage) && isLoading == old(isLoading)
      ensures old(selectedFile).Some? ==> !isLoading
      ensures old(selectedFile).Some? ==>
        match LoadOutcome(read)
        case Ok(c) => loaded == Some(c) && error.None?
        case Err(m) => loaded.None? && error == Some(LoadFailurePrefix + m)
      ensures loaded.Some? ==> ValidateLoaded(loaded) == None
      ensures selectedFile == old(selectedFile)
    {
      var started := BeginLoad();
      if !started {
        return None;
      }
      loaded := FinishLoad(read);
    }
  }
}
