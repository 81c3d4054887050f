/** `EnterpriseConfigManager`: builds a configuration from flat form input,
    holds the current configuration, validates it, edits it in place and
    summarises it. */
module ConfigManager {
  import opened JsValues
  import opened Text
  import opened EnterpriseConfig
  import opened Requirements

  // ---------------------------------------------------------------------
  // Input of createConfig
  // ---------------------------------------------------------------------

  /** The flat object `createConfig` receives (the setup wizard passes its
      form fields plus its API and document lists). Every property may be
      absent. */
  datatype FormInput = FormInput(
    name: Option<string>,
    industry: Option<string>,
    description: Option<string>,
    headquarters: Option<string>,
    website: Option<string>,
    supportHours: Option<string>,
    languages: Option<seq<string>>,
    phone: Option<string>,
    email: Option<string>,
    whatsapp: Option<string>,
    chat: Option<string>,
    sipEnabled: bool,
    sipPhoneNumber: Option<string>,
    sipProvider: Option<string>,
    sipInstructions: Option<string>,
    sipVoice: Option<string>,
    apis: Option<seq<ApiConfig>>,
    documents: Option<seq<DocumentChunk>>,
    categories: Option<seq<string>>,
    tone: Option<Tone>,
    language: Option<string>,
    responseStyle: Option<ResponseStyle>)

  /** The two environment variables the SIP block reads. */
  datatype Env = Env(openAiProjectId: Option<string>, serverUrl: Option<string>)

  // ---------------------------------------------------------------------
  // generateInstructions
  // ---------------------------------------------------------------------

  /** The fixed text of the instructions template, one constant per piece
      between interpolations. */
  const IntroPrefix: string := "You are a helpful customer service representative for "
  const IntroSuffix: string := ". You can help customers with:"
  const ToolsLine: string := "When customers ask questions, use the available tools to get accurate information. Be friendly, professional, and helpful. If you need to look up information, let the customer know you're checking our systems for them."
  const UrgentPrefix: string := "For urgent matters or complex issues, always offer to connect them with our support team at "
  const PhoneHeader: string := "\U{1F4DE} Phone Call Instructions:"
  const PhoneIntro: string := "You are now handling a phone call from a customer. Be especially attentive to:"
  const PaceLine: string := "- Speak clearly and at a comfortable pace"
  const ClarifyLine: string := "- Ask clarifying questions if the customer's request is unclear"
  const TransferLine: string := "- Offer to transfer them to a human agent if needed"
  const NumberPrefix: string := "- Provide your phone number ("
  const NumberSuffix: string := ") for future reference"
  const ThanksPrefix: string := "- Thank them for calling "

  function IntroLine(name: Option<string>): string {
    IntroPrefix + Str(name) + IntroSuffix
  }

  function UrgentLine(phone: Option<string>): string {
    UrgentPrefix + Str(phone) + "."
  }

  /** The lines of the phone-call section. */
  function PhoneCallLines(input: FormInput): seq<string> {
    [ PhoneHeader,
      PhoneIntro,
      PaceLine,
      ClarifyLine,
      TransferLine,
      NumberPrefix + Str(input.sipPhoneNumber) + NumberSuffix,
      ThanksPrefix + Str(input.name) ]
  }

  /** `capabilities.map(cap => `- ${cap}`)`. */
  function Bullets(capabilities: seq<string>): seq<string> {
    seq(|capabilities|, i requires 0 <= i < |capabilities| => "- " + capabilities[i])
  }

  /** The lines of the instructions: a heading and a blank line, one bullet
      per capability, the closing paragraphs, and the phone-call section
      when SIP is enabled. */
  function InstructionLines(input: FormInput, t: Template): seq<string> {
    [IntroLine(input.name), ""] + Bullets(t.capabilities) + ["", ToolsLine, "", UrgentLine(input.phone)]
    + (if input.sipEnabled then [""] + PhoneCallLines(input) else [])
  }

  /** `generateInstructions(enterpriseInfo, template)`: the template literal
      is its lines joined by line breaks, and it opens with the heading that
      names the enterprise. */
  function GenerateInstructions(input: FormInput, t: Template): (s: string)
    ensures IntroLine(input.name) <= s
  {
    Join(InstructionLines(input, t), "\n")
  }

  /** `instructions += ...`: with SIP enabled, the instructions are those
      without SIP followed by a blank line and the phone-call section. */
  lemma PhoneSectionAppended(input: FormInput, t: Template)
    requires input.sipEnabled
    ensures GenerateInstructions(input, t)
      == GenerateInstructions(input.(sipEnabled := false), t) + "\n\n" + Join(PhoneCallLines(input), "\n")
  {
    var base := InstructionLines(input.(sipEnabled := false), t);
    var phone := PhoneCallLines(input);
    assert InstructionLines(input, t) == base + ([""] + phone);
    assert base + [] == base;
    JoinAppend(base, [""] + phone, "\n");
    assert ([""] + phone)[1..] == phone;
    assert "\n\n" == "\n" + "" + "\n";
  }

  /** The instructions have a heading and a blank line, then one "- cap"
      line per capability of the template in the template's order, then the
      closing paragraphs, and the eight lines of the phone-call section
      (a blank line, its header, and the rest) exactly when SIP is enabled. */
  lemma InstructionsLayout(input: FormInput, t: Template)
    ensures var lines := InstructionLines(input, t);
      var n := |t.capabilities|;
      && |lines| == 6 + n + (if input.sipEnabled then 8 else 0)
      && lines[0] == IntroLine(input.name)
      && (forall i | 0 <= i < n :: lines[2 + i] == "- " + t.capabilities[i])
      && lines[n + 5] == UrgentLine(input.phone)
      && (input.sipEnabled ==> lines[n + 6..] == [""] + PhoneCallLines(input) && lines[n + 7] == PhoneHeader)
  {
  }

  /** The capability block of the instructions breaks into exactly the
      "- cap" lines, one per capability of the template in use. */
  lemma BulletBlockLines(industry: Option<string>)
    ensures var bullets := Bullets(TemplateFor(industry).capabilities);
      Split(Join(bullets, "\n"), '\n') == bullets
  {
    var t := TemplateFor(industry);
    var key := if IndustryKey(industry) in TemplateKeys then IndustryKey(industry) else "retail";
    TemplateCapabilities(key);
    var bullets := Bullets(t.capabilities);
    forall b <- bullets ensures SingleLine(b) {
      var i :| 0 <= i < |bullets| && bullets[i] == b;
      assert t.capabilities[i] in t.capabilities;
    }
    SplitJoin(bullets, '\n');
  }

  // ---------------------------------------------------------------------
  // createConfig
  // ---------------------------------------------------------------------

  const DefaultSupportHours := "24/7"
  const DefaultLanguage := "English"
  const DefaultProjectId := "PROJECT_ID"
  const DefaultServerUrl := "https://your-domain.com"

  /** The SIP block, with the environment's values or their placeholders. */
  function SipBlock(input: FormInput, env: Env): SipConfig {
    var projectId := OrElse(env.openAiProjectId, DefaultProjectId);
    SipConfig(
      true,
      input.sipPhoneNumber,
      input.sipProvider,
      "sip:" + projectId + "@sip.api.openai.com;transport=tls",
      OrElse(env.serverUrl, DefaultServerUrl) + "/api/sip/webhook",
      projectId,
      input.sipInstructions,
      input.sipVoice)
  }

  /** The `enterprise` object of a created configuration. */
  function EnterpriseBlock(input: FormInput, env: Env): EnterpriseInfo {
    EnterpriseInfo(
      input.name,
      input.industry,
      input.description,
      input.headquarters,
      input.website,
      Some(OrElse(input.supportHours, DefaultSupportHours)),
      Some(input.languages.GetOr([DefaultLanguage])),
      Some(ContactInfo(input.phone, input.email, input.whatsapp, input.chat)),
      if input.sipEnabled then Some(SipBlock(input, env)) else None)
  }

  /** The `knowledgeBase` object of a created configuration. */
  function KnowledgeBlock(input: FormInput): KnowledgeBase {
    KnowledgeBase(
      Str(input.name) + " Knowledge Base",
      "Customer support knowledge base for " + Str(input.name),
      Some(input.documents.GetOr([])),
      Some(input.categories.GetOr([])),
      SearchConfig(3, 0.7))
  }

  const FallbackPrefix: string := "I'm sorry, I couldn't find that information. Please contact our support team at "
  const FallbackSuffix: string := " for assistance."

  function FallbackMessage(phone: Option<string>): string {
    FallbackPrefix + Str(phone) + FallbackSuffix
  }

  /** The `voiceAgent` object of a created configuration, for template `t`. */
  function AgentBlock(input: FormInput, t: Template): VoiceAgent {
    VoiceAgent(
      Str(input.name) + " Voice Assistant",
      GenerateInstructions(input, t),
      Personality(
        input.tone.GetOr(Professional),
        OrElse(input.language, DefaultLanguage),
        input.responseStyle.GetOr(Conversational)),
      Some(t.capabilities),
      FallbackMessage(input.phone))
  }

  /** The configuration `createConfig` returns: every section it reads
      back later is present, so its summary never throws. */
  function BuildConfig(input: FormInput, env: Env): (c: Config)
    ensures Summarizable(c)
  {
    Config(
      Some(EnterpriseBlock(input, env)),
      Some(input.apis.GetOr([])),
      Some(KnowledgeBlock(input)),
      Some(AgentBlock(input, TemplateFor(input.industry))),
      Some([]))
  }

  /** The agent's capabilities come from the template of the input's industry
      when the table has one and from the retail template otherwise, while
      the stored industry is the input's own, not the template's label. */
  lemma CreateConfigTemplate(input: FormInput, env: Env)
    ensures var c := BuildConfig(input, env);
      && c.voiceAgent.Some? && c.voiceAgent.value.capabilities.Some?
      && (IndustryKey(input.industry) in TemplateKeys ==>
            c.voiceAgent.value.capabilities.value == OwnTemplate(IndustryKey(input.industry)).value.capabilities)
      && (IndustryKey(input.industry) !in TemplateKeys ==>
            c.voiceAgent.value.capabilities.value == RetailTemplate.capabilities)
      && c.enterprise.Some? && c.enterprise.value.industry == input.industry
  {
  }

  /** A missing or empty string input takes its default and a given one is
      kept; a missing list takes its default, while a given list is kept
      even when empty (an empty array is truthy). */
  lemma CreateConfigDefaults(input: FormInput, env: Env)
    ensures var c := BuildConfig(input, env);
      && c.enterprise.Some? && c.knowledgeBase.Some? && c.voiceAgent.Some?
      && (!Truthy(input.supportHours) ==> c.enterprise.value.supportHours == Some(DefaultSupportHours))
      && (Truthy(input.supportHours) ==> c.enterprise.value.supportHours == input.supportHours)
      && (input.languages.None? ==> c.enterprise.value.languages == Some([DefaultLanguage]))
      && (input.languages.Some? ==> c.enterprise.value.languages == input.languages)
      && (input.apis.None? ==> c.apis == Some([]))
      && (input.apis.Some? ==> c.apis == input.apis)
      && (input.documents.None? ==> c.knowledgeBase.value.documents == Some([]))
      && (input.documents.Some? ==> c.knowledgeBase.value.documents == input.documents)
      && (input.categories.None? ==> c.knowledgeBase.value.categories == Some([]))
      && (input.categories.Some? ==> c.knowledgeBase.value.categories == input.categories)
      && (input.tone.None? ==> c.voiceAgent.value.personality.tone == Professional)
      && (input.tone.Some? ==> c.voiceAgent.value.personality.tone == input.tone.value)
      && (!Truthy(input.language) ==> c.voiceAgent.value.personality.language == DefaultLanguage)
      && (Truthy(input.language) ==> c.voiceAgent.value.personality.language == input.language.value)
      && (input.responseStyle.None? ==> c.voiceAgent.value.personality.responseStyle == Conversational)
      && (input.responseStyle.Some? ==> c.voiceAgent.value.personality.responseStyle == input.responseStyle.value)
      && c.tools == Some([])
  {
  }

  /** Names derive from the enterprise name, and the SIP block is present
      exactly when SIP is enabled, with the environment's project id or its
      placeholder. */
  lemma CreateConfigDerived(input: FormInput, env: Env)
    ensures var c := BuildConfig(input, env);
      && c.knowledgeBase.Some? && c.knowledgeBase.value.name == Str(input.name) + " Knowledge Base"
      && c.voiceAgent.Some? && c.voiceAgent.value.name == Str(input.name) + " Voice Assistant"
      && c.enterprise.Some? && c.enterprise.value.name == input.name
      && (c.enterprise.value.sipConfig.Some? <==> input.sipEnabled)
      && (input.sipEnabled ==>
            && c.enterprise.value.sipConfig.value.enabled
            && c.enterprise.value.sipConfig.value.projectId
               == (if Truthy(env.openAiProjectId) then env.openAiProjectId.value else DefaultProjectId))
  {
  }

  // ---------------------------------------------------------------------
  // validateConfig
  // ---------------------------------------------------------------------

  const NoConfigMessage := "No configuration loaded"
  const InvalidJsonMessage := "Invalid JSON configuration"

  /** `required`, then `enterpriseRequired`, in the order they are checked. */
  const TopRequired: seq<Requirement> := [HasEnterprise, HasKnowledgeBase, HasVoiceAgent]
  const EnterpriseRequired: seq<Requirement> := [HasName, HasIndustry, HasContactInfo]
  const ManagerRequirements: seq<Requirement> := TopRequired + EnterpriseRequired

  const MissingField: string := "Missing required field: "
  const MissingEnterpriseField: string := "Missing required enterprise field: "

  function ManagerMessage(r: Requirement): string {
    if r in TopRequired then MissingField + r.Key() else MissingEnterpriseField + r.Key()
  }

  /** The requirement `validateConfig` reports as missing, if any. */
  function ManagerFailure(c: Config): Option<Requirement> {
    FirstFailure(c, ManagerRequirements)
  }

  /** The message `validateConfig` throws, or None when it returns. */
  function ValidationError(config: Option<Config>): Option<string> {
    match config
    case None => Some(NoConfigMessage)
    case Some(c) =>
      match ManagerFailure(c)
      case None => None
      case Some(r) => Some(ManagerMessage(r))
  }

  /** `validateConfig` passes exactly when all six properties are truthy. */
  lemma ManagerValidation(c: Config)
    ensures ValidationError(Some(c)) == None <==>
      && c.enterprise.Some? && c.knowledgeBase.Some? && c.voiceAgent.Some?
      && Truthy(c.enterprise.value.name) && Truthy(c.enterprise.value.industry)
      && c.enterprise.value.contactInfo.Some?
  {
    var rs := ManagerRequirements;
    assert rs == [HasEnterprise, HasKnowledgeBase, HasVoiceAgent, HasName, HasIndustry, HasContactInfo];
    FirstFailureIsFirst(c, rs, 0);
    assert (forall j | 0 <= j < |rs| :: Meets(c, rs[j])) <==>
      Meets(c, rs[0]) && Meets(c, rs[1]) && Meets(c, rs[2]) && Meets(c, rs[3]) && Meets(c, rs[4]) && Meets(c, rs[5]);
  }

  /** `validateConfig` reports the `k`-th property of its order (enterprise,
      knowledgeBase, voiceAgent, name, industry, contactInfo) exactly when
      that property is missing and every earlier one is present. */
  lemma ManagerValidationOrder(c: Config, k: nat)
    requires k < |ManagerRequirements|
    ensures ManagerFailure(c) == Some(ManagerRequirements[k]) <==>
      !Meets(c, ManagerRequirements[k]) && forall j | 0 <= j < k :: Meets(c, ManagerRequirements[j])
  {
    FirstFailureIsFirst(c, ManagerRequirements, k);
  }

  /** With the three sections and the contact information present, the
      name is checked before the industry. */
  lemma EnterpriseFieldReported(c: Config)
    requires c.enterprise.Some? && c.knowledgeBase.Some? && c.voiceAgent.Some?
    requires c.enterprise.value.contactInfo.Some?
    ensures ValidationError(Some(c)) ==
      if !Truthy(c.enterprise.value.name) then Some(MissingEnterpriseField + "name")
      else if !Truthy(c.enterprise.value.industry) then Some(MissingEnterpriseField + "industry")
      else None
  {
    var rs := ManagerRequirements;
    assert rs == [HasEnterprise, HasKnowledgeBase, HasVoiceAgent, HasName, HasIndustry, HasContactInfo];
    assert Meets(c, rs[0]) && Meets(c, rs[1]) && Meets(c, rs[2]);
    if !Truthy(c.enterprise.value.name) {
      ManagerValidationOrder(c, 3);
    } else if !Truthy(c.enterprise.value.industry) {
      ManagerValidationOrder(c, 4);
    } else {
      ManagerValidation(c);
    }
  }

  /** A configuration `createConfig` builds passes `validateConfig` exactly
      when the input's name and industry are non-empty; otherwise the name is
      reported first. */
  lemma CreatedConfigValidation(input: FormInput, env: Env)
    ensures ValidationError(Some(BuildConfig(input, env))) ==
      if !Truthy(input.name) then Some(MissingEnterpriseField + "name")
      else if !Truthy(input.industry) then Some(MissingEnterpriseField + "industry")
      else None
  {
    EnterpriseFieldReported(BuildConfig(input, env));
  }

  // ---------------------------------------------------------------------
  // In-place edits, as functions of the configuration
  // ---------------------------------------------------------------------

  /** `this.config.apis.push(api)`: appends one API, or throws when the
      configuration has no `apis` array. Nothing else changes. */
  function AppendApi(c: Config, api: ApiConfig): (r: Result<Config>)
    ensures r.Ok? <==> c.apis.Some?
    ensures r.Ok? ==> r.value.apis == Some(c.apis.value + [api]) && r.value.(apis := c.apis) == c
    ensures r.Err? ==> r.message == ReadOfUndefined("push")
  {
    match c.apis
    case None => Err(ReadOfUndefined("push"))
    case Some(apis) => Ok(c.(apis := Some(apis + [api])))
  }

  /** `this.config.knowledgeBase.documents.push(doc)`: appends one document,
      or throws when the knowledge base or its `documents` array is missing.
      Nothing else changes. */
  function AppendDocument(c: Config, doc: DocumentChunk): (r: Result<Config>)
    ensures r.Ok? <==> c.knowledgeBase.Some? && c.knowledgeBase.value.documents.Some?
    ensures r.Ok? ==>
      var kb := c.knowledgeBase.value;
      && r.value.knowledgeBase == Some(kb.(documents := Some(kb.documents.value + [doc])))
      && r.value.(knowledgeBase := c.knowledgeBase) == c
    ensures r.Err? ==> r.message == (if c.knowledgeBase.None? then ReadOfUndefined("documents") else ReadOfUndefined("push"))
  {
    match c.knowledgeBase
    case None => Err(ReadOfUndefined("documents"))
    case Some(kb) =>
      match kb.documents
      case None => Err(ReadOfUndefined("push"))
      case Some(docs) => Ok(c.(knowledgeBase := Some(kb.(documents := Some(docs + [doc])))))
  }

  /** A property update of `updateEnterpriseInfo`: leave it or set it. */
  datatype Update<T> = Keep | Assign(value: T)

  /** The `Partial<EnterpriseInfo>` passed to `updateEnterpriseInfo`: which
      properties it gives, and their values (possibly `undefined`). */
  datatype EnterprisePatch = EnterprisePatch(
    name: Update<Option<string>>,
    industry: Update<Option<string>>,
    description: Update<Option<string>>,
    headquarters: Update<Option<string>>,
    website: Update<Option<string>>,
    supportHours: Update<Option<string>>,
    languages: Update<Option<seq<string>>>,
    contactInfo: Update<Option<ContactInfo>>,
    sipConfig: Update<Option<SipConfig>>)

  /** The properties of an enterprise, and a common type for their values. */
  datatype InfoField =
    | NameField | IndustryField | DescriptionField | HeadquartersField | WebsiteField
    | SupportHoursField | LanguagesField | ContactInfoField | SipConfigField

  datatype InfoValue =
    | StringValue(s: Option<string>)
    | ListValue(l: Option<seq<string>>)
    | ContactValue(ci: Option<ContactInfo>)
    | SipValue(sip: Option<SipConfig>)

  function Read(e: EnterpriseInfo, f: InfoField): InfoValue {
    match f
    case NameField => StringValue(e.name)
    case IndustryField => StringValue(e.industry)
    case DescriptionField => StringValue(e.description)
    case HeadquartersField => StringValue(e.headquarters)
    case WebsiteField => StringValue(e.website)
    case SupportHoursField => StringValue(e.supportHours)
    case LanguagesField => ListValue(e.languages)
    case ContactInfoField => ContactValue(e.contactInfo)
    case SipConfigField => SipValue(e.sipConfig)
  }

  function Given(p: EnterprisePatch, f: InfoField): Option<InfoValue> {
    match f
    case NameField => if p.name.Assign? then Some(StringValue(p.name.value)) else None
    case IndustryField => if p.industry.Assign? then Some(StringValue(p.industry.value)) else None
    case DescriptionField => if p.description.Assign? then Some(StringValue(p.description.value)) else None
    case HeadquartersField => if p.headquarters.Assign? then Some(StringValue(p.headquarters.value)) else None
    case WebsiteField => if p.website.Assign? then Some(StringValue(p.website.value)) else None
    case SupportHoursField => if p.supportHours.Assign? then Some(StringValue(p.supportHours.value)) else None
    case LanguagesField => if p.languages.Assign? then Some(ListValue(p.languages.value)) else None
    case ContactInfoField => if p.contactInfo.Assign? then Some(ContactValue(p.contactInfo.value)) else None
    case SipConfigField => if p.sipConfig.Assign? then Some(SipValue(p.sipConfig.value)) else None
  }

  function Apply<T>(current: T, u: Update<T>): T {
    match u
    case Keep => current
    case Assign(v) => v
  }

  /** `{ ...e, ...patch }`: every property the patch gives takes the patch's
      value, and every other property keeps its value. */
  function Merge(e: EnterpriseInfo, p: EnterprisePatch): (r: EnterpriseInfo)
    ensures forall f :: Read(r, f) == (if Given(p, f).Some? then Given(p, f).value else Read(e, f))
  {
    EnterpriseInfo(
      Apply(e.name, p.name),
      Apply(e.industry, p.industry),
      Apply(e.description, p.description),
      Apply(e.headquarters, p.headquarters),
      Apply(e.website, p.website),
      Apply(e.supportHours, p.supportHours),
      Apply(e.languages, p.languages),
      Apply(e.contactInfo, p.contactInfo),
      Apply(e.sipConfig, p.sipConfig))
  }

  /** Spreading an absent enterprise contributes no properties. */
  const NoEnterpriseInfo := EnterpriseInfo(None, None, None, None, None, None, None, None, None)

  /** `this.config.enterprise = { ...this.config.enterprise, ...patch }`. */
  function WithEnterprise(c: Config, p: EnterprisePatch): Config {
    c.(enterprise := Some(Merge(c.enterprise.GetOr(NoEnterpriseInfo), p)))
  }

  /** A patch that leaves the name, the industry and the contact
      information alone leaves the validation outcome of a configuration
      with an enterprise as it was. */
  lemma MergeKeepsValidation(c: Config, p: EnterprisePatch)
    requires c.enterprise.Some?
    requires p.name.Keep? && p.industry.Keep? && p.contactInfo.Keep?
    ensures ValidationError(Some(WithEnterprise(c, p))) == ValidationError(Some(c))
  {
    var c' := WithEnterprise(c, p);
    assert Read(c'.enterprise.value, NameField) == Read(c.enterprise.value, NameField);
    assert Read(c'.enterprise.value, IndustryField) == Read(c.enterprise.value, IndustryField);
    assert Read(c'.enterprise.value, ContactInfoField) == Read(c.enterprise.value, ContactInfoField);
    assert forall r :: Meets(c', r) == Meets(c, r);
  }

  // ---------------------------------------------------------------------
  // getConfigSummary
  // ---------------------------------------------------------------------

  datatype Summary = Summary(
    enterprise: Option<string>,
    industry: Option<string>,
    apis: nat,
    documents: nat,
    capabilities: nat,
    tools: nat,
    sipEnabled: bool,
    sipPhoneNumber: Option<string>)

  /** The properties the summary reads through. */
  predicate Summarizable(c: Config) {
    && c.enterprise.Some? && c.apis.Some?
    && c.knowledgeBase.Some? && c.knowledgeBase.value.documents.Some?
    && c.voiceAgent.Some? && c.voiceAgent.value.capabilities.Some?
    && c.tools.Some?
  }

  /** The summary of a configuration: the counts are the lengths of its
      lists, SIP is reported enabled only when a SIP block is present and
      enabled, its phone number is reported exactly when it is truthy, and a
      property missing on the way throws a TypeError. */
  function Summarize(c: Config): (r: Result<Summary>)
    ensures r.Ok? <==> Summarizable(c)
    ensures r.Ok? ==>
      && r.value.enterprise == c.enterprise.value.name
      && r.value.industry == c.enterprise.value.industry
      && r.value.apis == |c.apis.value|
      && r.value.documents == |c.knowledgeBase.value.documents.value|
      && r.value.capabilities == |c.voiceAgent.value.capabilities.value|
      && r.value.tools == |c.tools.value|
      && (r.value.sipEnabled <==> c.enterprise.value.sipConfig.Some? && c.enterprise.value.sipConfig.value.enabled)
      && (var sip := c.enterprise.value.sipConfig;
          r.value.sipPhoneNumber == if sip.Some? && Truthy(sip.value.phoneNumber) then sip.value.phoneNumber else None)
    ensures r.Err? ==> r.message in {ReadOfUndefined("name"), ReadOfUndefined("length"),
                                      ReadOfUndefined("documents"), ReadOfUndefined("capabilities")}
  {
    if c.enterprise.None? then Err(ReadOfUndefined("name"))
    else if c.apis.None? then Err(ReadOfUndefined("length"))
    else if c.knowledgeBase.None? then Err(ReadOfUndefined("documents"))
    else if c.knowledgeBase.value.documents.None? then Err(ReadOfUndefined("length"))
    else if c.voiceAgent.None? then Err(ReadOfUndefined("capabilities"))
    else if c.voiceAgent.value.capabilities.None? then Err(ReadOfUndefined("length"))
    else if c.tools.None? then Err(ReadOfUndefined("length"))
    else
      var e := c.enterprise.value;
      var sip := e.sipConfig;
      Ok(Summary(
        e.name,
        e.industry,
        |c.apis.value|,
        |c.knowledgeBase.value.documents.value|,
        |c.voiceAgent.value.capabilities.value|,
        |c.tools.value|,
        sip.Some? && sip.value.enabled,
        if sip.Some? && Truthy(sip.value.phoneNumber) then sip.value.phoneNumber else None))
  }

  /** The summary of a freshly created configuration: eight capabilities (all
      templates have eight), no tools, and SIP as requested. */
  lemma CreatedConfigSummary(input: FormInput, env: Env)
    ensures Summarize(BuildConfig(input, env)) == Ok(Summary(
      input.name,
      input.industry,
      |input.apis.GetOr([])|,
      |input.documents.GetOr([])|,
      8,
      0,
      input.sipEnabled,
      if input.sipEnabled && Truthy(input.sipPhoneNumber) then input.sipPhoneNumber else None))
  {
    var key := if IndustryKey(input.industry) in TemplateKeys then IndustryKey(input.industry) else "retail";
    TemplateCapabilities(key);
  }

  /** Appending an API raises the API count by one and leaves the rest of the
      summary, and the validation outcome, as they were. */
  lemma AppendApiEffect(c: Config, api: ApiConfig)
    requires AppendApi(c, api).Ok?
    ensures var c' := AppendApi(c, api).value;
      && ValidationError(Some(c')) == ValidationError(Some(c))
      && (Summarize(c).Ok? ==> Summarize(c') == Ok(Summarize(c).value.(apis := Summarize(c).value.apis + 1)))
  {
    var c' := AppendApi(c, api).value;
    assert forall r :: Meets(c', r) == Meets(c, r);
    ManagerValidation(c);
    ManagerValidation(c');
  }

  /** Appending a document raises the document count by one and leaves the
      rest of the summary, and the validation outcome, as they were. */
  lemma AppendDocumentEffect(c: Config, doc: DocumentChunk)
    requires AppendDocument(c, doc).Ok?
    ensures var c' := AppendDocument(c, doc).value;
      && ValidationError(Some(c')) == ValidationError(Some(c))
      && (Summarize(c).Ok? ==> Summarize(c') == Ok(Summarize(c).value.(documents := Summarize(c).value.documents + 1)))
  {
    var c' := AppendDocument(c, doc).value;
    assert forall r :: Meets(c', r) == Meets(c, r);
    ManagerValidation(c);
    ManagerValidation(c');
  }

  // ---------------------------------------------------------------------
  // The manager object
  // ---------------------------------------------------------------------

  class EnterpriseConfigManager {
    /** `private config`: None is `null`. */
    var config: Option<Config>

    constructor ()
      ensures config == None
    {
      config := None;
    }

    /** `loadConfig`: stores the value first and validates it afterwards, so
        a value that fails validation stays stored. */
    method LoadConfig(value: Option<Config>) returns (err: Option<string>)
      modifies this
      ensures config == value
      ensures err == ValidationError(value)
    {
      config := value;
      err := ValidateConfig();
    }

    /** `createConfig`: builds the configuration and makes it the current
        one. */
    method CreateConfig(input: FormInput, env: Env) returns (c: Config)
      modifies this
      ensures c == BuildConfig(input, env)
      ensures config == Some(c)
    {
      c := BuildConfig(input, env);
      config := Some(c);
    }

    /** `getConfig`. */
    method GetConfig() returns (c: Option<Config>)
      ensures c == config
    {
      c := config;
    }

    /** `updateEnterpriseInfo`: shallow-merges the patch into the enterprise
        properties. */
    method UpdateEnterpriseInfo(patch: EnterprisePatch) returns (err: Option<string>)
      modifies this
      ensures old(config).None? ==> err == Some(NoConfigMessage) && config == old(config)
      ensures old(config).Some? ==> err == None && config == Some(WithEnterprise(old(config).value, patch))
    {
      if config.None? {
        return Some(NoConfigMessage);
      }
      config := Some(WithEnterprise(config.value, patch));
      err := None;
    }

    /** `addAPI`. */
    method AddApi(api: ApiConfig) returns (err: Option<string>)
      modifies this
      ensures old(config).None? ==> err == Some(NoConfigMessage) && config == old(config)
      ensures old(config).Some? ==>
        match AppendApi(old(config).value, api)
        case Ok(c) => err == None && config == Some(c)
        case Err(m) => err == Some(m) && config == old(config)
    {
      if config.None? {
        return Some(NoConfigMessage);
      }
      match AppendApi(config.value, api)
      case Ok(c) =>
        config := Some(c);
        err := None;
      case Err(m) =>
        err := Some(m);
    }

    /** `addDocument`. */
    method AddDocument(doc: DocumentChunk) returns (err: Option<string>)
      modifies this
      ensures old(config).None? ==> err == Some(NoConfigMessage) && config == old(config)
      ensures old(config).Some? ==>
        match AppendDocument(old(config).value, doc)
        case Ok(c) => err == None && config == Some(c)
        case Err(m) => err == Some(m) && config == old(config)
    {
      if config.None? {
        return Some(NoConfigMessage);
      }
      match AppendDocument(config.value, doc)
      case Ok(c) =>
        config := Some(c);
        err := None;
      case Err(m) =>
        err := Some(m);
    }

    /** `validateConfig`: the two loops over the required property names,
        throwing at the first one that is missing. */
    method ValidateConfig() returns (err: Option<string>)
      ensures err == ValidationError(config)
    {
      if config.None? {
        return Some(NoConfigMessage);
      }
      var c := config.value;
      var k := 0;
      while k < |TopRequired|
        invariant 0 <= k <= |TopRequired|
        invariant forall j | 0 <= j < k :: Meets(c, ManagerRequirements[j])
      {
        if !Meets(c, TopRequired[k]) {
          assert ManagerRequirements[k] == TopRequired[k];
          assert FirstUnmet(c, ManagerRequirements) == k;
          return Some(MissingField + TopRequired[k].Key());
        }
        k := k + 1;
      }
      k := 0;
      while k < |EnterpriseRequired|
        invariant 0 <= k <= |EnterpriseRequired|
        invariant forall j | 0 <= j < |TopRequired| + k :: Meets(c, ManagerRequirements[j])
      {
        if !Meets(c, EnterpriseRequired[k]) {
          assert ManagerRequirements[|TopRequired| + k] == EnterpriseRequired[k];
          assert FirstUnmet(c, ManagerRequirements) == |TopRequired| + k;
          return Some(MissingEnterpriseField + EnterpriseRequired[k].Key());
        }
        k := k + 1;
      }
      err := None;
    }

    /** `importConfig`: a value that does not parse, and a value that parses
        but fails validation, both end in the one error 'Invalid JSON
        configuration'; in the second case the value stays stored. */
    method ImportConfig(parsed: ParseResult) returns (err: Option<string>)
      modifies this
      ensures parsed.Rejected? ==> config == old(config) && err == Some(InvalidJsonMessage)
      ensures parsed.Parsed? ==> config == parsed.value
      ensures parsed.Parsed? ==> (err.None? <==> ValidationError(parsed.value).None?)
      ensures err.Some? ==> err == Some(InvalidJsonMessage)
    {
      match parsed
      case Rejected(_) =>
        err := Some(InvalidJsonMessage);
      case Parsed(value) =>
        var loadError := LoadConfig(value);
        err := if loadError.Some? then Some(InvalidJsonMessage) else None;
    }

    /** `getConfigSummary`: None (`null`) without a configuration, otherwise
        the summary of the current one. */
    method GetConfigSummary() returns (r: Option<Result<Summary>>)
      ensures config.None? ==> r.None?
      ensures config.Some? ==> r == Some(Summarize(config.value))
    {
      if config.None? {
        return None;
      }
      r := Some(Summarize(config.value));
    }
  }
}
