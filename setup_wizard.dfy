/** `EnterpriseSetupWizard`: a four-step form (enterprise, contact, APIs,
    knowledge base) whose last step hands the collected input to the
    configuration manager. Rendering is not modelled; an input is only
    editable while its step is shown. */
module SetupWizard {
  import opened JsValues
  import opened Text
  import opened EnterpriseConfig
  import opened ConfigManager

  // ---------------------------------------------------------------------
  // The form
  // ---------------------------------------------------------------------

  /** The `enterpriseInfo` state of the wizard. */
  datatype FormState = FormState(
    name: string,
    industry: string,
    description: string,
    headquarters: string,
    website: string,
    supportHours: string,
    languages: seq<string>,
    phone: string,
    email: string,
    whatsapp: string,
    chat: string,
    tone: Tone,
    language: string,
    responseStyle: ResponseStyle)

  const InitialForm := FormState(
    "", "", "", "", "", "24/7", ["English"], "", "", "", "", Professional, "English", Conversational)

  /** The text inputs of the form, and the step that shows each. */
  datatype FormField =
    | NameInput | IndustryInput | DescriptionInput | HeadquartersInput | WebsiteInput
    | SupportHoursInput | PhoneInput | EmailInput | WhatsappInput
  {
    function Step(): int {
      if this in {NameInput, IndustryInput, DescriptionInput, HeadquartersInput, WebsiteInput} then 1 else 2
    }
  }

  function FieldValue(f: FormState, field: FormField): string {
    match field
    case NameInput => f.name
    case IndustryInput => f.industry
    case DescriptionInput => f.description
    case HeadquartersInput => f.headquarters
    case WebsiteInput => f.website
    case SupportHoursInput => f.supportHours
    case PhoneInput => f.phone
    case EmailInput => f.email
    case WhatsappInput => f.whatsapp
  }

  /** `setEnterpriseInfo({...enterpriseInfo, [field]: value})`: the input's
      property takes the value and every other property keeps its value. */
  function SetField(f: FormState, field: FormField, v: string): (r: FormState)
    ensures FieldValue(r, field) == v
    ensures forall g: FormField | g != field :: FieldValue(r, g) == FieldValue(f, g)
    ensures r.languages == f.languages && r.chat == f.chat && r.tone == f.tone
    ensures r.language == f.language && r.responseStyle == f.responseStyle
  {
    match field
    case NameInput => f.(name := v)
    case IndustryInput => f.(industry := v)
    case DescriptionInput => f.(description := v)
    case HeadquartersInput => f.(headquarters := v)
    case WebsiteInput => f.(website := v)
    case SupportHoursInput => f.(supportHours := v)
    case PhoneInput => f.(phone := v)
    case EmailInput => f.(email := v)
    case WhatsappInput => f.(whatsapp := v)
  }

  // ---------------------------------------------------------------------
  // The languages input
  // ---------------------------------------------------------------------

  /** What the languages input shows: `languages.join(', ')`. Split back at
      its commas, a non-empty list of comma-free entries gives the first
      entry, then every further entry after the space that follows its
      comma. */
  function ShowLanguages(languages: seq<string>): (text: string)
    ensures |languages| >= 1 && (forall l <- languages :: ',' !in l) ==>
      var pieces := Split(text, ',');
      && |pieces| == |languages|
      && pieces[0] == languages[0]
      && forall i | 1 <= i < |pieces| :: pieces[i] == " " + languages[i]
  {
    JoinedPieces(languages);
    Join(languages, ", ")
  }

  /** What typing `text` into the languages input stores:
      `text.split(',').map(l => l.trim())`. Whatever is typed, the list
      stored can be shown and read back. */
  function ParseLanguages(text: string): (languages: seq<string>)
    ensures Displayable(languages)
  {
    var pieces := Split(text, ',');
    TrimmedPieces(pieces);
    seq(|pieces|, i requires 0 <= i < |pieces| => Trim(pieces[i]))
  }

  /** A list the input can show and read back unchanged: at least one
      entry, each without commas and without surrounding whitespace. */
  predicate Displayable(languages: seq<string>) {
    && |languages| >= 1
    && forall l <- languages :: ',' !in l && IsTrimmed(l)
  }

  /** The pieces of the entries joined by ", ": the first entry, then every
      further entry after the space that follows its comma. */
  lemma JoinedPieces(languages: seq<string>)
    ensures |languages| >= 1 && (forall l <- languages :: ',' !in l) ==>
      var pieces := Split(Join(languages, ", "), ',');
      && |pieces| == |languages|
      && pieces[0] == languages[0]
      && forall i | 1 <= i < |pieces| :: pieces[i] == " " + languages[i]
  {
    if |languages| == 0 || exists l <- languages :: ',' in l {
    } else if |languages| == 1 {
      SplitWithoutSeparator(languages[0], ',');
    } else {
      var rest := languages[1..];
      var tail := Join(rest, [','] + " ");
      assert ", " == [','] + " ";
      assert Join(languages, ", ") == languages[0] + [','] + (" " + tail);
      assert languages[0] in languages;
      SplitAtSeparator(languages[0], " " + tail, ',');
      assert forall l <- rest :: l in languages;
      SplitPaddedJoin(rest, ',', " ");
    }
  }

  /** Trimming pieces laid out as the shown text's pieces gives back the
      entries. */
  lemma TrimPieces(pieces: seq<string>, languages: seq<string>)
    requires Displayable(languages)
    requires |pieces| == |languages| && pieces[0] == languages[0]
    requires forall i | 1 <= i < |pieces| :: pieces[i] == " " + languages[i]
    ensures seq(|pieces|, i requires 0 <= i < |pieces| => Trim(pieces[i])) == languages
  {
    forall i | 0 <= i < |pieces| ensures Trim(pieces[i]) == languages[i] {
      assert languages[i] in languages;
      if i > 0 {
        TrimAfterSpace(languages[i]);
      }
    }
  }

  /** Trimming comma-free pieces leaves comma-free, trimmed entries. */
  lemma TrimmedPieces(pieces: seq<string>)
    requires forall p <- pieces :: ',' !in p
    ensures forall i | 0 <= i < |pieces| :: ',' !in Trim(pieces[i]) && IsTrimmed(Trim(pieces[i]))
  {
    forall i | 0 <= i < |pieces|
      ensures ',' !in Trim(pieces[i]) && IsTrimmed(Trim(pieces[i]))
    {
      assert pieces[i] in pieces;
      TrimResult(pieces[i]);
    }
  }

  /** Shown and read back, a displayable list is the list itself. */
  lemma ShowThenParse(languages: seq<string>)
    requires Displayable(languages)
    ensures ParseLanguages(ShowLanguages(languages)) == languages
  {
    TrimPieces(Split(ShowLanguages(languages), ','), languages);
  }

  /** Whatever is typed, the text the input then shows reads back as the
      same list. */
  lemma ParseIsStable(text: string)
    ensures ParseLanguages(ShowLanguages(ParseLanguages(text))) == ParseLanguages(text)
  {
    ShowThenParse(ParseLanguages(text));
  }

  // ---------------------------------------------------------------------
  // Steps
  // ---------------------------------------------------------------------

  const FirstStep := 1
  const LastStep := 4

  /** `isStepValid()`: step 1 needs a name, an industry and a description,
      step 2 a phone and an email, and the API and knowledge-base steps are
      always valid. */
  predicate StepValid(step: int, f: FormState)
    ensures StepValid(step, f) ==> FirstStep <= step <= LastStep
  {
    if step == 1 then f.name != "" && f.industry != "" && f.description != ""
    else if step == 2 then f.phone != "" && f.email != ""
    else step == 3 || step == 4
  }

  /** The step after `handleNext`: it stays in 1..4 and stays put only on
      the last step. */
  function NextStep(step: int): (next: int)
    ensures FirstStep <= step <= LastStep ==> FirstStep <= next <= LastStep && (next == step <==> step == LastStep)
  {
    if step < LastStep then step + 1 else step
  }

  /** The step after `handlePrevious`: it stays in 1..4 and stays put only
      on the first step. */
  function PreviousStep(step: int): (previous: int)
    ensures FirstStep <= step <= LastStep ==> FirstStep <= previous <= LastStep && (previous == step <==> step == FirstStep)
  {
    if step > FirstStep then step - 1 else step
  }

  /** Each move undoes the other wherever the first one moved. */
  lemma StepMoves(step: int)
    requires FirstStep <= step <= LastStep
    ensures step < LastStep ==> PreviousStep(NextStep(step)) == step
    ensures step > FirstStep ==> NextStep(PreviousStep(step)) == step
  {
  }

  /** An edit of an input shown on another step leaves that step's validity
      as it was. */
  lemma EditKeepsOtherSteps(f: FormState, field: FormField, v: string, step: int)
    requires field.Step() != step
    ensures StepValid(step, SetField(f, field, v)) == StepValid(step, f)
  {
    var r := SetField(f, field, v);
    if step == 1 {
      assert FieldValue(r, NameInput) == f.name;
      assert FieldValue(r, IndustryInput) == f.industry;
      assert FieldValue(r, DescriptionInput) == f.description;
    } else if step == 2 {
      assert FieldValue(r, PhoneInput) == f.phone;
      assert FieldValue(r, EmailInput) == f.email;
    }
  }

  // ---------------------------------------------------------------------
  // The API and document lists
  // ---------------------------------------------------------------------

  /** The API properties the form edits. */
  datatype ApiField = ApiName | ApiDescription | ApiBaseUrl

  function ApiFieldValue(a: ApiConfig, field: ApiField): Option<string> {
    match field
    case ApiName => Some(a.name)
    case ApiDescription => Some(a.description)
    case ApiBaseUrl => a.baseUrl
  }

  /** `{ ...api, [field]: value }`. */
  function SetApiField(a: ApiConfig, field: ApiField, v: string): (r: ApiConfig)
    ensures ApiFieldValue(r, field) == Some(v)
    ensures forall g: ApiField | g != field :: ApiFieldValue(r, g) == ApiFieldValue(a, g)
    ensures r.endpoints == a.endpoints && r.authentication == a.authentication
  {
    match field
    case ApiName => a.(name := v)
    case ApiDescription => a.(description := v)
    case ApiBaseUrl => a.(baseUrl := Some(v))
  }

  /** The document properties the form edits. */
  datatype DocumentField = DocumentTitle | DocumentCategory | DocumentContent

  function DocumentFieldValue(d: DocumentChunk, field: DocumentField): string {
    match field
    case DocumentTitle => d.title
    case DocumentCategory => d.category
    case DocumentContent => d.content
  }

  /** `{ ...doc, [field]: value }`; the id and tags are never edited. */
  function SetDocumentField(d: DocumentChunk, field: DocumentField, v: string): (r: DocumentChunk)
    ensures DocumentFieldValue(r, field) == v
    ensures forall g: DocumentField | g != field :: DocumentFieldValue(r, g) == DocumentFieldValue(d, g)
    ensures r.id == d.id && r.tags == d.tags
  {
    match field
    case DocumentTitle => d.(title := v)
    case DocumentCategory => d.(category := v)
    case DocumentContent => d.(content := v)
  }

  /** The API `addAPI` appends. */
  const BlankApi := ApiConfig("", "", Some(""), [], None)

  /** The id of the `n`-th document: `doc_${n}`. */
  function DocumentId(n: nat): string {
    "doc_" + Decimal(n)
  }

  /** The document `addDocument` appends when the list holds `n - 1`. */
  function BlankDocument(n: nat): DocumentChunk {
    DocumentChunk(DocumentId(n), "", "", "", [])
  }

  /** The documents carry ids doc_1, doc_2, ... in list order. */
  predicate IdsInOrder(documents: seq<DocumentChunk>) {
    forall i | 0 <= i < |documents| :: documents[i].id == DocumentId(i + 1)
  }

  /** Different positions get different ids. */
  lemma DocumentIdInjective(m: nat, n: nat)
    requires DocumentId(m) == DocumentId(n)
    ensures m == n
  {
    assert Decimal(m) == DocumentId(m)[4..];
    assert Decimal(n) == DocumentId(n)[4..];
    DecimalInjective(m, n);
  }

  /** Ids given in order are pairwise distinct. */
  lemma IdsDistinct(documents: seq<DocumentChunk>, i: nat, j: nat)
    requires IdsInOrder(documents)
    requires i < j < |documents|
    ensures documents[i].id != documents[j].id
  {
    if documents[i].id == documents[j].id {
      DocumentIdInjective(i + 1, j + 1);
    }
  }

  // ---------------------------------------------------------------------
  // Completion
  // ---------------------------------------------------------------------

  /** `{ ...enterpriseInfo, apis, documents }`: the object `handleNext`
      passes to `createConfig`. It has no SIP properties and no categories. */
  function WizardInput(f: FormState, apis: seq<ApiConfig>, documents: seq<DocumentChunk>): FormInput {
    FormInput(
      Some(f.name), Some(f.industry), Some(f.description), Some(f.headquarters), Some(f.website),
      Some(f.supportHours), Some(f.languages),
      Some(f.phone), Some(f.email), Some(f.whatsapp), Some(f.chat),
      false, None, None, None, None,
      Some(apis), Some(documents), None,
      Some(f.tone), Some(f.language), Some(f.responseStyle))
  }

  /** The configuration the wizard completes with keeps the form's
      languages, APIs and documents as they are, has no SIP block and no
      categories, and passes the manager's validation exactly when the name
      and industry were filled in. */
  lemma WizardConfig(f: FormState, apis: seq<ApiConfig>, documents: seq<DocumentChunk>, env: Env)
    ensures var c := BuildConfig(WizardInput(f, apis, documents), env);
      && c.enterprise.Some? && c.enterprise.value.languages == Some(f.languages)
      && c.enterprise.value.sipConfig.None?
      && c.apis == Some(apis)
      && c.knowledgeBase.Some? && c.knowledgeBase.value.documents == Some(documents)
      && c.knowledgeBase.value.categories == Some([])
      && (ValidationError(Some(c)) == None <==> f.name != "" && f.industry != "")
  {
    CreatedConfigValidation(WizardInput(f, apis, documents), env);
  }

  // ---------------------------------------------------------------------
  // The wizard object
  // ---------------------------------------------------------------------

  class EnterpriseSetupWizard {
    var currentStep: int
    var form: FormState
    var apis: seq<ApiConfig>
    var documents: seq<DocumentChunk>
    const manager: EnterpriseConfigManager

    /** The step stays in 1..4 and documents keep their ids in order. */
    predicate Valid()
      reads this
    {
      FirstStep <= currentStep <= LastStep && IdsInOrder(documents)
    }

    /** Every step before the current one was valid when it was left, and
        its inputs have not been shown since. */
    predicate Gated()
      reads this
    {
      (currentStep > 1 ==> StepValid(1, form)) && (currentStep > 2 ==> StepValid(2, form))
    }

    constructor ()
      ensures Valid() && Gated()
      ensures currentStep == FirstStep && form == InitialForm && apis == [] && documents == []
      ensures fresh(manager) && manager.config == None
    {
      currentStep := FirstStep;
      form := InitialForm;
      apis := [];
      documents := [];
      manager := new EnterpriseConfigManager();
    }

    /** The Next button is enabled exactly when the current step is valid. */
    function NextEnabled(): bool
      reads this
      ensures NextEnabled() && currentStep == 1 ==> form.name != "" && form.industry != ""
    {
      StepValid(currentStep, form)
    }

    /** The Previous button is disabled on the first step. */
    function PreviousEnabled(): bool
      reads this
      ensures Valid() ==> (PreviousEnabled() <==> PreviousStep(currentStep) != currentStep)
    {
      currentStep != FirstStep
    }

    /** `handleNext`: moves to the next step, or on the last step creates the
        configuration from the form and the two lists and returns it (the
        value passed to `onConfigComplete`). */
    method HandleNext(env: Env) returns (completed: Option<Config>)
      requires Valid()
      modifies this, manager
      ensures Valid()
      ensures currentStep == NextStep(old(currentStep))
      ensures form == old(form) && apis == old(apis) && documents == old(documents)
      ensures old(currentStep) < LastStep ==> completed.None? && manager.config == old(manager.config)
      ensures old(currentStep) == LastStep ==>
        && completed == Some(BuildConfig(WizardInput(form, apis, documents), env))
        && manager.config == completed
      ensures old(Gated()) && old(NextEnabled()) ==> Gated()
      ensures old(Gated()) && completed.Some? ==> ValidationError(completed) == None
    {
      if currentStep < LastStep {
        currentStep := currentStep + 1;
        completed := None;
      } else {
        var c := manager.CreateConfig(WizardInput(form, apis, documents), env);
        completed := Some(c);
        if Gated() {
          WizardConfig(form, apis, documents, env);
        }
      }
    }

    /** `handlePrevious`. */
    method HandlePrevious()
      requires Valid()
      modifies this
      ensures Valid()
      ensures currentStep == PreviousStep(old(currentStep))
      ensures form == old(form) && apis == old(apis) && documents == old(documents)
      ensures old(Gated()) ==> Gated()
    {
      if currentStep > FirstStep {
        currentStep := currentStep - 1;
      }
    }

    /** Typing into a text input. Done on the input's own step, it keeps every
        earlier step valid. */
    method Edit(field: FormField, value: string)
      requires Valid()
      modifies this
      ensures Valid()
      ensures form == SetField(old(form), field, value)
      ensures currentStep == old(currentStep) && apis == old(apis) && documents == old(documents)
      ensures old(Gated()) && field.Step() == currentStep ==> Gated()
    {
      form := SetField(form, field, value);
      if field.Step() == currentStep == 2 {
        EditKeepsOtherSteps(old(form), field, value, 1);
      }
    }

    /** Typing into the languages input. */
    method EditLanguages(text: string)
      requires Valid()
      modifies this
      ensures Valid()
      ensures form == old(form).(languages := ParseLanguages(text))
      ensures Displayable(form.languages)
      ensures currentStep == old(currentStep) && apis == old(apis) && documents == old(documents)
      ensures old(Gated()) ==> Gated()
    {
      ParseIsStable(text);
      form := form.(languages := ParseLanguages(text));
    }

    /** `addAPI`. */
    method AddApi()
      requires Valid()
      modifies this
      ensures Valid()
      ensures apis == old(apis) + [BlankApi]
      ensures currentStep == old(currentStep) && form == old(form) && documents == old(documents)
    {
      apis := apis + [BlankApi];
    }

    /** `addDocument`: the new document's id is `doc_` and the new length. */
    method AddDocument()
      requires Valid()
      modifies this
      ensures Valid()
      ensures documents == old(documents) + [BlankDocument(|old(documents)| + 1)]
      ensures currentStep == old(currentStep) && form == old(form) && apis == old(apis)
    {
      documents := documents + [BlankDocument(|documents| + 1)];
    }

    /** `updateAPI(index, field, value)`: a copy of the list with one
        property of one element replaced. */
    method UpdateApi(index: nat, field: ApiField, value: string)
      requires Valid()
      requires index < |apis|
      modifies this
      ensures Valid()
      ensures |apis| == |old(apis)|
      ensures apis[index] == SetApiField(old(apis)[index], field, value)
      ensures forall i | 0 <= i < |apis| && i != index :: apis[i] == old(apis)[i]
      ensures currentStep == old(currentStep) && form == old(form) && documents == old(documents)
    {
      apis := apis[index := SetApiField(apis[index], field, value)];
    }

    /** `updateDocument(index, field, value)`; ids are not editable, so they
        stay in order. */
    method UpdateDocument(index: nat, field: DocumentField, value: string)
      requires Valid()
      requires index < |documents|
      modifies this
      ensures Valid()
      ensures |documents| == |old(documents)|
      ensures documents[index] == SetDocumentField(old(documents)[index], field, value)
      ensures forall i | 0 <= i < |documents| && i != index :: documents[i] == old(documents)[i]
      ensures currentStep == old(currentStep) && form == old(form) && apis == old(apis)
    {
      documents := documents[index := SetDocumentField(documents[index], field, value)];
    }
  }
}
