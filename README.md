# Enterprise voice-agent configuration, modelled in Dafny

This project models the enterprise configuration layer of a browser voice-agent
application, which is written in TypeScript and React. The layer has four parts:

- **`EnterpriseConfigManager`** holds one mutable configuration.
  - `createConfig` builds a full configuration from flat form input. It fills defaults with JavaScript `||`, picks an industry template (falling back to retail), derives names, writes the agent instructions, and adds a SIP block when SIP is enabled.
  - `validateConfig` checks six required properties in a fixed order.
  - It also edits the configuration in place (`addAPI`, `addDocument`, `updateEnterpriseInfo`), imports it from JSON and summarises it.
- **`INDUSTRY_TEMPLATES`** and the closed string unions of the configuration types.
- **`EnterpriseSetupWizard`** is a four-step form. Its step counter moves under Next and Previous, gated by per-step validity. It keeps editable lists of APIs and documents and hands everything to `createConfig` at the end.
- **`EnterpriseFileLoader`** checks a configuration file with its own four-guard validator. It keeps `isLoading`, `error` and `selectedFile` state around the load.

Modules, one per concern:

- `JsValues` (js_values.dfy) covers JavaScript's view of values:
  - absent properties as `Option`;
  - truthiness of strings (present and non-empty);
  - `x || d`;
  - `${x}` printing `undefined`;
  - thrown errors as `Result` messages, with V8's TypeError wording.
- `Text` (text.dfy) holds the string built-ins the code uses: `join`, `split` on one character, `trim`, and decimal rendering.
- `EnterpriseConfig` (enterprise_config.dfy) holds the types, the enumerations and the template table.
- `Requirements` (requirements.dfy) is the shared guard-and-throw pattern of both validators.
- `ConfigManager` (config_manager.dfy) has specification functions plus the class `EnterpriseConfigManager`.
- `SetupWizard` (setup_wizard.dfy) has the class `EnterpriseSetupWizard`.
- `FileLoader` (file_loader.dfy) has the class `EnterpriseFileLoader`.

The stateful parts are classes whose methods change their fields:

- the manager's `config`;
- the wizard's step, form and lists;
- the loader's flags.

Each method is specified by pure functions, and the properties are lemmas about those functions. Truthiness follows the code. A string default applies when the string is absent or empty. An array default (`languages`, `apis`, `documents`, `categories`) applies only when the array is absent, because an empty JavaScript array is truthy.

## Model

| member | source | states |
|---|---|---|
| EnterpriseConfig.ParseHttpMethod | src/framework/types/EnterpriseConfig.ts:35 | an endpoint method is exactly one of GET, POST, PUT, DELETE, and each reads back as its own literal |
| EnterpriseConfig.ParseTone | src/framework/types/EnterpriseConfig.ts:73 | a tone is exactly one of the four literals, each read back as itself |
| EnterpriseConfig.ParseResponseStyle | src/framework/types/EnterpriseConfig.ts:75 | a response style is exactly one of the three literals, each read back as itself |
| EnterpriseConfig.OwnTemplateKeys | src/framework/types/EnterpriseConfig.ts:98-171 | the table has its own entries for exactly airline, hotel, bank and retail |
| EnterpriseConfig.TemplateCapabilities | src/framework/types/EnterpriseConfig.ts:98-171 | every template lists exactly eight capabilities, none with a line break |
| EnterpriseConfig.TemplateDefaultApis | src/framework/types/EnterpriseConfig.ts:111-131 | only airline has default APIs: one API with one GET endpoint on /flights/status whose three parameters are optional strings |
| EnterpriseConfig.TemplateFor | src/framework/EnterpriseConfigManager.ts:21 | the template used is the table's own entry for the industry when there is one, and retail otherwise |
| EnterpriseConfig.CapabilitiesAsWritten | src/framework/EnterpriseConfigManager.ts:21 | the lookup as written agrees with the corrected one for every industry that is not an Object.prototype member name |
| EnterpriseConfig.PrototypeKeyThrows | src/framework/EnterpriseConfigManager.ts:21 | for an industry such as "constructor", the corrected lookup gives retail but the lookup as written throws a TypeError |
| Text.Split | src/framework/EnterpriseSetupWizard.tsx:207 | `split(',')` yields at least one piece, no piece holds a comma, and the pieces joined by commas are the input |
| Text.ContentStart | src/framework/EnterpriseSetupWizard.tsx:207 | the scan for where `trim` starts skips only whitespace and stops at the first character that is not whitespace, or at the end |
| Text.ContentEnd | src/framework/EnterpriseSetupWizard.tsx:207 | the scan for where `trim` ends skips only trailing whitespace and stops just after the last character that is not whitespace, or at the start |
| Text.TrimLayout | src/framework/EnterpriseSetupWizard.tsx:207 | `trim` returns the input with only whitespace cut off: the result sits inside the input, and everything before and after it is whitespace |
| Text.TrimResult | src/framework/EnterpriseSetupWizard.tsx:207 | `trim` keeps only characters of its input, leaves no whitespace at either end, and is idempotent |
| Requirements.FirstUnmet | src/framework/EnterpriseConfigManager.ts:146-158 | a guard chain stops at the first unmet requirement: all earlier ones are met and that one is not |
| Requirements.FirstFailure | src/framework/EnterpriseConfigManager.ts:146-158 | the requirement a guard chain reports is always one of its own checks, and one the configuration fails |
| Requirements.FirstFailureIsFirst | src/framework/EnterpriseConfigManager.ts:146-158 | a guard chain reports a requirement exactly when it is unmet and all earlier ones are met, and passes exactly when all are met |
| ConfigManager.GenerateInstructions | src/framework/EnterpriseConfigManager.ts:115-137 | the instructions are their lines joined by line breaks and open with the heading naming the enterprise |
| ConfigManager.PhoneSectionAppended | src/framework/EnterpriseConfigManager.ts:124-135 | with SIP enabled, the instructions are those without SIP, then a blank line, then the phone-call section |
| ConfigManager.InstructionsLayout | src/framework/EnterpriseConfigManager.ts:115-137 | the instructions hold the heading, then one "- cap" line per template capability in order, then the closing lines, and the eight phone-call lines exactly when SIP is enabled |
| ConfigManager.BulletBlockLines | src/framework/EnterpriseConfigManager.ts:118 | the capability block, split at line breaks, is exactly the "- cap" lines |
| ConfigManager.BuildConfig | src/framework/EnterpriseConfigManager.ts:20-72 | the created configuration has every section the summary reads (enterprise, apis, knowledge base with documents, voice agent with capabilities, tools) |
| ConfigManager.CreateConfigTemplate | src/framework/EnterpriseConfigManager.ts:21-68 | the agent's capabilities are the input industry's template's list, or retail's, while the stored industry is the input's own |
| ConfigManager.CreateConfigDefaults | src/framework/EnterpriseConfigManager.ts:30-71 | both halves of each `\|\|`: support hours '24/7' when empty or absent and kept otherwise; languages ['English'] and apis, documents and categories [] when absent and kept (even empty) when given; tone, language and style defaults when not given and kept when given; no tools |
| ConfigManager.CreateConfigDerived | src/framework/EnterpriseConfigManager.ts:25-61 | the knowledge-base and agent names derive from the name, and the SIP block is present exactly when SIP is enabled, with the project id from the environment or 'PROJECT_ID' |
| ConfigManager.ManagerValidation | src/framework/EnterpriseConfigManager.ts:143-160 | validation passes exactly when enterprise, knowledgeBase, voiceAgent, a non-empty name, a non-empty industry and contactInfo are all present |
| ConfigManager.ManagerValidationOrder | src/framework/EnterpriseConfigManager.ts:146-158 | the k-th property is reported exactly when it is missing and all earlier ones are present |
| ConfigManager.EnterpriseFieldReported | src/framework/EnterpriseConfigManager.ts:154-158 | with the sections and contact info present, a missing name is reported before a missing industry, and otherwise validation passes |
| ConfigManager.CreatedConfigValidation | src/framework/EnterpriseConfigManager.ts:20-160 | a created configuration passes validation exactly when name and industry are non-empty, and otherwise names the first of them missing |
| ConfigManager.AppendApi | src/framework/EnterpriseConfigManager.ts:100 | the push succeeds exactly when `apis` exists, appends the one API at the end and changes nothing else, and otherwise throws reading 'push' |
| ConfigManager.AppendDocument | src/framework/EnterpriseConfigManager.ts:109 | the push succeeds exactly when the knowledge base and its documents exist, appends one document and changes nothing else, and otherwise throws reading 'documents' or 'push' |
| ConfigManager.Merge | src/framework/EnterpriseConfigManager.ts:91 | every property the patch gives takes the patch's value, and every other property keeps its value |
| ConfigManager.MergeKeepsValidation | src/framework/EnterpriseConfigManager.ts:88-92 | a patch leaving name, industry and contactInfo alone does not change the validation outcome |
| ConfigManager.Summarize | src/framework/EnterpriseConfigManager.ts:185-198 | the counts are the list lengths; sipEnabled is true exactly when a SIP block is present and enabled; the SIP phone number is reported exactly when it is truthy, and null otherwise; reading through a missing property throws |
| ConfigManager.CreatedConfigSummary | src/framework/EnterpriseConfigManager.ts:185-198 | a created configuration summarises to its name and industry, its API and document counts, 8 capabilities, 0 tools and its SIP setting |
| ConfigManager.AppendApiEffect | src/framework/EnterpriseConfigManager.ts:97-101 | appending an API raises the API count by one and leaves the rest of the summary and the validation outcome unchanged |
| ConfigManager.AppendDocumentEffect | src/framework/EnterpriseConfigManager.ts:106-110 | appending a document raises the document count by one and leaves the rest of the summary and the validation outcome unchanged |
| ConfigManager.EnterpriseConfigManager.constructor | src/framework/EnterpriseConfigManager.ts:7 | a new manager holds no configuration |
| ConfigManager.EnterpriseConfigManager.LoadConfig | src/framework/EnterpriseConfigManager.ts:12-15 | the value is stored even when it then fails validation, and the error is validation's |
| ConfigManager.EnterpriseConfigManager.CreateConfig | src/framework/EnterpriseConfigManager.ts:20-76 | the built configuration becomes the current one and is returned |
| ConfigManager.EnterpriseConfigManager.GetConfig | src/framework/EnterpriseConfigManager.ts:81-83 | returns the current configuration, so after CreateConfig it returns the created one |
| ConfigManager.EnterpriseConfigManager.UpdateEnterpriseInfo | src/framework/EnterpriseConfigManager.ts:88-92 | without a configuration it throws 'No configuration loaded' and changes nothing; otherwise the enterprise becomes the merge |
| ConfigManager.EnterpriseConfigManager.AddApi | src/framework/EnterpriseConfigManager.ts:97-101 | 'No configuration loaded' without a configuration; otherwise the configuration becomes the append or stays as it was with the TypeError |
| ConfigManager.EnterpriseConfigManager.AddDocument | src/framework/EnterpriseConfigManager.ts:106-110 | the same for documents |
| ConfigManager.EnterpriseConfigManager.ValidateConfig | src/framework/EnterpriseConfigManager.ts:143-160 | the two loops report exactly the first missing property of the fixed order, with the two message forms |
| ConfigManager.EnterpriseConfigManager.ImportConfig | src/framework/EnterpriseConfigManager.ts:173-180 | any parse or validation failure gives 'Invalid JSON configuration'; a parsed value stays stored even when invalid; a rejected parse leaves the configuration unchanged |
| ConfigManager.EnterpriseConfigManager.GetConfigSummary | src/framework/EnterpriseConfigManager.ts:185-198 | null without a configuration, otherwise the summary of the current one |
| SetupWizard.SetField | src/framework/EnterpriseSetupWizard.tsx:95-196 | typing into an input sets that property and keeps every other one |
| SetupWizard.ShowLanguages | src/framework/EnterpriseSetupWizard.tsx:206 | the shown text of comma-free entries splits at its commas into the first entry and each further entry after a space |
| SetupWizard.ParseLanguages | src/framework/EnterpriseSetupWizard.tsx:207 | whatever is typed, the stored list is non-empty and its entries are comma-free and trimmed |
| SetupWizard.ShowThenParse | src/framework/EnterpriseSetupWizard.tsx:206-207 | a list of trimmed, comma-free languages, shown joined by ', ' and typed back, parses to itself |
| SetupWizard.ParseIsStable | src/framework/EnterpriseSetupWizard.tsx:206-207 | whatever is typed, the text the input then shows reads back to the same list |
| SetupWizard.StepValid | src/framework/EnterpriseSetupWizard.tsx:388-401 | no step outside 1..4 is ever valid (the `default` case) |
| SetupWizard.NextStep | src/framework/EnterpriseSetupWizard.tsx:35-47 | Next keeps the step in 1..4 and stays put exactly on step 4 |
| SetupWizard.PreviousStep | src/framework/EnterpriseSetupWizard.tsx:49-53 | Previous keeps the step in 1..4 and stays put exactly on step 1 |
| SetupWizard.StepMoves | src/framework/EnterpriseSetupWizard.tsx:35-53 | Next and Previous undo each other wherever the first one moved |
| SetupWizard.EditKeepsOtherSteps | src/framework/EnterpriseSetupWizard.tsx:388-401 | editing an input of one step does not change the validity of another step |
| SetupWizard.SetApiField | src/framework/EnterpriseSetupWizard.tsx:74-78 | updating an API sets the named property and keeps the other properties, endpoints and authentication |
| SetupWizard.SetDocumentField | src/framework/EnterpriseSetupWizard.tsx:80-84 | updating a document sets the named property and keeps the other properties, id and tags |
| SetupWizard.DocumentIdInjective | src/framework/EnterpriseSetupWizard.tsx:66 | different positions get different `doc_n` ids |
| SetupWizard.IdsDistinct | src/framework/EnterpriseSetupWizard.tsx:64-72 | documents whose ids are doc_1..doc_n in order have pairwise distinct ids |
| SetupWizard.WizardConfig | src/framework/EnterpriseSetupWizard.tsx:39-45 | the completed configuration keeps the form's languages, APIs and documents, has no SIP block and no categories, and passes validation exactly when name and industry were filled in |
| SetupWizard.EnterpriseSetupWizard.constructor | src/framework/EnterpriseSetupWizard.tsx:13-33 | the wizard starts at step 1 with the initial form, no APIs and no documents |
| SetupWizard.EnterpriseSetupWizard.NextEnabled | src/framework/EnterpriseSetupWizard.tsx:460 | Next is enabled on step 1 only when the name and the industry that validation needs are filled in |
| SetupWizard.EnterpriseSetupWizard.PreviousEnabled | src/framework/EnterpriseSetupWizard.tsx:445 | Previous is enabled exactly when pressing it would move |
| SetupWizard.EnterpriseSetupWizard.HandleNext | src/framework/EnterpriseSetupWizard.tsx:35-47 | below step 4 it advances; at step 4 it stays, creates the configuration from the form and both lists, and returns it; a wizard that only moved through enabled Next buttons completes with a configuration that passes validation |
| SetupWizard.EnterpriseSetupWizard.HandlePrevious | src/framework/EnterpriseSetupWizard.tsx:49-53 | above step 1 it goes back one step, and otherwise changes nothing |
| SetupWizard.EnterpriseSetupWizard.Edit | src/framework/EnterpriseSetupWizard.tsx:95-196 | the form becomes the edited form; an edit made on the input's own step keeps every earlier step valid |
| SetupWizard.EnterpriseSetupWizard.EditLanguages | src/framework/EnterpriseSetupWizard.tsx:207 | the languages become the parsed text, which is always displayable |
| SetupWizard.EnterpriseSetupWizard.AddApi | src/framework/EnterpriseSetupWizard.tsx:55-62 | appends one blank API with no endpoints |
| SetupWizard.EnterpriseSetupWizard.AddDocument | src/framework/EnterpriseSetupWizard.tsx:64-72 | appends one blank document whose id is doc_ followed by the new length, so ids stay doc_1..doc_n |
| SetupWizard.EnterpriseSetupWizard.UpdateApi | src/framework/EnterpriseSetupWizard.tsx:74-78 | only element `index` changes, by one property, and the length is kept |
| SetupWizard.EnterpriseSetupWizard.UpdateDocument | src/framework/EnterpriseSetupWizard.tsx:80-84 | only element `index` changes, by one property, and the ids stay in order |
| FileLoader.LoaderFirstFailure | src/framework/EnterpriseFileLoader.tsx:111-124 | the loader's validator reports the first of enterprise, name, voice agent and knowledge base that is missing, with its own message |
| FileLoader.ValidateLoaded | src/framework/EnterpriseFileLoader.tsx:111-124 | the loader accepts exactly the configurations with an enterprise, a non-empty name, a voice agent and a knowledge base; a JSON null throws reading 'enterprise' |
| FileLoader.ManagerStricter | src/framework/EnterpriseFileLoader.tsx:111-124 | whatever the manager's validator accepts, the loader's accepts |
| FileLoader.LoaderLaxer | src/framework/EnterpriseFileLoader.tsx:111-124 | the loader accepts a configuration without an industry, which the manager rejects naming the industry |
| FileLoader.DownloadTemplateValidates | src/framework/EnterpriseFileLoader.tsx:127-195 | the downloadable example passes both the loader's and the manager's validation |
| FileLoader.LoadOutcome | src/framework/EnterpriseFileLoader.tsx:96-106 | the load succeeds exactly when the file parsed and passed validation, with the parsed configuration; a read or parse error keeps its message, and a file that fails validation gets the validator's own message |
| FileLoader.EnterpriseFileLoader.constructor | src/framework/EnterpriseFileLoader.tsx:75-77 | not loading, no error, no file |
| FileLoader.EnterpriseFileLoader.LoadEnabled | src/framework/EnterpriseFileLoader.tsx:297 | the Load button is enabled only with a file selected (and no load running) |
| FileLoader.EnterpriseFileLoader.HandleFileSelect | src/framework/EnterpriseFileLoader.tsx:79-85 | the first chosen file becomes the selection and clears the error; choosing nothing changes nothing |
| FileLoader.EnterpriseFileLoader.BeginLoad | src/framework/EnterpriseFileLoader.tsx:87-94 | without a file, the error is 'Please select a configuration file' and no load starts; otherwise loading starts with the error cleared; a click on an enabled button always starts a load, and the button is disabled afterwards |
| FileLoader.EnterpriseFileLoader.FinishLoad | src/framework/EnterpriseFileLoader.tsx:96-108 | loading ends on every path, re-enabling the button; on success the configuration is returned for the callback, otherwise the error is 'Failed to load configuration: ' and the message |
| FileLoader.EnterpriseFileLoader.HandleLoadConfig | src/framework/EnterpriseFileLoader.tsx:87-109 | the whole handler: the callback value exists only for a configuration that passed validation, and loading is false at the end of every started load |

## Findings

| source | as written | input that shows it | evidently intended | confidence | as-written member | corrected member |
|---|---|---|---|---|---|---|
| src/framework/EnterpriseConfigManager.ts:21 | `INDUSTRY_TEMPLATES[industry] \|\| INDUSTRY_TEMPLATES.retail` indexes a plain object literal, so inherited Object.prototype members are found as well | industry "constructor" (or "toString", "__proto__", ...): the inherited member is truthy, so retail is not used, and `template.capabilities.map` in `generateInstructions` throws a TypeError | every industry without its own template falls back to retail | not executed | EnterpriseConfig.CapabilitiesAsWritten | EnterpriseConfig.TemplateFor |

`EnterpriseConfig.PrototypeKeyThrows` exhibits the discrepancy. `ConfigManager.BuildConfig` uses the corrected lookup.

## Left out

- `exportConfig`, `JSON.stringify` and the Blob/URL/DOM download in `downloadTemplate` are foreign calls with no logic of their own. The downloaded object itself is modelled.
- Reading a file (`File.text()`) and `JSON.parse` are one abstract step whose outcome is given as a parameter: a rejection message, JSON `null`, or a configuration.
  - Top-level JSON values other than `null` and objects are not modelled.
  - Neither are properties whose JSON type differs from the declared one, such as a numeric `name`.
- `process.env.OPENAI_PROJECT_ID` and `process.env.SERVER_URL` are a parameter (`Env`).
- The `onConfigComplete` and `onConfigLoaded` callbacks are modelled as the value a method returns.
- React state updates are applied at once within each handler. `handleLoadConfig` is split at its `await` into `BeginLoad` and `FinishLoad`.
- JSX rendering and styling are not modelled. Which inputs a step shows is kept only as each input's step.
- `ToolConfig.config` (typed `any`) is not modelled; no code reads it.
- `similarityThreshold` is carried as the constant 0.7 with no arithmetic.
- `sipEnabled` is a boolean; other truthy values are not modelled.
- ConfigManager.EnterpriseConfigManager.CreateConfig, ConfigManager.EnterpriseConfigManager.GetConfig, ConfigManager.EnterpriseConfigManager.AddApi, ConfigManager.EnterpriseConfigManager.AddDocument, ConfigManager.EnterpriseConfigManager.UpdateEnterpriseInfo: the configuration is a value, so the model copies where the source shares. The source returns the very object it stores (EnterpriseConfigManager.ts:74-75, :82), edits that object in place (:91, :100, :109) so that a configuration obtained earlier sees later edits, and stores the caller's `apis`, `documents` and `languages` arrays and the template's own `capabilities` array (:31, :49, :53, :68). That aliasing is not modelled; no caller in the modelled files observes it.
- ConfigManager.EnterprisePatch: `updateEnterpriseInfo` patches hold only the enterprise properties; extra unknown keys are not modelled.
- SetupWizard.EnterpriseSetupWizard.UpdateApi: only the three properties the form edits (name, description, baseUrl) are modelled, and `index` must be in range. In JavaScript an out-of-range index would create a sparse slot.
- SetupWizard.EnterpriseSetupWizard.UpdateDocument: only title, category and content are modelled, and `index` must be in range.
- ConfigManager.GenerateInstructions: the text is its lines joined by line breaks, which is what the template literal spells out. The model does not prove that the fixed lines, the enterprise name or the phone number contain no line break. The line-level facts are therefore stated on the line list, while the capability block is proved to split back into its lines.
- ConfigManager.Summarize: when a property on the way is missing, the contract says the message is one of the four TypeError messages, not which one goes with which missing property. The function body gives the exact order.
- The SIP call-handling relay (webhook receiver, call-id extraction, call control) is not in the modelled files; server.js is not part of this model.
