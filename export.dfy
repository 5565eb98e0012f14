/**
 * The parsed JSON of a Dialogflow CX agent export, as far as the linter reads
 * it. A field of type `Option` is a key that may be absent (`dict.get(key,
 * None)` gives `None`); a record that the linter tests for truthiness carries
 * `otherKeys`, standing for keys the linter never reads, so that the empty
 * object `{}` is representable. Directory listings and file contents are
 * supplied as these values instead of being read from disk.
 */
module Export {
  import opened Wrappers

  /** An arbitrary JSON value (session parameter values are stored as they come). */
  datatype Json =
    | JNull
    | JBool(b: bool)
    | JNumber(n: int)
    | JString(s: string)
    | JArray(items: seq<Json>)
    | JObject(keys: seq<string>, values: seq<Json>)

  /**
   * One element of a fulfillment's `messages` or `setParameterActions` list:
   * `text` is the inner list of `{"text": {"text": [...]}}`; `parameter` and
   * `value` are the keys of a parameter preset.
   */
  datatype Item = Item(text: Option<seq<string>>, parameter: Option<string>, value: Option<Json>)

  /** A `triggerFulfillment` or `entryFulfillment` object; `webhook` is the webhook key. */
  datatype FulfillmentData = FulfillmentData(
    messages: Option<seq<Item>>,
    setParameterActions: Option<seq<Item>>,
    webhook: Option<string>,
    otherKeys: bool)
  {
    /** Python truthiness of the dict: it has at least one key. */
    predicate Truthy() {
      messages.Some? || setParameterActions.Some? || webhook.Some? || otherKeys
    }
  }

  /** A transition route, an event handler or a reprompt event handler. */
  datatype RouteData = RouteData(
    intent: Option<string>,
    condition: Option<string>,
    event: Option<string>,
    targetPage: Option<string>,
    targetFlow: Option<string>,
    triggerFulfillment: Option<FulfillmentData>)

  datatype FillBehavior = FillBehavior(
    initialPromptFulfillment: Option<FulfillmentData>,
    repromptEventHandlers: Option<seq<RouteData>>,
    otherKeys: bool)
  {
    predicate Truthy() {
      initialPromptFulfillment.Some? || repromptEventHandlers.Some? || otherKeys
    }
  }

  datatype AdvancedSettings = AdvancedSettings(dtmfSettings: Option<Json>, otherKeys: bool)
  {
    predicate Truthy() {
      dtmfSettings.Some? || otherKeys
    }
  }

  /** One element of `form.parameters`. */
  datatype ParameterData = ParameterData(
    displayName: Option<string>,
    entityType: Option<string>,
    required: Option<bool>,
    fillBehavior: Option<FillBehavior>)

  datatype FormData = FormData(parameters: Option<seq<ParameterData>>, advancedSettings: Option<AdvancedSettings>)

  /** A page file, or the flow file that holds the flow's start page. */
  datatype PageData = PageData(
    name: Option<string>,
    entryFulfillment: Option<FulfillmentData>,
    eventHandlers: Option<seq<RouteData>>,
    form: Option<FormData>,
    transitionRoutes: Option<seq<RouteData>>,
    transitionRouteGroups: Option<seq<string>>)

  datatype PageFile = PageFile(path: string, data: PageData)

  /** A file of the `transitionRouteGroups` directory of a flow. */
  datatype RouteGroupFile = RouteGroupFile(
    path: string,
    name: Option<string>,
    displayName: string,
    transitionRoutes: Option<seq<RouteData>>)

  /**
   * A flow directory: its path, the parsed flow file, and the page and route
   * group files when the `pages` and `transitionRouteGroups` directories exist.
   */
  datatype FlowDir = FlowDir(
    dirPath: string,
    flowFile: PageData,
    pages: Option<seq<PageFile>>,
    routeGroups: Option<seq<RouteGroupFile>>)

  /** A training phrase; `parts` elements carry an optional `text`. */
  datatype Part = Part(text: Option<string>)
  datatype TrainingPhrase = TrainingPhrase(parts: Option<seq<Part>>)

  /** A language file of an intent's `trainingPhrases` directory. */
  datatype TpFile = TpFile(trainingPhrases: Option<seq<TrainingPhrase>>)

  /** The metadata file `<display name>.json` of an intent. */
  datatype IntentMetadata = IntentMetadata(name: Option<string>, labels: Option<Json>, description: Option<string>)

  /**
   * An intent directory: the metadata file when it exists, the file names
   * of its `trainingPhrases` directory when that directory exists (in
   * listing order), and the parsed language files by path.
   */
  datatype IntentDir = IntentDir(
    dirPath: string,
    metadata: Option<IntentMetadata>,
    trainingPhrases: Option<seq<string>>,
    tpFiles: map<string, TpFile>)

  /** A test case conversation turn. */
  datatype TextInput = TextInput(text: string)
  datatype InputData = InputData(text: Option<TextInput>)
  datatype UserInput = UserInput(input: Option<InputData>)
  /** `virtualAgentOutput`; `triggeredIntent` is the name of the intent object when it is present. */
  datatype AgentOutput = AgentOutput(triggeredIntent: Option<string>)
  datatype Turn = Turn(userInput: UserInput, virtualAgentOutput: AgentOutput)

  datatype TestCaseFile = TestCaseFile(
    name: Option<string>,
    displayName: Option<string>,
    tags: Option<seq<string>>,
    testCaseConversationTurns: Option<seq<Turn>>,
    testConfig: Option<Json>)

  /** An entity: its `value` and `synonyms` keys; either may be a string, a list or anything else. */
  datatype EntityData = EStr(s: string) | EList(items: seq<string>) | EOther
  datatype Entity = Entity(value: EntityData, synonyms: EntityData)
}
