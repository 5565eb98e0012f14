/**
 * The records of `src/resources/types.py`. Records whose fields the linter
 * updates in place (`LintStats`, `Flow`, `Page`, `Intent`, `TestCase`, and the
 * `Agent` that holds session parameters) are classes; records filled once
 * (`Fulfillment`, `Resource`, `EntityType`, `Webhook`) are datatypes.
 * Attributes that default to `None` and are always assigned before they are
 * read start as the empty string.
 */
module Types {
  import opened Wrappers
  import opened Export
  import opened Graphs

  // ---------------------------------------------------------------------
  // LintStats

  /** The ten counters of `LintStats` as one value. */
  datatype Counters = Counters(
    issues: int,
    inspected: int,
    flows: int,
    pages: int,
    intents: int,
    trainingPhrases: int,
    entityTypes: int,
    routeGroups: int,
    testCases: int,
    webhooks: int)

  const ZeroCounters := Counters(0, 0, 0, 0, 0, 0, 0, 0, 0, 0)

  class LintStats {
    var totalIssues: int
    var totalInspected: int
    var totalFlows: int
    var totalPages: int
    var totalIntents: int
    var totalTrainingPhrases: int
    var totalEntityTypes: int
    var totalRouteGroups: int
    var totalTestCases: int
    var totalWebhooks: int

    /** All counters start at zero. */
    constructor ()
      ensures Counts() == ZeroCounters
    {
      totalIssues, totalInspected, totalFlows, totalPages, totalIntents := 0, 0, 0, 0, 0;
      totalTrainingPhrases, totalEntityTypes, totalRouteGroups, totalTestCases, totalWebhooks := 0, 0, 0, 0, 0;
    }

    function Counts(): Counters
      reads this
    {
      Counters(totalIssues, totalInspected, totalFlows, totalPages, totalIntents,
               totalTrainingPhrases, totalEntityTypes, totalRouteGroups, totalTestCases, totalWebhooks)
    }

    /** Since the earlier state, `di` more inspections and `dp` more issues, and as many flows and pages as before. */
    twostate predicate Bumped(di: int, dp: int)
      reads this
    {
      totalInspected == old(totalInspected) + di && totalIssues == old(totalIssues) + dp
      && totalFlows == old(totalFlows) && totalPages == old(totalPages)
    }

    /** Adds `di` inspections and `dp` issues; no other counter changes. */
    method Bump(di: int, dp: int)
      modifies this`totalInspected, this`totalIssues
      ensures Bumped(di, dp)
    {
      totalInspected := totalInspected + di;
      totalIssues := totalIssues + dp;
    }

    /** `total_pages += 1`. */
    method AddPage()
      modifies this`totalPages
      ensures totalPages == old(totalPages) + 1
    {
      totalPages := totalPages + 1;
    }

    /** `total_intents += 1`. */
    method AddIntent()
      modifies this`totalIntents
      ensures totalIntents == old(totalIntents) + 1
    {
      totalIntents := totalIntents + 1;
    }

    /** `total_test_cases += 1`. */
    method AddTestCase()
      modifies this`totalTestCases
      ensures totalTestCases == old(totalTestCases) + 1
    {
      totalTestCases := totalTestCases + 1;
    }

    /** `total_flows = n`. */
    method SetFlows(n: int)
      modifies this`totalFlows
      ensures totalFlows == n
    {
      totalFlows := n;
    }

    /** `total_route_groups = n`. */
    method SetRouteGroups(n: int)
      modifies this`totalRouteGroups
      ensures totalRouteGroups == n
    {
      totalRouteGroups := n;
    }
  }

  // ---------------------------------------------------------------------
  // Resource: what a diagnostic line is about

  datatype Resource = Resource(
    resourceType: string,
    entityTypeDisplayName: Option<string>,
    entityTypeId: Option<string>,
    flowDisplayName: Option<string>,
    flowId: Option<string>,
    intentDisplayName: Option<string>,
    intentId: Option<string>,
    pageDisplayName: Option<string>,
    pageId: Option<string>,
    testCaseDisplayName: Option<string>,
    testCaseId: Option<string>,
    webhookDisplayName: Option<string>,
    webhookId: Option<string>)

  /** `Resource()` followed by `resource.resource_type = kind`. */
  function NewResource(kind: string): (r: Resource)
    ensures r.resourceType == kind && r.flowDisplayName.None? && r.pageId.None?
  {
    Resource(kind, None, None, None, None, None, None, None, None, None, None, None, None)
  }

  /** A resource that names a page of a flow (page rules, flow rules and fulfillments). */
  function PageResource(kind: string, flowName: string, flowId: Option<string>, pageName: string, pageId: Option<string>): (r: Resource)
    ensures r.resourceType == kind && r.pageDisplayName == Some(pageName) && r.pageId == pageId
    ensures r.flowDisplayName == Some(flowName) && r.flowId == flowId
  {
    NewResource(kind).(flowDisplayName := Some(flowName), flowId := flowId,
                       pageDisplayName := Some(pageName), pageId := pageId)
  }

  // ---------------------------------------------------------------------
  // Agent, Flow, Page

  /** The history of one session parameter as presets set it. */
  datatype SessionParameter = SessionParameter(
    currentValue: Json,
    valueHistory: seq<Json>,
    currentPage: string,
    pageHistory: seq<string>)
  {
    /** The histories run in parallel and the current entries are their last elements. */
    predicate Valid() {
      |valueHistory| == |pageHistory| >= 1
      && currentValue == valueHistory[|valueHistory| - 1]
      && currentPage == pageHistory[|pageHistory| - 1]
    }
  }

  /** The agent shared by all flows of one run. */
  class Agent {
    var sessionParameters: map<string, SessionParameter>

    constructor ()
      ensures sessionParameters == map[]
    {
      sessionParameters := map[];
    }
  }

  class Flow {
    const resourceType: string := "flow"
    const agent: Agent
    const graph: Graph
    var displayName: string
    var resourceId: Option<string>
    var filtered: bool
    var allPages: set<string>
    var activePages: set<string>
    var danglingPages: set<string>
    var unusedPages: set<string>
    var unreachablePages: set<string>
    /** Page display name to the page's resource id. */
    var data: map<string, Option<string>>

    /** A fresh graph and fresh, empty page sets and data map; not filtered. */
    constructor (agent: Agent)
      ensures this.agent == agent && fresh(graph)
      ensures graph.nodes == {} && graph.edges == map[] && graph.usedNodes == {}
      ensures allPages == {} && activePages == {} && danglingPages == {}
      ensures unusedPages == {} && unreachablePages == {} && data == map[]
      ensures !filtered && resourceId == None && displayName == ""
    {
      this.agent := agent;
      graph := new Graph();
      displayName := "";
      resourceId := None;
      filtered := false;
      allPages, activePages, danglingPages, unusedPages, unreachablePages := {}, {}, {}, {}, {};
      data := map[];
    }

    /** Since the earlier state, the name, the filter flag and the four analysis sets are as they were. */
    twostate predicate KeepsAnalysis()
      reads this
    {
      displayName == old(displayName) && filtered == old(filtered) && activePages == old(activePages)
      && danglingPages == old(danglingPages) && unusedPages == old(unusedPages) && unreachablePages == old(unreachablePages)
    }

    /** Since the earlier state, the graph's nodes, the id, the page names, the data map and the analysis are as they were. */
    twostate predicate KeepsPages()
      reads this, graph
    {
      graph.nodes == old(graph.nodes) && resourceId == old(resourceId) && allPages == old(allPages)
      && data == old(data) && KeepsAnalysis()
    }
  }

  /** A page, the start page of a flow, or a route group (which the linter treats as a page). */
  class Page {
    const resourceType: string := "page"
    const flow: Flow
    var displayName: string
    var resourceId: Option<string>
    var hasWebhook: bool
    var hasWebhookEventHandler: bool
    /** The `entryFulfillment`, `eventHandlers`, `form`, `transitionRoutes` and `transitionRouteGroups` of the page file. */
    var entry: Option<FulfillmentData>
    var events: Option<seq<RouteData>>
    var form: Option<FormData>
    var routes: Option<seq<RouteData>>
    var routeGroups: Option<seq<string>>

    constructor (flow: Flow)
      ensures this.flow == flow && displayName == "" && resourceId == None
      ensures !hasWebhook && !hasWebhookEventHandler
      ensures entry == None && events == None && form == None && routes == None && routeGroups == None
    {
      this.flow := flow;
      displayName := "";
      resourceId := None;
      hasWebhook := false;
      hasWebhookEventHandler := false;
      entry, events, form, routes, routeGroups := None, None, None, None, None;
    }

    /** Since the earlier state, the page's name, id and file keys and its flow's name and id are as they were. */
    twostate predicate KeepsData()
      reads this, flow
    {
      displayName == old(displayName) && resourceId == old(resourceId) && entry == old(entry) && events == old(events)
      && form == old(form) && routes == old(routes) && routeGroups == old(routeGroups)
      && flow.displayName == old(flow.displayName) && flow.resourceId == old(flow.resourceId)
    }
  }

  // ---------------------------------------------------------------------
  // Fulfillment

  datatype FulfillmentType = Entry | TransitionRoute | Event | RepromptHandler

  /**
   * One fulfillment under inspection: its kind and trigger description, the
   * response text being linted, the agent type it carries, and the names and
   * ids of the page and flow it belongs to.
   */
  datatype Fulfillment = Fulfillment(
    fulfillmentType: FulfillmentType,
    trigger: string,
    text: string,
    agentType: Option<string>,
    flowDisplayName: string,
    flowId: Option<string>,
    pageDisplayName: string,
    pageId: Option<string>)
  {
    function ResourceType(): string { "fulfillment" }
  }

  /**
   * One element of a page's `form.parameters` with the parts the linter
   * reads: what `get_form_parameter_data` fills in.
   */
  datatype FormParameter = FormParameter(
    page: Page,
    displayName: Option<string>,
    entityType: Option<string>,
    required: Option<bool>,
    fillBehavior: Option<FillBehavior>,
    initFulfillment: Option<FulfillmentData>,
    repromptHandlers: Option<seq<RouteData>>,
    advancedSettings: Option<AdvancedSettings>,
    dtmfSettings: Option<Json>)

  // ---------------------------------------------------------------------
  // Intent, EntityType, Webhook, TestCase

  class Intent {
    const resourceType: string := "intent"
    var dirPath: string
    var displayName: string
    var filtered: bool
    var resourceId: Option<string>
    var labels: Option<Json>
    var description: Option<string>
    /** Language codes in the order they were first listed. */
    var langOrder: seq<string>
    /** Language code to the path of its training phrase file. */
    var trainingPhrases: map<string, string>
    /** Language code to the `trainingPhrases` of its file, once that file was read. */
    var tps: map<string, Option<seq<TrainingPhrase>>>
    var namingPatternGeneric: Option<string>
    var namingPatternHead: Option<string>
    var namingPatternConfirmation: Option<string>
    var namingPatternEscalation: Option<string>

    constructor (dirPath: string)
      ensures this.dirPath == dirPath && displayName == "" && !filtered
      ensures resourceId == None && langOrder == [] && trainingPhrases == map[] && tps == map[]
      ensures namingPatternGeneric == None && namingPatternHead == None
      ensures namingPatternConfirmation == None && namingPatternEscalation == None
    {
      this.dirPath := dirPath;
      displayName := "";
      filtered := false;
      resourceId := None;
      labels := None;
      description := None;
      langOrder := [];
      trainingPhrases := map[];
      tps := map[];
      namingPatternGeneric, namingPatternHead := None, None;
      namingPatternConfirmation, namingPatternEscalation := None, None;
    }
  }

  datatype EntityType = EntityType(
    displayName: string,
    resourceId: Option<string>,
    kind: Option<string>,
    namingPattern: Option<string>,
    /** Language code to the `entities` list of its file. */
    entities: map<string, seq<Entity>>)
  {
    function ResourceType(): string { "entity_type" }
  }

  datatype Webhook = Webhook(displayName: string, resourceId: Option<string>, namingPattern: Option<string>)

  /** A user utterance of a test case with the intent it is expected to trigger. */
  datatype IntentPair = IntentPair(
    userUtterance: string,
    intent: string,
    status: string,
    trainingPhrases: seq<string>)

  class TestCase {
    const resourceType: string := "test_case"
    var agentPath: string
    var resourceId: Option<string>
    var displayName: Option<string>
    var tags: Option<seq<string>>
    var conversationTurns: Option<seq<Turn>>
    var intentData: seq<IntentPair>
    var associatedIntentData: map<string, seq<string>>
    var hasInvalidIntent: bool
    var qualified: bool

    constructor (agentPath: string)
      ensures this.agentPath == agentPath && !hasInvalidIntent && !qualified
      ensures intentData == [] && associatedIntentData == map[]
      ensures resourceId == None && displayName == None && tags == None && conversationTurns == None
    {
      this.agentPath := agentPath;
      resourceId := None;
      displayName := None;
      tags := None;
      conversationTurns := None;
      intentData := [];
      associatedIntentData := map[];
      hasInvalidIntent := false;
      qualified := false;
    }
  }
}
