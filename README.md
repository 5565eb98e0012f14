# cxlint in Dafny

cxlint is a static linter for Dialogflow CX agent exports. It walks the flows
of an agent and their pages, transition routes, route groups and form
parameters; the intents and their training phrases; the entity types; the
webhooks; and the test cases. It reports rule violations (R001 to R016) and
counts inspections and issues in a `LintStats` record. From those counts it
computes a rating out of 10.

This project models the linter's core in Dafny and proves properties of
that model:

- **Flow graph.** The `Graph` of a flow (nodes, an adjacency list per page,
  and the set of used targets) is filled as pages and routes are loaded.
  Three analysis steps then read it: unused pages, dangling pages (a
  depth-first walk from "Start Page") and unreachable pages.
- **Route state.** Routes carry webhook flags, trigger strings, graph
  targets, and the nested route and session parameter records.
- **Rules.** Every rule adds fixed amounts to `LintStats` and appends
  diagnostics to a logger. A disable map gates each rule.
- **Helpers.** Display name cleaning, path parsing, configuration parsing,
  the resource precheck, the flow, intent and language filters, and test
  case qualification.

**How the model is organised**

- One module per core source file.
- The records that the linter updates in place are classes with the same
  fields: `LintStats`, `Flow`, `Page`, `Intent`, `TestCase` and `Graph`.
  So are the linter objects themselves: `Flows`, `Pages`, `Fulfillments`,
  `RouteGroups`, `Intents`, `TestCases` and the rule classes.
- Records that are filled once are datatypes: `Fulfillment`, `Resource`,
  `EntityType`, `Webhook` and `FormParameter`.
- The loops of the source are Dafny loops with invariants. Each method is
  proved against a specification function over the inputs and the old
  state, and lemmas state the properties of those functions.

**What the model takes as inputs**

- The directory tree is a value. The module `Export` holds the parsed JSON
  files and the directory listings.
- The console is the logger's list of diagnostics.
- User-supplied naming regexes are a `Search` parameter with `re.search`
  semantics.
- Configuration values are plain strings.

The fixed regexes of the response message rules and the yes/no entity rule
are written out as predicates on characters. Case folding is ASCII only, `\w`
(and so `\b`) follows `str.isalnum()` up to U+00FF, `.` does not match a
newline, and `$` also matches before one final newline. The rating
is a `real`.

The R001 pattern at src/rules/response_messages.py:47 matches "Would you
like pickup, or delivery instead?" because the comma falls inside `(.*)`;
`ResponseMessages.PickupOrDelivery` proves it.

## Model

| member | source | states |
|---|---|---|
| Graphs.Graph.constructor | src/graph.py:21-24 | a new graph has no nodes, no adjacency entries and no used nodes |
| Graphs.Graph.AddNode | src/graph.py:26-28 | only the node set changes, by gaining the node (idempotent on a present node) |
| Graphs.Graph.AddEdge | src/graph.py:30-31 | the target is appended to the end of the source's list (duplicates kept, entry created when absent); nodes and used set unchanged |
| Graphs.Graph.AddUsedNode | src/graph.py:33-35 | only the used set changes, by gaining the node |
| Graphs.Graph.RemoveNode | src/graph.py:37-38 | the node must be present (KeyError otherwise) and exactly it leaves the node set |
| Graphs.Graph.RemoveEdge | src/graph.py:40-41 | the target must be in the source's list; its first occurrence is removed, nothing else changes |
| Graphs.Successors | src/graph.py:23 | the `defaultdict(list)` reading: a missing entry is the empty list, a present one its list |
| Graphs.RemoveFirstSplits | src/graph.py:40-41 | `list.remove` cuts at the first occurrence and keeps both sides in order |
| Graphs.RemoveFirstCount | src/graph.py:40-41 | `list.remove` drops exactly one copy of the name: one shorter, multiset minus that name |
| Graphs.RemoveFirstAfterAppend | src/graph.py:30-41 | removing a just-appended absent target gives back the original list (add_edge then remove_edge is the identity) |
| Flows.SpecialPagesListed | src/cxlint/resources/flows.py:47-53 | the five special pages discarded in turn are exactly the special page set |
| Flows.ClosedHoldsReachable | src/cxlint/resources/flows.py:193-214 | a set closed under the adjacency lists and holding the start's targets holds every name reachable from the start |
| Flows.UnusedSplit | src/cxlint/resources/flows.py:178-189 | unused pages and unreachable roots partition `all_pages - used`; no unused page is used or has an edge out |
| Flows.AnalyzedDangling | src/cxlint/resources/flows.py:233-246 | after the analysis, every dangling page is the start page or reachable from it, has no edge out, is not special and carries no FLOW tag; "Start Page" is active iff it lies on a cycle |
| Flows.Filtered | src/cxlint/resources/flows.py:250-263 | a matching exclude string filters the flow; otherwise a non-empty include string filters it iff the flow name is not a substring of it; otherwise the prior flag stands |
| Flows.LoadExcludeFilter | src/cxlint/resources/flows.py:73-81 | an empty setting is no exclude filter, any other is the setting itself |
| Flows.LintedPagesStep | src/cxlint/resources/flows.py:346-353 | one more flow directory adds its page count to the pages counted, unless the filters skip it |
| Flows.Flows.constructor | src/cxlint/resources/flows.py:37-63 | the filters come from the settings (empty exclude is none), every sub-linter shares the disable map and gets a fresh logger |
| Flows.Flows.RemoveFlowPagesFromSet | src/cxlint/resources/flows.py:106-121 | the result is exactly the input names without the substring "FLOW", a subset of the input |
| Flows.Flows.DiscardSpecialPages | src/cxlint/resources/flows.py:174-176 | the discard loop removes exactly the special pages |
| Flows.Flows.FindUnusedPages | src/cxlint/resources/flows.py:153-191 | special pages leave `all_pages`; the unused pages are the unused pages without an edge out, and those with one are added to the unreachable pages |
| Flows.Flows.RecurseEdges | src/cxlint/resources/flows.py:193-214 | the walk terminates on cyclic graphs (an unvisited-targets measure); newly visited names are reachable, the page's targets and those of every new name are visited, and new dangling pages are exactly the walked names without an adjacency entry |
| Flows.Flows.FindDanglingPages | src/cxlint/resources/flows.py:216-248 | from an empty active set, the active pages are exactly the names reachable from "Start Page"; the dangling pages are the dead ends of the start page and the active pages, minus special pages and FLOW tags |
| Flows.Flows.FindUnreachablePages | src/cxlint/resources/flows.py:145-151 | the symmetric difference of active and used, without FLOW tags, joins the unreachable pages; no earlier entry leaves |
| Flows.Flows.AnalyzeFlow | src/cxlint/resources/flows.py:313-316 | unused, then dangling, then unreachable: from empty analysis sets the flow ends up `Analyzed` |
| Flows.Flows.CheckFlowFilters | src/cxlint/resources/flows.py:250-263 | the flow's filtered flag becomes `Filtered` of the include and exclude strings and its name |
| Flows.Flows.LoadStartPage | src/cxlint/resources/flows.py:268-282 | a new "Start Page" becomes a node, takes the flow file's routes, event handlers and route groups; the flow takes the file's id and records the start page in `flow.data` |
| Flows.Flows.LintStartRoutes | src/cxlint/resources/flows.py:285-286 | the transition routes, then the event handlers, with their graph, flag and parameter effects, texts inspected and diagnostics |
| Flows.Flows.LintLoadedStartPage | src/cxlint/resources/flows.py:285-291 | routes, event handlers, route group edges, then the page rule: the effects, both logs and the counters |
| Flows.Flows.LintStartPage | src/cxlint/resources/flows.py:265-295 | the start page's node, the flow id and data entry are set; the analysis sets, `total_pages` and `total_flows` are untouched; R011 adds an inspection when enabled; the issues grow by exactly the lines the start page's two loggers receive |
| Flows.Flows.LintFlowResources | src/cxlint/resources/flows.py:309-311 | the start page, pages and route groups: nodes and `all_pages` gain the page names, `flow.data` the page ids, `total_pages` the file count |
| Flows.Flows.LintFlow | src/cxlint/resources/flows.py:297-320 | the flow is named after its directory; a filtered flow changes no counter and no graph and logs nothing; otherwise pages are counted, `all_pages` loses the special pages, the analysis holds and each enabled flow rule reports its whole set |
| Flows.Flows.LintUnfilteredFlow | src/cxlint/resources/flows.py:307-318 | resources first, then the three analysis steps, then the flow rules over their result |
| Flows.Flows.AnalyzeAndReport | src/cxlint/resources/flows.py:313-318 | the analysis runs before the flow rules, which report exactly the analysis sets of the enabled rules: one inspection and one issue per reported page, and the R012, R013 and R014 lines in the orders returned |
| Flows.Flows.LintFlowDir | src/cxlint/resources/flows.py:346-353 | a new flow per directory; its pages are counted iff the filters let it through |
| Flows.Flows.LintFlowsDirectory | src/cxlint/resources/flows.py:322-366 | `total_flows` is the number of flow directories, `total_pages` the pages of the unfiltered flows, and the rating comes from the final counters |
| Routes.TriggerKeys | src/cxlint/resources/routes.py:103-112 | "intent" is listed iff the route has an intent, "condition" iff it has a condition, and intent comes first |
| Routes.HandlerTriggersSilenceR002 | src/cxlint/resources/routes.py:125-130 | event and reprompt handler triggers contain "event", so R002 never fires on them |
| Routes.RouteTriggerWithoutV | src/cxlint/resources/routes.py:100-120 | outside verbose mode a transition route trigger has no letter `v` (so it never contains "event") |
| Routes.RouteTriggersSilenceR003 | src/cxlint/resources/routes.py:132-134 | outside verbose mode R003 never fires on a transition route |
| Routes.RouteTargets | src/cxlint/resources/routes.py:156-171 | a target page and a "FLOW: " tagged target flow each give a target independently; with neither the route has no target |
| Routes.AddEdgesSuccessors | src/graph.py:30-31 | adding edges from a node appends to its list and touches no other node |
| Routes.UpdateRouteParamsRecords | src/cxlint/resources/routes.py:173-194 | a preset is appended to its flow and page list, missing levels are created, every other list is kept |
| Routes.UpdateKeepsNoneEmpty | src/cxlint/resources/routes.py:178-194 | the update never leaves an empty flow entry or page list |
| Routes.UpdatePresetsAt | src/cxlint/resources/routes.py:178-194 | only the preset's own flow and page list changes, by gaining the preset |
| Routes.UpdateSessionRecords | src/cxlint/resources/routes.py:66-98 | the current value and page are the preset's, both histories grew by that pair, other parameters are kept, and validity is preserved |
| Routes.SessionsAfterValid | src/cxlint/resources/routes.py:78-98 | any run of presets keeps every value history and page history the same length, with the current entries their last elements; every preset key ends up known |
| Routes.ParamsAfterNoneEmpty | src/cxlint/resources/routes.py:178-194 | any run of presets keeps the route parameter map free of empty entries |
| Routes.WithTexts | src/cxlint/resources/routes.py:211-215 | one fulfillment per text, each the route with that text and nothing else changed |
| Routes.RmLogBounds | src/rules/response_messages.py:116-148 | when no text belongs to a voice agent the response message rules log nothing |
| Routes.LintedMatchesItems | src/cxlint/resources/routes.py:205-215 | one inspection per text of every linted item of every processed route |
| Routes.RoutesLogNothing | src/cxlint/resources/routes.py:286-290 | transition routes carry no agent type, so none of their texts is logged |
| Routes.LintedAgentType | src/cxlint/resources/routes.py:259-262 | every linted text keeps the agent type of the base fulfillment |
| Routes.AfterRoutesGraph | src/cxlint/resources/routes.py:286-292 | a route list adds an edge to every target in order and marks every target used, skipped routes included |
| Routes.AfterRoutesFlags | src/cxlint/resources/routes.py:38-64 | after a route list `has_webhook` holds iff it held or some processed non-event route has a webhook; the error handler flag iff it held or the page was flagged and some handler names webhook.error |
| Routes.AfterRoutesPresets | src/cxlint/resources/routes.py:217-218 | a route list records the presets of all its linted items, in order |
| Routes.EventsRaiseNoWebhook | src/cxlint/resources/routes.py:269-273 | event handlers never raise `has_webhook` |
| Routes.PageBase | src/cxlint/resources/routes.py:259-263 | the fulfillment of a page carries its kind, agent type, page name and flow name |
| Routes.Fulfillments.constructor | src/cxlint/resources/routes.py:28-36 | verbosity, agent type and disable map as given; empty route parameters and a fresh logger |
| Routes.Fulfillments.Base | src/cxlint/resources/routes.py:260-263 | the base fulfillment of a page has the requested kind |
| Routes.Fulfillments.CheckForWebhook | src/cxlint/resources/routes.py:38-42 | `has_webhook` is set iff the fulfillment has a webhook key, and never cleared |
| Routes.Fulfillments.CheckForWebhookEventHandlers | src/cxlint/resources/routes.py:44-64 | `has_webhook_event_handler` is set only on a page with a webhook whose trigger contains "webhook.error", and stays set |
| Routes.Fulfillments.UpdateSessionParameters | src/cxlint/resources/routes.py:66-98 | the agent's session parameters become `UpdateSession` of the preset |
| Routes.Fulfillments.UpdateRouteParameters | src/cxlint/resources/routes.py:173-196 | the route parameters and the session parameters both record the preset |
| Routes.Fulfillments.SetRouteTargets | src/cxlint/resources/routes.py:148-171 | one edge from the page to each target of the route, each target marked used |
| Routes.Fulfillments.SetRouteGroupTargets | src/cxlint/resources/routes.py:138-146 | one edge to each referenced group, in list order, each group marked used |
| Routes.Fulfillments.LintTexts | src/cxlint/resources/routes.py:211-215 | one inspection per text; the response message rules' lines for each text in order |
| Routes.Fulfillments.LintFulfillmentType | src/cxlint/resources/routes.py:198-220 | one inspection per text of the key's items, their diagnostics, and every preset among them recorded |
| Routes.Fulfillments.LintPath | src/cxlint/resources/routes.py:300-307 | messages, and for transition routes also presets, linted as above |
| Routes.Fulfillments.LintProcessed | src/cxlint/resources/routes.py:269-275 | a processed route flags the page, records its presets and logs its texts |
| Routes.Fulfillments.LintRoute | src/cxlint/resources/routes.py:259-275 | one route's effects (targets wired before the empty-fulfillment skip), its diagnostics and its inspections |
| Routes.Fulfillments.LintRouteList | src/cxlint/resources/routes.py:286-307 | the effects, diagnostics and inspections of the whole list, route by route |
| Routes.Fulfillments.LintRoutes | src/cxlint/resources/routes.py:279-309 | the page's transition routes: their effects and inspections, no diagnostic |
| Routes.Fulfillments.LintEvents | src/cxlint/resources/routes.py:254-277 | the page's event handlers: their effects, diagnostics and inspections |
| Routes.Fulfillments.LintRepromptHandlers | src/cxlint/resources/routes.py:222-252 | a form parameter's reprompt handlers, described with the parameter's name: their effects, diagnostics and inspections |
| Routes.Fulfillments.LintEntry | src/cxlint/resources/routes.py:311-333 | a non-empty entry fulfillment sets the webhook flag and records its presets; one inspection per text, no diagnostic |
| Pages.GetFormParameterData | src/resources/pages.py:58-78 | the parameter's keys are copied; initial prompt and reprompt handlers are read only when `fillBehavior` is a non-empty object, otherwise None; the dtmf settings are those of the form's advanced settings when those are a non-empty object, otherwise None |
| Pages.AfterFormFlags | src/resources/pages.py:80-89 | the form raises `has_webhook` iff some reprompt handler has a webhook, and never the event handler flag |
| Pages.OthersRaiseNoHandler | src/cxlint/resources/routes.py:269-275 | only event handlers can raise `has_webhook_event_handler` |
| Pages.DataAfterKeys | src/resources/pages.py:114-115 | the pages of the directory are exactly the names `flow.data` gains |
| Pages.DataAfterRecords | src/resources/pages.py:114-115 | a page no later page renames has its own id in `flow.data` |
| Pages.LintGroupsAndRules | src/resources/pages.py:123-126 | route group edges only when the list is present, then the page rule |
| Pages.Pages.constructor | src/resources/pages.py:32-40 | disable map, verbosity and agent type as given; separate fresh loggers for page and response message rules |
| Pages.Pages.PageFlags | src/resources/pages.py:117-121 | after all fulfillments `has_webhook` holds iff the entry, a route, or a reprompt handler has a webhook; `has_webhook_event_handler` holds iff an event handler names webhook.error on a page already flagged |
| Pages.Pages.LintForm | src/resources/pages.py:80-89 | the reprompt handlers of every form parameter, in order: effects, diagnostics and inspections |
| Pages.Pages.LintEntryAndRoutes | src/resources/pages.py:118-119 | entry, then transition routes; no diagnostic |
| Pages.Pages.LintEventsAndForm | src/resources/pages.py:120-121 | event handlers, then the form |
| Pages.Pages.LintPageFulfillments | src/resources/pages.py:117-121 | entry, transition routes, event handlers, then form, with their combined effects, diagnostics and inspections |
| Pages.Pages.LoadPage | src/resources/pages.py:94-115 | the page's name is its cleaned file name; it becomes a node and a member of `all_pages`, and `flow.data` maps it to the page id |
| Pages.Pages.LintLoadedPage | src/resources/pages.py:117-126 | fulfillments, route groups, then the page rule, with both logs and the counters |
| Pages.Pages.LintPage | src/resources/pages.py:92-130 | the page is loaded before any of its routes is linted, then linted as above |
| Pages.Pages.LintPageFile | src/resources/pages.py:141-146 | one more page counted, its name added to the node set and `all_pages`, its id to `flow.data` |
| Pages.Pages.LintPageFiles | src/resources/pages.py:139-146 | one page counted per file; nodes, `all_pages` and `flow.data` gain every file's page |
| Pages.Pages.LintPagesDirectory | src/resources/pages.py:132-148 | as above; without a pages directory no counter, no graph, no route or session parameter and no logger changes |
| RouteGroups.GroupBase | src/resources/route_groups.py:73-76 | the routes of a group are linted as transition routes from the group's display name |
| RouteGroups.RouteGroups.constructor | src/resources/route_groups.py:31-46 | verbosity, agent type and disable map as given; fresh logger |
| RouteGroups.RouteGroups.LoadRouteGroup | src/resources/route_groups.py:67-74 | the group becomes a fresh page of the flow named by the file's `displayName`, holding its id and transition routes only, with no webhook flags |
| RouteGroups.GroupParamsNoneEmpty | src/cxlint/resources/routes.py:173-194 | linting the route groups leaves no flow entry or page list of the route parameters empty |
| RouteGroups.GroupSessionsValid | src/cxlint/resources/routes.py:66-98 | linting the route groups keeps every session parameter's histories aligned with its current value, and forgets no parameter |
| RouteGroups.RouteGroups.LintRouteGroup | src/resources/route_groups.py:65-80 | one edge per route target, from the group's display name; targets used; texts inspected; no diagnostic; the route and session parameters record the presets of the group's routes, in order, under the group's name |
| RouteGroups.RouteGroups.LintRouteGroupsDirectory | src/resources/route_groups.py:82-97 | `total_route_groups` becomes the number of group files; every group's edges and targets are added and the route and session parameters record every group's presets, file by file; pages and analysis untouched |
| Common.LoadMessageControls | src/common.py:36-44 | exactly the listed names are keys, each mapped to False |
| Common.EnabledIffNotListed | src/common.py:42-44 | a rule is enabled iff the disable setting does not list it |
| Common.StripNewlinesRemovesAll | src/common.py:39 | no newline is left, and the string never grows |
| Common.ResourceFilterList | src/common.py:56-69 | a blank value is no filter; any other lists at least one name |
| Common.LoadResourceFilter | src/common.py:53-76 | exactly the five resources are keys; each is on iff there is no filter or the filter names it |
| Common.ResourcePrecheck | src/common.py:178-213 | a resource is on iff its directory is in the listing and the filter does not turn it off; keys are snake_case |
| Common.FindResourceDirectories | src/common.py:189-206 | each snake_case key is on iff its directory appears in the listing |
| Common.CalculateRating | src/common.py:85-94 | 10 when nothing was inspected or nothing is wrong; 0 when every inspection is an issue; within [0, 10] when issues never exceed inspections |
| Common.RatingMonotone | src/common.py:88-89 | more issues out of the same inspections never raise the rating |
| Common.Marker | src/common.py:100-106 | every directory marker is one '/'-delimited segment |
| Common.ParseDirName | src/common.py:96-109 | a flow, intent, entity type or route group path yields its last segment |
| Common.ParsePageName | src/common.py:102 | "…/pages/n.json" yields n, dots in n included |
| Common.MatchAtSound | src/common.py:100-107 | a match is a '/'-free segment directly after the marker |
| Common.ParseSound | src/common.py:107 | whatever `parse_filepath` returns is a '/'-free segment following the marker in the path |
| Common.EscapeTable | src/common.py:114-133 | eighteen escapes, each a '%' followed by at least two characters |
| Common.CleanDisplayName | src/common.py:111-139 | the name with every listed escape replaced in order, never longer than the input |
| Common.CleanWithoutPercent | src/common.py:135-137 | a name without '%' is unchanged |
| Common.CleanShorter | src/common.py:135-139 | no prefix of the replacements lengthens a name |
| Common.LoadLangCodeFilter | src/common.py:141-150 | the comma-separated codes of a non-empty value |
| Common.LangCodeFilterNone | src/common.py:147-148 | no filter iff the value is empty; otherwise joining the codes gives the value back |
| Common.GetFileBasedOnLangCodeFilter | src/common.py:152-176 | the file is returned iff there is no (or an empty) filter or the code is listed, and it is that code's path |
| Types.LintStats.constructor | src/resources/types.py:129-141 | every counter starts at zero |
| Types.NewResource | src/resources/types.py:106-127 | a resource of the given kind, with no flow name and no page id yet |
| Types.Flow.constructor | src/resources/types.py:7-25 | a fresh empty graph, fresh empty page sets and data map, not filtered |
| Types.Page.constructor | src/resources/types.py:27-42 | no webhook flags, no file keys, empty name |
| Types.Intent.constructor | src/resources/types.py:59-73 | not filtered, no naming patterns, no languages |
| Types.TestCase.constructor | src/resources/types.py:88-104 | not qualified, no invalid intent, no pairs |
| FlowRules.FlowPageDiagnostics | src/rules/flows.py:38-51 | one line per page of the order |
| FlowRules.FlowPageDiagnosticsCover | src/rules/flows.py:38-53 | for any order of a page set, one line per page, each naming the rule, the flow and one page, and every page named |
| FlowRules.FlowRules.constructor | src/rules/flows.py:24-31 | disable map as given, fresh logger |
| FlowRules.FlowRules.ReportPages | src/rules/flows.py:38-53 | one inspection, one issue and one line per page of the set, ids looked up in `flow.data` |
| FlowRules.FlowRules.UnusedPages | src/rules/flows.py:33-53 | R012 for every unused page, adding the set's size to both counters |
| FlowRules.FlowRules.DanglingPages | src/rules/flows.py:55-75 | R013 for every dangling page, adding the set's size to both counters |
| FlowRules.FlowRules.UnreachablePages | src/rules/flows.py:77-97 | R014 for every unreachable page, adding the set's size to both counters |
| FlowRules.FlowRules.RunFlowRules | src/rules/flows.py:99-113 | enabled rules run in order, a disabled one reports nothing; issues equal inspections |
| PageRules.R011Diagnostics | src/rules/pages.py:42-54 | one R011 line naming the page exactly when the rule fires |
| PageRules.HandledPagesPass | src/rules/pages.py:42 | R011 is silent iff the page has no webhook or handles the webhook error events |
| PageRules.PageRules.constructor | src/rules/pages.py:24-31 | disable map as given, fresh logger |
| PageRules.PageRules.MissingWebhookEventHandlers | src/rules/pages.py:33-56 | one inspection; an issue iff the page has a webhook and no webhook error handler |
| PageRules.PageRules.RunPageRules | src/rules/pages.py:58-65 | R011 unless disabled; disabled leaves stats and log unchanged |
| Logger.RulesLogger.constructor | src/cxlint/rules/logger.py:21-25 | no line logged yet |
| Logger.RulesLogger.GenericLogger | src/cxlint/rules/logger.py:51-74 | one more line, after all earlier ones |
| WebhookRules.WebhookResource | src/rules/webhooks.py:47-51 | a "webhook" resource naming the webhook and its id |
| WebhookRules.NamingDiagnostics | src/rules/webhooks.py:41-57 | one R015 line exactly when the pattern finds no match in the name |
| WebhookRules.WebhookRules.constructor | src/rules/webhooks.py:26-33 | disable map as given, fresh logger |
| WebhookRules.WebhookRules.WebhookNamingConventions | src/rules/webhooks.py:36-59 | one inspection; an issue iff no match; a pattern is required (unbound `res`) |
| WebhookRules.WebhookRules.RunWebhookRules | src/rules/webhooks.py:61-69 | R015 unless "naming-conventions" is disabled |
| ResponseMessages.LineBody | src/rules/response_messages.py:47-49 | a line ended by the last character and perhaps one newline has that line as its body |
| ResponseMessages.ClosedChoiceComplete | src/rules/response_messages.py:47-49 | every text of the closed-choice shape "<What…Would> a or b?" is recognised |
| ResponseMessages.WhPatternComplete | src/rules/response_messages.py:71-73 | a wh- word, then nothing or a non-word character starting a one-line text, then the end marker, is recognised by both wh- patterns |
| ResponseMessages.WhExclusive | src/rules/response_messages.py:65-114 | no text is both a wh- question and a clarifying question |
| ResponseMessages.WhateverIsNoWhQuestion | src/rules/response_messages.py:71 | because of `\b`, "Whatever…" is not a wh- question |
| ResponseMessages.AccentedHowIsNoWhQuestion | src/rules/response_messages.py:71-98 | "Howé?" and "Howé." match neither wh- pattern: 'é' is a word character, so no word boundary follows "How" |
| ResponseMessages.PickupOrDelivery | src/rules/response_messages.py:47 | "Would you like pickup, or delivery instead?" matches the closed-choice pattern |
| ResponseMessages.FulfillmentResource | src/rules/response_messages.py:52-58 | a "fulfillment" resource naming the fulfillment's page and flow |
| ResponseMessages.RuleDiagnostics | src/rules/response_messages.py:51-61 | one line iff the rule fires |
| ResponseMessages.RmDiagnosticsAtMostTwo | src/rules/response_messages.py:116-148 | at most two lines per text, and none for a non-voice agent |
| ResponseMessages.EventTriggersSilenceR002 | src/rules/response_messages.py:75 | a trigger of the form `event : …` keeps R002 silent |
| ResponseMessages.ResponseMessageRules.constructor | src/rules/response_messages.py:26-33 | disable map as given, fresh logger |
| ResponseMessages.ResponseMessageRules.ClosedChoiceAlternativeParser | src/rules/response_messages.py:37-63 | one issue and one line iff the text is a closed-choice question; inspections unchanged |
| ResponseMessages.ResponseMessageRules.WhQuestions | src/rules/response_messages.py:66-87 | one issue iff a wh- question ending with '?' on a trigger without "event" |
| ResponseMessages.ResponseMessageRules.ClarifyingQuestions | src/rules/response_messages.py:90-114 | one issue iff a wh- sentence ending with '.' on a trigger with "event" |
| ResponseMessages.ResponseMessageRules.RunRmTextRules | src/rules/response_messages.py:116-148 | for a voice agent the enabled rules in order, one issue per line; nothing otherwise |
| IntentRules.ConfirmationIff | src/cxlint/rules/intents.py:45-55 | a confirmation intent iff "yes" or "no" is exactly one of its phrases |
| IntentRules.EscalationIff | src/cxlint/rules/intents.py:57-67 | an escalation intent iff "escalate" or "operator" is exactly one of its phrases |
| IntentRules.FlattenedSplice | src/cxlint/rules/intents.py:69-84 | when both part lists have text, flattening their concatenation concatenates their flattenings |
| IntentRules.ChosenPatternPriority | src/cxlint/rules/intents.py:137-167 | a pattern is chosen iff some category applies with a non-empty pattern configured, and it is non-empty; a head pattern wins for head intents; the generic one is taken only when no other category applies |
| IntentRules.IntentResource | src/cxlint/rules/intents.py:109-113 | an "intent" resource naming the intent and its id |
| IntentRules.NamingDiagnostics | src/cxlint/rules/intents.py:99-122 | one R015 line iff a pattern was chosen and finds no match |
| IntentRules.MinTpsFires | src/cxlint/rules/intents.py:246-258 | R005 fires iff a head intent has fewer than 50 phrases or another intent fewer than 20 |
| IntentRules.MinTpsMonotone | src/cxlint/rules/intents.py:246-258 | more phrases never make R005 fire where fewer did not |
| IntentRules.WhitespaceDiagnostics | src/cxlint/rules/intents.py:263-288 | one R016 line iff the name has a leading, trailing or doubled whitespace |
| IntentRules.IntentRules.constructor | src/cxlint/rules/intents.py:26-33 | disable map as given, fresh logger |
| IntentRules.IntentRules.FlattenTrainingPhraseParts | src/cxlint/rules/intents.py:69-84 | the loop computes `Flattened`: several parts concatenated (missing text is ""), a single part as it is |
| IntentRules.IntentRules.GatherTrainingPhrases | src/cxlint/rules/intents.py:86-97 | one flattened phrase per training phrase, in order |
| IntentRules.IntentRules.CheckAndLogNaming | src/cxlint/rules/intents.py:99-122 | an issue iff the search found no match |
| IntentRules.IntentRules.IntentNamingConvention | src/cxlint/rules/intents.py:124-169 | one inspection iff a pattern is chosen, and its diagnostics |
| IntentRules.IntentRules.LogNaming | src/cxlint/rules/intents.py:137-167 | the chosen pattern is one inspection and an issue iff no match |
| IntentRules.IntentRules.IntentMissingMetadata | src/cxlint/rules/intents.py:172-198 | one inspection, one issue, one R010 line |
| IntentRules.IntentRules.MissingTrainingPhrases | src/cxlint/rules/intents.py:200-226 | one inspection, one issue and one R004 line, unless disabled |
| IntentRules.IntentRules.MinTpsHeadIntent | src/cxlint/rules/intents.py:228-260 | one inspection; R005 as `MinTpsDiagnostics` of the phrase count |
| IntentRules.IntentRules.IntentDisplayNameExtraWhitespaces | src/cxlint/rules/intents.py:262-288 | one inspection; an issue iff extra whitespace |
| IntentRules.IntentRules.RunTrainingPhraseRules | src/cxlint/rules/intents.py:291-314 | naming, min-tps and whitespace in that order, each unless disabled, one issue per line |
| EntityTypeRules.IsYesNoLower | src/rules/entity_types.py:39-43 | the pattern matches iff the lowered text is "yes" or "no", perhaps with one final newline |
| EntityTypeRules.YesNoMatchSingleton | src/rules/entity_types.py:36-59 | a one-element list is flagged iff its element is |
| EntityTypeRules.EntityTypeResource | src/rules/entity_types.py:77-81 | an "entity_type" resource naming the entity type and its id |
| EntityTypeRules.ValueDiagnostics | src/rules/entity_types.py:72-83 | one R009 line iff the value is flagged |
| EntityTypeRules.SynonymDiagnostics | src/rules/entity_types.py:98-109 | one R009 line iff the synonym list is flagged |
| Text.Repr | src/rules/entity_types.py:101 | `str()` of a synonym list shows each element's `repr`: the quotes that open and close it are the same, and no shorter than the element plus two |
| Text.ReprOfPlain | src/rules/entity_types.py:101 | an element without quotes, backslashes or control characters is shown as itself in single quotes |
| Text.ReprInDoubleQuotes | src/rules/entity_types.py:101 | an element with a single quote and no double quote is shown in double quotes, unescaped (`"don't"`) |
| Text.ReprFinalNewline | src/rules/entity_types.py:101 | a final newline is shown as a backslash and `n` (`'yes\\n'`) |
| Text.ReprPrintable | src/rules/entity_types.py:101 | whatever the element holds, its `repr` has no control character |
| EntityTypeRules.EntityDiagnostics | src/rules/entity_types.py:180-183 | a line for a flagged value, then one for a flagged synonym list |
| EntityTypeRules.YesNoDiagnostics | src/rules/entity_types.py:176-183 | at most two lines per entity |
| EntityTypeRules.YesNoDiagnosticsEmptyIff | src/rules/entity_types.py:170-185 | no line iff no value and no synonym list of the language is flagged |
| EntityTypeRules.NamingDiagnostics | src/rules/entity_types.py:121-137 | one R015 line iff the pattern finds no match |
| EntityTypeRules.WhitespaceDiagnostics | src/rules/entity_types.py:151-165 | one R016 line iff extra whitespace |
| EntityTypeRules.EntityTypeRules.constructor | src/rules/entity_types.py:26-33 | disable map as given, fresh logger |
| EntityTypeRules.EntityTypeRules.EntityRegexMatching | src/rules/entity_types.py:35-59 | the early-exit loop answers `YesNoMatch`: a string is matched, a list searched, anything else is not flagged |
| EntityTypeRules.EntityTypeRules.YesNoEntityCheck | src/rules/entity_types.py:61-85 | one inspection; an issue and a line iff the value is flagged |
| EntityTypeRules.EntityTypeRules.YesNoSynonymCheck | src/rules/entity_types.py:87-111 | one inspection; an issue and a line iff the synonym list is flagged |
| EntityTypeRules.EntityTypeRules.EntityTypeNamingConvention | src/rules/entity_types.py:113-139 | one inspection; an issue iff no match; a pattern is required (unbound `res`) |
| EntityTypeRules.EntityTypeRules.EntityDisplayNameExtraWhitespaces | src/rules/entity_types.py:141-167 | one inspection; an issue iff extra whitespace |
| EntityTypeRules.EntityTypeRules.YesNoEntities | src/rules/entity_types.py:169-185 | two inspections per entity of the language and its `YesNoDiagnostics` |
| EntityTypeRules.EntityTypeRules.RunEntityTypeRules | src/rules/entity_types.py:187-205 | naming, yes/no and whitespace in that order, each unless disabled |
| Intents.IntentFiltered | src/resources/intents.py:118-131 | a matching exclude string filters the intent; otherwise a non-empty include string filters it iff it is not a substring of the name; otherwise the prior flag stands |
| Intents.IncludeSelf | src/resources/intents.py:118-131 | an intent named after the include string passes unless excluded (the include test is the reverse of the flow one) |
| Intents.LangCodeOfFile | src/resources/intents.py:93 | the file name up to its first '.', with no '.' |
| Intents.ParseLangCode | src/resources/intents.py:74-80 | the result has no '/' and no '.' |
| Intents.ParseLangCodeOfPath | src/resources/intents.py:74-95 | `parse_lang_code` of a built path gives back the key it was filed under |
| Intents.ParseLangCodeRoundTrip | src/resources/intents.py:74-80 | "dir/code.ext" gives back code |
| Intents.PathsAfterKeys | src/resources/intents.py:83-95 | one entry per language code of the listing, besides the old keys |
| Intents.PathsAfterLatest | src/resources/intents.py:92-95 | a code's entry points to the last file with that code |
| Intents.OrderAfterKeys | src/resources/intents.py:92-95 | the key order lists every key exactly once |
| Intents.NamingFrom | src/resources/intents.py:45-54 | each pattern is its key's value, None for a missing key |
| Intents.MetadataLog | src/resources/intents.py:148-149 | one line iff the metadata file is missing |
| Intents.Intents.constructor | src/resources/intents.py:31-71 | the include setting as written, an empty exclude setting as no filter, the language filter and naming styles from the configuration |
| Intents.Intents.TpsAfterSelected | src/resources/intents.py:153-172 | every selected language ends up with its file's phrases, and no other entry changes |
| Intents.Intents.TpsMissingLog | src/resources/intents.py:180-181 | one R004 line iff "intent-missing-tps" is enabled |
| Intents.Intents.LintedIntents | src/resources/intents.py:221-229 | at most one counted intent per directory |
| Intents.Intents.LoadNamingConventions | src/resources/intents.py:44-54 | the intent's four patterns become `NamingFrom` of the styles |
| Intents.Intents.BuildLangCodePaths | src/resources/intents.py:82-95 | every listed file is filed under its language code, in order; the key order records first appearances |
| Intents.Intents.CheckIntentFilters | src/resources/intents.py:118-131 | the intent's filtered flag becomes `IntentFiltered` |
| Intents.Intents.LintIntentMetadata | src/resources/intents.py:133-151 | a metadata file sets id, labels and description; a missing one leaves all three, logs R010 and linting goes on |
| Intents.Intents.LintLanguage | src/resources/intents.py:161-170 | the language's phrases are stored, then the training phrase rules run on them |
| Intents.Intents.LintLanguageAt | src/resources/intents.py:156-170 | a language is linted iff it passes the language filter |
| Intents.Intents.LintLanguageCodes | src/resources/intents.py:153-172 | every selected language in key order: phrases stored, rules run, counters and lines accumulated |
| Intents.Intents.TrainingTpsSelected | src/resources/intents.py:153-183 | after `lint_training_phrases` a selected language of the listing holds its file's phrases; every other entry, and every entry without a listing, is as it was |
| Intents.Intents.LintTrainingPhrases | src/resources/intents.py:174-183 | with a trainingPhrases directory the listing is filed and every language linted, its phrases stored as `TrainingTps` says; without one nothing is stored and R004 |
| Intents.Intents.LintUnfilteredIntent | src/resources/intents.py:190-193 | one more intent counted, then metadata and training phrases: id, labels and description from the metadata file, paths, key order and stored phrases from the listing |
| Intents.Intents.LintIntent | src/resources/intents.py:185-195 | the intent is named after its directory; a filtered intent changes no counter and logs nothing; otherwise one intent more, the metadata line then the training phrase rules' lines, their inspections, and one issue per line; the metadata fields, paths, key order and stored phrases change as for an unfiltered intent and not at all for a filtered one |
| Intents.Intents.MissingMetadataFirst | src/resources/intents.py:133-151 | an unfiltered intent directory without metadata logs R010 first |
| Intents.Intents.LintedIntentStep | src/resources/intents.py:221-229 | one more directory adds its own count, lines and inspections |
| Intents.Intents.LintIntentDir | src/resources/intents.py:221-229 | a new intent per directory, counted iff the filters let it through; its lines are R010 when the metadata is missing, then the training phrase rules' lines, nothing when filtered; one issue per line |
| Intents.Intents.LintIntentsDirectory | src/resources/intents.py:197-242 | `total_intents` counts the unfiltered intent directories; the logger receives each directory's lines in order, the inspections are their sum and the issues equal the lines; the rating comes from the final counters |
| TestCases.Hashed | src/resources/test_cases.py:50-53 | the tag starts with '#': unchanged, or with '#' in front |
| TestCases.TagFilterSpec | src/resources/test_cases.py:40-56 | no filter iff the setting is empty without newlines; otherwise one tag per listed tag, each with '#', a marked one unchanged |
| TestCases.TagFilterMarked | src/resources/test_cases.py:40-56 | a setting whose tags are all marked loads back as written |
| TestCases.PairsOf | src/resources/test_cases.py:95-118 | at most one pair per turn, each valid, with no phrases and a non-empty utterance |
| TestCases.PairsOfAppend | src/resources/test_cases.py:97-116 | the pairs of two runs of turns are concatenated in turn order |
| TestCases.PairsOfIff | src/resources/test_cases.py:97-116 | a pair is extracted exactly for a turn with a triggered intent and a text |
| TestCases.LoweredJoinIsLower | src/resources/test_cases.py:143-144 | lowering each part and joining is lowering the concatenation |
| TestCases.FlattenTpData | src/resources/test_cases.py:138-146 | one string per training phrase |
| TestCases.FlattenTpDataSpec | src/resources/test_cases.py:138-146 | each flattened phrase is the lowercase concatenation of its parts, the intent rules' flattening lowered |
| TestCases.FirstUnready | src/resources/test_cases.py:160-184 | the index of the first language file that cannot be read |
| TestCases.FirstUnreadyIs | src/resources/test_cases.py:160-184 | the first unreadable file is the one after a readable prefix |
| TestCases.GatheredPair | src/resources/test_cases.py:157-184 | utterance and intent unchanged, earlier phrases kept first, invalid iff the intent is bad |
| TestCases.Gathered | src/resources/test_cases.py:157-184 | one gathered pair per pair |
| TestCases.GatheredInvalid | src/resources/test_cases.py:181-183 | some pair expects a bad intent iff R008 finds an invalid gathered pair |
| TestCases.BadGathered | src/resources/test_cases.py:181-183 | a pair expecting a bad intent is invalid among the gathered pairs |
| TestCases.GatheredBad | src/resources/test_cases.py:181-183 | an invalid gathered pair comes from a valid pair that expects a bad intent |
| TestCases.GatheredReadable | src/resources/test_cases.py:161-179 | a pair whose intent's files are all readable keeps its status and gains all their phrases |
| TestCases.AnyBadIff | src/resources/test_cases.py:157-184 | the loop's flag over the first k pairs holds iff one of them expects a bad intent |
| TestCases.AnyBadAll | src/resources/test_cases.py:157-184 | over all pairs that is `SomeBad` |
| TestCases.TagMatchIff | src/resources/test_cases.py:190-196 | the tags match unless both tags and a filter exist, then iff they share a tag |
| TestCases.TestCases.constructor | src/resources/test_cases.py:29-63 | the tag filter is `TagFilter` of the setting and the display name pattern as written |
| TestCases.TestCases.LoadTagFilter | src/resources/test_cases.py:40-56 | the result is `TagFilter` of the setting |
| TestCases.TestCases.HashTags | src/resources/test_cases.py:50-53 | the in-place loop makes every tag `Hashed` |
| TestCases.TestCases.TestCaseCount | src/resources/test_cases.py:231-241 | a test case adds at most one to `total_test_cases` |
| TestCases.TestCases.LintedTestCases | src/resources/test_cases.py:258-264 | at most one per test case file |
| TestCases.TestCases.GetTestCaseIntentPhrasePair | src/resources/test_cases.py:80-118 | the pairs of the turns in order, or none without turns |
| TestCases.TestCases.MarkInvalid | src/resources/test_cases.py:181-184 | only that pair's status becomes "invalid_intent", and the test case is flagged |
| TestCases.TestCases.AddFile | src/resources/test_cases.py:169-179 | a readable file's phrases extend the pair's and become the intent's entry |
| TestCases.TestCases.LoadIntentFiles | src/resources/test_cases.py:163-184 | readable files extend the pair; the first unreadable one marks pair and test case invalid and ends the loop |
| TestCases.TestCases.GatherPair | src/resources/test_cases.py:157-184 | one pair becomes `GatheredPair`; the test case is flagged iff its intent is bad |
| TestCases.TestCases.GatherIntentTps | src/resources/test_cases.py:152-186 | every pair is gathered on its own; a bad intent marks only its pair; the flag is set iff some pair is bad |
| TestCases.TestCases.QualifyTestCase | src/resources/test_cases.py:188-213 | a test case passing both filters gets its gathered pairs and is qualified iff no intent is bad; otherwise nothing changes |
| TestCases.TestCases.InvalidForIff | src/resources/test_cases.py:188-213 | a test case has an invalid intent iff it passes the filters and R008 finds an invalid pair |
| TestCases.TestCases.QualifiedPairs | src/resources/test_cases.py:188-213 | in a qualified test case every pair is valid and carries exactly the lowercased phrases of its intent's files |
| TestCases.TestCases.TestCaseLogIssues | src/rules/test_cases.py:34-79 | a test case logs no more lines than it counts issues: one R007 line per unmatched pair, one R008 line for one or more invalid pairs |
| TestCases.TestCases.LintedLogIssues | src/resources/test_cases.py:258-264 | over a run of test case files, no more lines than issues |
| TestCases.TestCases.LintTestCase | src/resources/test_cases.py:215-243 | the file's keys are loaded, the test case qualified, and each enabled rule group that applies adds one test case and its counts; the logger receives one R007 line per unmatched pair, then the R008 line |
| TestCases.TestCases.LintTestCaseFile | src/resources/test_cases.py:258-264 | a new test case's counts and lines are added |
| TestCases.TestCases.LintedStep | src/resources/test_cases.py:258-264 | one more file adds its own counts and lines |
| TestCases.TestCases.LintTestCasesDirectory | src/resources/test_cases.py:245-274 | the counters are the sums over the files and the logger receives their lines in order; the rating comes from the counters |
| TestCaseRules.TestCaseResource | src/rules/test_cases.py:47-51 | a "test_case" resource naming the test case and its id |
| TestCaseRules.Unmatched | src/rules/test_cases.py:38-56 | the reported pairs are pairs whose utterance is no training phrase |
| TestCaseRules.UnmatchedComplete | src/rules/test_cases.py:44 | every such pair is reported (exact, case-sensitive membership) |
| TestCaseRules.InvalidIntents | src/rules/test_cases.py:65-68 | the counted pairs are pairs whose status is "invalid_intent" |
| TestCaseRules.InvalidIntentsComplete | src/rules/test_cases.py:65-68 | every such pair is counted |
| TestCaseRules.UnmatchedStep | src/rules/test_cases.py:38-56 | one more pair is reported iff its utterance is no training phrase |
| TestCaseRules.InvalidIntentsStep | src/rules/test_cases.py:65-68 | one more pair is counted iff it is invalid |
| TestCaseRules.UtteranceDiagnostics | src/rules/test_cases.py:44-54 | one line per reported pair |
| TestCaseRules.PairDiagnostics | src/rules/test_cases.py:44-54 | at most one line per pair |
| TestCaseRules.NoUnmatchedIff | src/rules/test_cases.py:44 | R007 reports nothing iff every utterance is a training phrase of its intent |
| TestCaseRules.UtteranceDiagnosticsSnoc | src/rules/test_cases.py:54 | one more reported pair adds its line at the end |
| TestCaseRules.UtteranceDiagnosticsStep | src/rules/test_cases.py:38-56 | one more pair adds its own line, if any |
| TestCaseRules.TestCaseRules.constructor | src/rules/test_cases.py:24-31 | disable map as given, fresh logger |
| TestCaseRules.TestCaseRules.ExplicitTpsInTcs | src/rules/test_cases.py:34-56 | one inspection per pair; one issue and one line per unmatched pair |
| TestCaseRules.TestCaseRules.InvalidIntentInTcs | src/rules/test_cases.py:59-79 | one inspection and one issue per invalid pair; exactly one line per call |
| TestCaseRules.TestCaseRules.RunTestCaseRules | src/rules/test_cases.py:81-95 | R007 for a qualified test case, R008 for one with an invalid intent, each unless disabled and each counting the test case once; the test case is unchanged |

## Left out

- File system and JSON reading (`os.listdir`, `open`, `json.load`, the `build_*_path_list` helpers, `get_test_case_intent_data`). Directory listings and parsed files are inputs. A file that cannot be parsed is not modelled.
- Console output: `create_link`, the rich console, the start and end messages, and the `:.2f` rendering of the rating. The logger keeps the rule, the resource and the message of each line.
- The `agent_id` configuration value, and the test case configuration (`testConfig`), which is read but never stored.
- JSON `null`: it is treated like a missing key.
- EntityTypeRules.IsYesNo: `re.IGNORECASE` is modelled as ASCII case folding. Python also folds a few other letters, such as 'ſ' (U+017F) to 's', so "yeſ" is flagged by the source and not by the model; the response message patterns are folded the same way.
- TestCases.FlattenTpData: `str.lower()` is modelled on ASCII letters only; R007 can differ for non-ASCII capitals (a phrase "Über" against an utterance "über" matches in Python and not in the model).
- ResponseMessages.ResponseMessageRules.WhQuestions: `\w` is modelled up to U+00FF. Above it the model treats every character as a non-word character, so "Howж?" ('ж' is U+0436) gets R002 in the model, while Python's Unicode `\b` finds no boundary after "How" and stays silent.
- ResponseMessages.ResponseMessageRules.ClarifyingQuestions: the same `\w` range; "Howж." gets R003 in the model and not in Python.
- Text.Repr: printability is decided for characters up to U+00FF only; a non-printable character above it (such as U+2028) is copied, where Python writes `\uXXXX`.
- Export.Turn: a turn always has `userInput` and `virtualAgentOutput`, and a triggered intent is its `name`. Python raises `KeyError` for a turn without either key and for a triggered intent without `name` (src/resources/test_cases.py:99-100, 113); those files are not representable. An empty `text` object, which Python skips as falsy (src/resources/test_cases.py:107), is not representable either: a present `text` always carries its `text` string.
- Export.RouteGroupFile: a route group file is taken to have a `displayName`; a file without one, which Python would name `None`, is not modelled.
- User-supplied naming regexes: they are the `Search` parameter. Case folding is ASCII only.
- src/cxlint/resources/types.py is not part of this model. `Agent` and `Fulfillment` follow src/resources/types.py together with their use in src/cxlint/resources/routes.py.
- Sets iterated in Python's unspecified order. The flow rules return the order they used, and the contracts hold for any order.
- Python crashes become preconditions:
  - `lint_form` reads `page.form` of a page without a form;
  - a preset without a value;
  - an empty tag in the tag filter (`tag[0]`);
  - a test case without a display name;
  - a turn without `input`;
  - a naming rule without a pattern (unbound `res`) in src/rules/webhooks.py and src/rules/entity_types.py;
  - a missing language in `yes_no_entities`;
  - an empty or missing `parts` list in the intent rules;
  - an event handler or reprompt handler with an `event` and no `triggerFulfillment`: the `if not path and not event` guard lets it through, then `check_for_webhook` tests `"webhook" in None` and `lint_fulfillment_type` calls `None.get` (src/cxlint/resources/routes.py:41, 202, 244-275); this is `Routes.RouteReady`;
  - a language file without a "trainingPhrases" key: the intent loader stores `None`, which `gather_training_phrases` iterates and `min_tps_head_intent` takes `len` of (src/resources/intents.py:164-165, src/cxlint/rules/intents.py:90-92, 235); this is `Intents.Intents.LangReady`;
  - a path `parse_filepath` does not match.
- A route group is linted as a `Page`, as src/resources/route_groups.py does.
- `total_route_groups` is overwritten by each flow's count, as in the source.
- Flows.Flows.AnalyzeFlow: `Analyzed` (active pages are exactly the names reachable from the start page) is stated only for a flow whose analysis sets start empty, which is how `lint_flow` calls it.
- Intents.Intents.LintIntent: the intent's display name is not cleaned, as in the source.
- TestCases.PairsOf: a pair is extracted only for a non-empty text, as the code's `if intent and text` does.
- TestCases.TestCases.GatherPair: a key missing from the intent directory map stands for a missing directory. The `except Exception` path is modelled as a language file that `flatten_tp_data` cannot read.
- Flows.Flows.LintStartPage: the route effects, the exact lines and the exact inspections of the start page are stated by `LoadStartPage` and `LintLoadedStartPage` on the page object, not on the flow file. Restating them on the file would carry the whole route fold into every caller's proof.
- Pages.Pages.LintPageFile: states the page count, the new page's name, node and id, and that the issues grow by the lines logged. The page's route effects, lines and inspections are stated by `LintPage` about the page object, not here. Carrying them up makes the proofs of the callers exceed the verifier's resource limit.
- Pages.Pages.LintPageFiles: states the counts, names, nodes and ids of the page files; the summed route effects, lines and the exact inspections of the pages are not stated, for the same reason. Inspections are bounded below by one per page when R011 is enabled; the issues equal the lines logged.
- Pages.Pages.LintPagesDirectory: as `LintPageFiles` when the flow has a pages directory.
- Flows.Flows.LintFlowResources: states nodes, `all_pages`, `flow.data`, the flow id and the page and route group counts; the inspections and issues of the start page, the pages and the route groups are stated by `LintStartPage`, `Pages.Pages.LintPagesDirectory` and `RouteGroups.RouteGroups.LintRouteGroupsDirectory`, not summed here.
- Flows.Flows.LintUnfilteredFlow: the inspections, issues and lines of one flow are not summed; `LintFlowResources` and `AnalyzeAndReport` state their parts.
- Flows.Flows.LintFlow: as `LintUnfilteredFlow` for an unfiltered flow.
- Flows.Flows.LintFlowDir: as `LintFlow`; only `total_pages` is stated per flow directory.
- Flows.Flows.LintFlowsDirectory: `total_inspected`, `total_issues` and the lines are not stated as sums over the flows; the rating is stated as a function of the final counters.
- The superseded copies of the linter (cxlint.py, rules.py, src/flows.py, src/intents.py, src/rules.py, src/rules/intents.py, src/resources/flows.py and src/resources/routes.py) and the command-line drivers.
- src/resources/agents.py (an empty stub), and the loaders src/resources/entity_types.py and src/resources/webhooks.py. The rules they call are modelled.
