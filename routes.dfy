/**
 * The fulfillment linter of `src/cxlint/resources/routes.py`. For every
 * entry fulfillment, transition route, event handler and reprompt handler of
 * a page it describes the trigger, records the route targets in the flow
 * graph, flags webhooks and webhook error handlers on the page, lints every
 * response text with the response message rules, and records every
 * parameter preset both per flow and page and in the agent's session
 * parameter history.
 *
 * The linting of a list of routes is specified by folds over the list
 * (`Linted`, `RoutesItems`, `AnyWebhook`, `AnyHandler`, and `AllTargets`),
 * each built from the contribution of one route.
 */
module Routes {
  import opened Wrappers
  import opened Text
  import opened Export
  import opened Types
  import opened Logger
  import opened Graphs
  import opened Collections
  import opened ResponseMessages

  // ---------------------------------------------------------------------
  // Trigger descriptions

  /** Python's `f"{x}"` of an optional string: the string itself, or `None`. */
  function Shown(o: Option<string>): string {
    if o.Some? then o.value else "None"
  }

  /** The keys `collect_transition_route_trigger` lists for a transition route, intent first. */
  function TriggerKeys(route: RouteData): (r: seq<string>)
    ensures ("intent" in r) <==> route.intent.Some?
    ensures ("condition" in r) <==> route.condition.Some?
    ensures route.intent.Some? ==> r[0] == "intent"
  {
    (if route.intent.Some? then ["intent"] else []) + (if route.condition.Some? then ["condition"] else [])
  }

  /**
   * `collect_transition_route_trigger`: the listed keys joined with `+`; a
   * route with neither key keeps the empty list, which prints as `[]`. In
   * verbose mode a named intent is appended.
   */
  function CollectTransitionRouteTrigger(verbose: bool, route: RouteData): string {
    var keys := TriggerKeys(route);
    var trigger := if |keys| > 0 then Join(keys, "+") else "[]";
    if verbose && Truthy(route.intent) then trigger + " : " + route.intent.value else trigger
  }

  /** `get_trigger_info`; the entry fulfillment never asks for one (its trigger is the word `entry`). */
  function GetTriggerInfo(kind: FulfillmentType, verbose: bool, parameter: Option<string>, route: RouteData): string
    requires kind != Entry
  {
    match kind
    case Event => "event : " + Shown(route.event)
    case RepromptHandler => Shown(parameter) + " : event : " + Shown(route.event)
    case TransitionRoute => "route : " + CollectTransitionRouteTrigger(verbose, route)
  }

  /** A string that contains `sub` contains every character of `sub`. */
  lemma ContainsChars(s: string, sub: string, k: int)
    requires Contains(s, sub) && 0 <= k < |sub|
    ensures sub[k] in s
  {
    var i :| 0 <= i <= |s| - |sub| && OccursAt(s, sub, i);
    assert s[i + k] == sub[k];
  }

  /** Event and reprompt handler triggers name the event, so the wh-question rule R002 never fires on them. */
  lemma HandlerTriggersSilenceR002(kind: FulfillmentType, verbose: bool, parameter: Option<string>, route: RouteData, f: Fulfillment)
    requires kind == Event || kind == RepromptHandler
    requires f.trigger == GetTriggerInfo(kind, verbose, parameter, route)
    ensures Contains(f.trigger, "event")
    ensures !R002Fires(f)
  {
    if kind == Event {
      assert OccursAt(f.trigger, "event", 0);
    } else {
      var p := Shown(parameter);
      assert f.trigger == p + " : event : " + Shown(route.event);
      assert f.trigger[|p| + 3..|p| + 8] == "event";
      assert OccursAt(f.trigger, "event", |p| + 3);
    }
  }

  /** Outside verbose mode a transition route's trigger is one of four fixed strings, none with a `v`. */
  lemma RouteTriggerWithoutV(route: RouteData)
    ensures 'v' !in CollectTransitionRouteTrigger(false, route)
  {
    var keys := TriggerKeys(route);
    if route.intent.Some? && route.condition.Some? {
      assert keys == ["intent", "condition"];
      assert Join(keys[1..], "+") == "condition";
      assert CollectTransitionRouteTrigger(false, route) == "intent+condition";
    } else if route.intent.Some? {
      assert CollectTransitionRouteTrigger(false, route) == "intent";
    } else if route.condition.Some? {
      assert CollectTransitionRouteTrigger(false, route) == "condition";
    } else {
      assert CollectTransitionRouteTrigger(false, route) == "[]";
    }
  }

  /**
   * Outside verbose mode a transition route's trigger never contains the
   * word `event`, so the clarifying-question rule R003 never fires on it.
   */
  lemma RouteTriggersSilenceR003(parameter: Option<string>, route: RouteData, f: Fulfillment)
    requires f.trigger == GetTriggerInfo(TransitionRoute, false, parameter, route)
    ensures !Contains(f.trigger, "event")
    ensures !R003Fires(f)
  {
    RouteTriggerWithoutV(route);
    assert f.trigger == "route : " + CollectTransitionRouteTrigger(false, route);
    assert 'v' !in f.trigger;
    if Contains(f.trigger, "event") {
      ContainsChars(f.trigger, "event", 1);
    }
  }

  // ---------------------------------------------------------------------
  // Route targets in the flow graph

  /** The graph targets of one route: its target page, then its target flow tagged `FLOW: `. */
  function RouteTargets(route: RouteData): (r: seq<string>)
    ensures |r| <= 2
    ensures Truthy(route.targetPage) ==> route.targetPage.value in r
    ensures Truthy(route.targetFlow) ==> "FLOW: " + route.targetFlow.value in r
    ensures !Truthy(route.targetPage) && !Truthy(route.targetFlow) ==> r == []
  {
    (if Truthy(route.targetPage) then [route.targetPage.value] else [])
    + (if Truthy(route.targetFlow) then ["FLOW: " + route.targetFlow.value] else [])
  }

  /** The targets of a list of routes, route by route. */
  function AllTargets(routes: seq<RouteData>): seq<string> {
    if |routes| == 0 then [] else AllTargets(routes[..|routes| - 1]) + RouteTargets(routes[|routes| - 1])
  }

  /** The edges after `add_edge(a, b)` for each `b` of `bs` in turn; no call leaves the map as it was. */
  function AddEdges(edges: map<string, seq<string>>, a: string, bs: seq<string>): map<string, seq<string>> {
    if |bs| == 0 then edges else edges[a := Successors(edges, a) + bs]
  }

  /** Adding edges from `a` appends to `a`'s successor list and touches no other node. */
  lemma AddEdgesSuccessors(edges: map<string, seq<string>>, a: string, bs: seq<string>, n: string)
    ensures Successors(AddEdges(edges, a, bs), n) == if n == a then Successors(edges, a) + bs else Successors(edges, n)
    ensures n != a ==> (n in AddEdges(edges, a, bs) <==> n in edges)
  {
  }

  /** Adding `xs` and then `ys` from the same node is adding `xs + ys`. */
  lemma AddEdgesAppend(edges: map<string, seq<string>>, a: string, xs: seq<string>, ys: seq<string>)
    ensures AddEdges(AddEdges(edges, a, xs), a, ys) == AddEdges(edges, a, xs + ys)
  {
    if |ys| == 0 {
      assert xs + ys == xs;
    } else if |xs| == 0 {
      assert xs + ys == ys;
    } else {
      assert Successors(AddEdges(edges, a, xs), a) == Successors(edges, a) + xs;
      assert Successors(edges, a) + xs + ys == Successors(edges, a) + (xs + ys);
    }
  }

  // ---------------------------------------------------------------------
  // Parameter presets

  /** Flow display name to page display name to the parameter presets seen there. */
  type RouteParameters = map<string, map<string, seq<Item>>>

  /** `update_route_parameters` on the map, with its three branches. */
  function UpdateRouteParams(rp: RouteParameters, flowName: string, pageName: string, item: Item): RouteParameters {
    var flowData := Get(rp, flowName);
    var pageData := if flowData.Some? && |flowData.value| > 0 then Get(flowData.value, pageName) else None;
    if Truthy(pageData) then rp[flowName := rp[flowName][pageName := rp[flowName][pageName] + [item]]]
    else if flowData.Some? && |flowData.value| > 0 then rp[flowName := rp[flowName][pageName := [item]]]
    else rp[flowName := map[pageName := [item]]]
  }

  /** No flow entry and no page list is empty, as the linter never creates an empty one. */
  predicate NoneEmpty(rp: RouteParameters) {
    forall f | f in rp :: |rp[f]| > 0 && forall p | p in rp[f] :: |rp[f][p]| > 0
  }

  /** The preset list of `flowName`/`pageName`, empty when there is none. */
  function PresetsAt(rp: RouteParameters, flowName: string, pageName: string): seq<Item> {
    Get(Get(rp, flowName).GetOr(map[]), pageName).GetOr([])
  }

  /**
   * A preset is appended to the list of its flow and page, creating the
   * flow entry and the page list when missing; every other list is kept.
   */
  lemma UpdateRouteParamsRecords(rp: RouteParameters, flowName: string, pageName: string, item: Item, f: string, p: string)
    requires NoneEmpty(rp)
    ensures NoneEmpty(UpdateRouteParams(rp, flowName, pageName, item))
    ensures PresetsAt(UpdateRouteParams(rp, flowName, pageName, item), f, p)
      == if f == flowName && p == pageName then PresetsAt(rp, f, p) + [item] else PresetsAt(rp, f, p)
    ensures f in UpdateRouteParams(rp, flowName, pageName, item) <==> f in rp || f == flowName
  {
    UpdateKeepsNoneEmpty(rp, flowName, pageName, item);
    UpdatePresetsAt(rp, flowName, pageName, item, f, p);
  }

  /** The update leaves no flow entry and no page list empty. */
  lemma UpdateKeepsNoneEmpty(rp: RouteParameters, flowName: string, pageName: string, item: Item)
    requires NoneEmpty(rp)
    ensures NoneEmpty(UpdateRouteParams(rp, flowName, pageName, item))
  {
  }

  /** Only the list of the preset's flow and page changes, by gaining the preset. */
  lemma UpdatePresetsAt(rp: RouteParameters, flowName: string, pageName: string, item: Item, f: string, p: string)
    requires NoneEmpty(rp)
    ensures PresetsAt(UpdateRouteParams(rp, flowName, pageName, item), f, p)
      == if f == flowName && p == pageName then PresetsAt(rp, f, p) + [item] else PresetsAt(rp, f, p)
  {
  }

  /** `update_session_parameters` on the agent's map: append to a known parameter's histories, or start new ones. */
  function UpdateSession(sp: map<string, SessionParameter>, pageName: string, key: string, value: Json): map<string, SessionParameter> {
    if key in sp then
      sp[key := SessionParameter(value, sp[key].valueHistory + [value], pageName, sp[key].pageHistory + [pageName])]
    else
      sp[key := SessionParameter(value, [value], pageName, [pageName])]
  }

  /** Every session parameter is `Valid`. */
  predicate AllValid(sp: map<string, SessionParameter>) {
    forall k | k in sp :: sp[k].Valid()
  }

  /**
   * After a preset the parameter's current value and page are the preset's,
   * its histories grew by exactly that pair, every other parameter is kept,
   * and validity is preserved.
   */
  lemma UpdateSessionRecords(sp: map<string, SessionParameter>, pageName: string, key: string, value: Json)
    requires AllValid(sp)
    ensures AllValid(UpdateSession(sp, pageName, key, value))
    ensures key in UpdateSession(sp, pageName, key, value)
    ensures UpdateSession(sp, pageName, key, value)[key].currentValue == value
    ensures UpdateSession(sp, pageName, key, value)[key].currentPage == pageName
    ensures UpdateSession(sp, pageName, key, value)[key].valueHistory
      == (if key in sp then sp[key].valueHistory else []) + [value]
    ensures UpdateSession(sp, pageName, key, value)[key].pageHistory
      == (if key in sp then sp[key].pageHistory else []) + [pageName]
    ensures forall k | k in sp && k != key :: k in UpdateSession(sp, pageName, key, value) && UpdateSession(sp, pageName, key, value)[k] == sp[k]
  {
  }

  /** Every preset item carries both a `parameter` and a `value` (a missing `value` is a crash). */
  predicate PresetsComplete(items: seq<Item>) {
    forall i | 0 <= i < |items| :: items[i].parameter.Some? ==> items[i].value.Some?
  }

  /** The route parameters after the presets among `items`, in order. */
  function ParamsAfter(rp: RouteParameters, flowName: string, pageName: string, items: seq<Item>): RouteParameters {
    if |items| == 0 then rp
    else
      var before := ParamsAfter(rp, flowName, pageName, items[..|items| - 1]);
      var item := items[|items| - 1];
      if item.parameter.Some? then UpdateRouteParams(before, flowName, pageName, item) else before
  }

  /** The session parameters after the presets among `items`, in order. */
  function SessionsAfter(sp: map<string, SessionParameter>, pageName: string, items: seq<Item>): map<string, SessionParameter> {
    if |items| == 0 then sp
    else
      var before := SessionsAfter(sp, pageName, items[..|items| - 1]);
      var item := items[|items| - 1];
      if item.parameter.Some? then UpdateSession(before, pageName, item.parameter.value, item.value.GetOr(JNull)) else before
  }

  lemma {:induction false} ParamsAfterAppend(rp: RouteParameters, flowName: string, pageName: string, a: seq<Item>, b: seq<Item>)
    ensures ParamsAfter(rp, flowName, pageName, a + b) == ParamsAfter(ParamsAfter(rp, flowName, pageName, a), flowName, pageName, b)
    decreases |b|
  {
    if |b| == 0 {
      assert a + b == a;
    } else {
      assert (a + b)[..|a + b| - 1] == a + b[..|b| - 1];
      ParamsAfterAppend(rp, flowName, pageName, a, b[..|b| - 1]);
    }
  }

  lemma {:induction false} SessionsAfterAppend(sp: map<string, SessionParameter>, pageName: string, a: seq<Item>, b: seq<Item>)
    ensures SessionsAfter(sp, pageName, a + b) == SessionsAfter(SessionsAfter(sp, pageName, a), pageName, b)
    decreases |b|
  {
    if |b| == 0 {
      assert a + b == a;
    } else {
      assert (a + b)[..|a + b| - 1] == a + b[..|b| - 1];
      SessionsAfterAppend(sp, pageName, a, b[..|b| - 1]);
    }
  }

  /** No sequence of presets breaks a session parameter's history, and every preset key ends up known. */
  lemma {:induction false} SessionsAfterValid(sp: map<string, SessionParameter>, pageName: string, items: seq<Item>)
    requires AllValid(sp)
    ensures AllValid(SessionsAfter(sp, pageName, items))
    ensures forall i | 0 <= i < |items| && items[i].parameter.Some? :: items[i].parameter.value in SessionsAfter(sp, pageName, items)
    ensures forall k | k in sp :: k in SessionsAfter(sp, pageName, items)
    decreases |items|
  {
    if |items| > 0 {
      var front := items[..|items| - 1];
      SessionsAfterValid(sp, pageName, front);
      var before := SessionsAfter(sp, pageName, front);
      var item := items[|items| - 1];
      if item.parameter.Some? {
        UpdateSessionRecords(before, pageName, item.parameter.value, item.value.GetOr(JNull));
      }
      forall i | 0 <= i < |items| && items[i].parameter.Some?
        ensures items[i].parameter.value in SessionsAfter(sp, pageName, items)
      {
        if i < |items| - 1 {
          assert front[i] == items[i];
        }
      }
    }
  }

  /** Presets also keep the route parameter map free of empty entries. */
  lemma {:induction false} ParamsAfterNoneEmpty(rp: RouteParameters, flowName: string, pageName: string, items: seq<Item>)
    requires NoneEmpty(rp)
    ensures NoneEmpty(ParamsAfter(rp, flowName, pageName, items))
    decreases |items|
  {
    if |items| > 0 {
      var front := items[..|items| - 1];
      ParamsAfterNoneEmpty(rp, flowName, pageName, front);
      var item := items[|items| - 1];
      if item.parameter.Some? {
        UpdateRouteParamsRecords(ParamsAfter(rp, flowName, pageName, front), flowName, pageName, item, flowName, pageName);
      }
    }
  }

  // ---------------------------------------------------------------------
  // Response texts

  /** The two keys of a fulfillment that `lint_fulfillment_type` is called with. */
  datatype FulfillmentKey = Messages | SetParameterActions

  function Lookup(path: FulfillmentData, key: FulfillmentKey): Option<seq<Item>> {
    match key
    case Messages => path.messages
    case SetParameterActions => path.setParameterActions
  }

  /** The response texts of `items`, item by item. */
  function TextsOf(items: seq<Item>): seq<string> {
    if |items| == 0 then [] else TextsOf(items[..|items| - 1]) + Items(items[|items| - 1].text)
  }

  lemma {:induction false} TextsOfAppend(a: seq<Item>, b: seq<Item>)
    ensures TextsOf(a + b) == TextsOf(a) + TextsOf(b)
    decreases |b|
  {
    if |b| == 0 {
      assert a + b == a;
    } else {
      assert (a + b)[..|a + b| - 1] == a + b[..|b| - 1];
      TextsOfAppend(a, b[..|b| - 1]);
    }
  }

  /** The fulfillment `route` as the response message rules see it for each text in turn. */
  function WithTexts(route: Fulfillment, texts: seq<string>): (r: seq<Fulfillment>)
    ensures |r| == |texts|
    ensures forall i | 0 <= i < |r| :: r[i].text == texts[i] && r[i].(text := route.text) == route
  {
    seq(|texts|, i requires 0 <= i < |texts| => route.(text := texts[i]))
  }

  lemma WithTextsAppend(route: Fulfillment, a: seq<string>, b: seq<string>)
    ensures WithTexts(route, a + b) == WithTexts(route, a) + WithTexts(route, b)
  {
  }

  /** The lines the response message rules log for the texts `fs`, in order. */
  function RmLog(rm: Fulfillment -> seq<Diagnostic>, fs: seq<Fulfillment>): seq<Diagnostic> {
    if |fs| == 0 then [] else RmLog(rm, fs[..|fs| - 1]) + rm(fs[|fs| - 1])
  }

  lemma {:induction false} RmLogAppend(rm: Fulfillment -> seq<Diagnostic>, a: seq<Fulfillment>, b: seq<Fulfillment>)
    ensures RmLog(rm, a + b) == RmLog(rm, a) + RmLog(rm, b)
    decreases |b|
  {
    if |b| == 0 {
      assert a + b == a;
    } else {
      assert (a + b)[..|a + b| - 1] == a + b[..|b| - 1];
      RmLogAppend(rm, a, b[..|b| - 1]);
    }
  }

  /** One more text adds the lines of the response message rules for it. */
  lemma RmLogSnoc(rm: Fulfillment -> seq<Diagnostic>, route: Fulfillment, texts: seq<string>, j: int)
    requires 0 <= j < |texts|
    ensures RmLog(rm, WithTexts(route, texts[..j + 1]))
      == RmLog(rm, WithTexts(route, texts[..j])) + rm(route.(text := texts[j]))
  {
    assert texts[..j + 1] == texts[..j] + [texts[j]];
    WithTextsAppend(route, texts[..j], [texts[j]]);
    RmLogAppend(rm, WithTexts(route, texts[..j]), WithTexts(route, [texts[j]]));
    assert RmLog(rm, WithTexts(route, [texts[j]])) == rm(route.(text := texts[j]));
  }

  /** One more item adds the lines for its texts. */
  lemma RmLogItemsSnoc(rm: Fulfillment -> seq<Diagnostic>, route: Fulfillment, items: seq<Item>, i: int)
    requires 0 <= i < |items|
    ensures TextsOf(items[..i + 1]) == TextsOf(items[..i]) + Items(items[i].text)
    ensures RmLog(rm, WithTexts(route, TextsOf(items[..i + 1])))
      == RmLog(rm, WithTexts(route, TextsOf(items[..i]))) + RmLog(rm, WithTexts(route, Items(items[i].text)))
  {
    assert items[..i + 1][..i] == items[..i];
    WithTextsAppend(route, TextsOf(items[..i]), Items(items[i].text));
    RmLogAppend(rm, WithTexts(route, TextsOf(items[..i])), WithTexts(route, Items(items[i].text)));
  }

  /** At most two lines per text, and none at all unless the agent is a voice agent. */
  lemma {:induction false} RmLogBounds(disableMap: map<string, bool>, fs: seq<Fulfillment>)
    ensures |RmLog(RmOf(disableMap), fs)| <= 2 * |fs|
    ensures (forall i | 0 <= i < |fs| :: !IsVoice(fs[i])) ==> RmLog(RmOf(disableMap), fs) == []
    decreases |fs|
  {
    if |fs| > 0 {
      RmLogBounds(disableMap, fs[..|fs| - 1]);
      RmDiagnosticsAtMostTwo(disableMap, fs[|fs| - 1]);
    }
  }

  // ---------------------------------------------------------------------
  // Lists of routes

  const NoPath := FulfillmentData(None, None, None, false)

  /** The `triggerFulfillment` of a route, or an empty one. */
  function PathOf(route: RouteData): FulfillmentData {
    route.triggerFulfillment.GetOr(NoPath)
  }

  /**
   * A route the loop goes on to lint: its fulfillment is a non-empty object,
   * or (for event and reprompt handlers) it names an event.
   */
  predicate Processed(kind: FulfillmentType, route: RouteData) {
    (route.triggerFulfillment.Some? && route.triggerFulfillment.value.Truthy())
    || (kind != TransitionRoute && Truthy(route.event))
  }

  /** A route the linter gets through: processed routes have a fulfillment, and every preset in it has a value. */
  predicate RouteReady(kind: FulfillmentType, route: RouteData) {
    Processed(kind, route) ==> route.triggerFulfillment.Some? && PresetsComplete(PathItems(kind, PathOf(route)))
  }

  predicate RoutesReady(kind: FulfillmentType, routes: seq<RouteData>) {
    forall i | 0 <= i < |routes| :: RouteReady(kind, routes[i])
  }

  /** The items linted for one fulfillment: its messages, and for transition routes also its presets. */
  function PathItems(kind: FulfillmentType, path: FulfillmentData): seq<Item> {
    Items(Lookup(path, Messages)) + (if kind == TransitionRoute then Items(Lookup(path, SetParameterActions)) else [])
  }

  /** The items `lint_entry` lints: the messages of a non-empty entry fulfillment. */
  function EntryItems(entry: Option<FulfillmentData>): seq<Item> {
    if entry.Some? && entry.value.Truthy() then Items(entry.value.messages) else []
  }

  /** A non-empty entry fulfillment with a webhook. */
  predicate EntryWebhook(entry: Option<FulfillmentData>) {
    entry.Some? && entry.value.Truthy() && entry.value.webhook.Some?
  }

  /** What `lint_entry` changes: `has_webhook` when the entry has a webhook, and the presets among its messages. */
  function AfterEntry(e: RouteEffects, flowName: string, pageName: string, entry: Option<FulfillmentData>): RouteEffects {
    e.(hasWebhook := e.hasWebhook || EntryWebhook(entry),
       routeParameters := ParamsAfter(e.routeParameters, flowName, pageName, EntryItems(entry)),
       sessionParameters := SessionsAfter(e.sessionParameters, pageName, EntryItems(entry)))
  }

  /** `base` with the trigger of `route`; `base` carries the kind, agent type, page and flow. */
  function RouteFulfillment(base: Fulfillment, verbose: bool, parameter: Option<string>, route: RouteData): Fulfillment
    requires base.fulfillmentType != Entry
  {
    base.(trigger := GetTriggerInfo(base.fulfillmentType, verbose, parameter, route))
  }

  /** What one route contributes to the texts under inspection. */
  function StepLinted(base: Fulfillment, verbose: bool, parameter: Option<string>, route: RouteData): seq<Fulfillment>
    requires base.fulfillmentType != Entry
  {
    if Processed(base.fulfillmentType, route) then
      WithTexts(RouteFulfillment(base, verbose, parameter, route), TextsOf(PathItems(base.fulfillmentType, PathOf(route))))
    else []
  }

  /** What one route contributes to the items whose presets are recorded. */
  function StepItems(kind: FulfillmentType, route: RouteData): seq<Item> {
    if Processed(kind, route) then PathItems(kind, PathOf(route)) else []
  }

  /** One route raises `has_webhook`: a processed transition route or reprompt handler whose fulfillment has a webhook. */
  predicate StepWebhook(kind: FulfillmentType, route: RouteData) {
    kind != Event && Processed(kind, route) && PathOf(route).webhook.Some?
  }

  /** One processed event handler whose trigger names `webhook.error`. */
  predicate StepHandler(base: Fulfillment, verbose: bool, parameter: Option<string>, route: RouteData)
    requires base.fulfillmentType != Entry
  {
    base.fulfillmentType == Event && Processed(Event, route)
    && Contains(RouteFulfillment(base, verbose, parameter, route).trigger, "webhook.error")
  }

  function Linted(base: Fulfillment, verbose: bool, parameter: Option<string>, routes: seq<RouteData>): seq<Fulfillment>
    requires base.fulfillmentType != Entry
  {
    if |routes| == 0 then []
    else Linted(base, verbose, parameter, routes[..|routes| - 1]) + StepLinted(base, verbose, parameter, routes[|routes| - 1])
  }

  function RoutesItems(kind: FulfillmentType, routes: seq<RouteData>): seq<Item> {
    if |routes| == 0 then [] else RoutesItems(kind, routes[..|routes| - 1]) + StepItems(kind, routes[|routes| - 1])
  }

  predicate AnyWebhook(kind: FulfillmentType, routes: seq<RouteData>) {
    |routes| > 0 && (AnyWebhook(kind, routes[..|routes| - 1]) || StepWebhook(kind, routes[|routes| - 1]))
  }

  predicate AnyHandler(base: Fulfillment, verbose: bool, parameter: Option<string>, routes: seq<RouteData>)
    requires base.fulfillmentType != Entry
  {
    |routes| > 0 && (AnyHandler(base, verbose, parameter, routes[..|routes| - 1]) || StepHandler(base, verbose, parameter, routes[|routes| - 1]))
  }

  /** One text is inspected for every text of every item whose preset the loop records. */
  lemma {:induction false} LintedMatchesItems(base: Fulfillment, verbose: bool, parameter: Option<string>, routes: seq<RouteData>)
    requires base.fulfillmentType != Entry
    ensures |Linted(base, verbose, parameter, routes)| == |TextsOf(RoutesItems(base.fulfillmentType, routes))|
    decreases |routes|
  {
    if |routes| > 0 {
      var front := routes[..|routes| - 1];
      LintedMatchesItems(base, verbose, parameter, front);
      TextsOfAppend(RoutesItems(base.fulfillmentType, front), StepItems(base.fulfillmentType, routes[|routes| - 1]));
    }
  }

  /** Transition routes carry no agent type, so none of their texts is logged. */
  lemma RoutesLogNothing(disableMap: map<string, bool>, base: Fulfillment, verbose: bool, parameter: Option<string>, routes: seq<RouteData>)
    requires base.fulfillmentType != Entry && base.agentType.None?
    ensures RmLog(RmOf(disableMap), Linted(base, verbose, parameter, routes)) == []
  {
    var fs := Linted(base, verbose, parameter, routes);
    LintedAgentType(base, verbose, parameter, routes);
    RmLogBounds(disableMap, fs);
  }

  /** Every linted text keeps the agent type of `base`. */
  lemma {:induction false} LintedAgentType(base: Fulfillment, verbose: bool, parameter: Option<string>, routes: seq<RouteData>)
    requires base.fulfillmentType != Entry
    ensures forall i | 0 <= i < |Linted(base, verbose, parameter, routes)| :: Linted(base, verbose, parameter, routes)[i].agentType == base.agentType
    decreases |routes|
  {
    if |routes| > 0 {
      LintedAgentType(base, verbose, parameter, routes[..|routes| - 1]);
    }
  }

  /** The contribution of one more route to each fold. */
  lemma RoutesSnoc(base: Fulfillment, verbose: bool, parameter: Option<string>, routes: seq<RouteData>, route: RouteData)
    requires base.fulfillmentType != Entry
    ensures Linted(base, verbose, parameter, routes + [route]) == Linted(base, verbose, parameter, routes) + StepLinted(base, verbose, parameter, route)
    ensures RoutesItems(base.fulfillmentType, routes + [route]) == RoutesItems(base.fulfillmentType, routes) + StepItems(base.fulfillmentType, route)
    ensures AnyWebhook(base.fulfillmentType, routes + [route]) == (AnyWebhook(base.fulfillmentType, routes) || StepWebhook(base.fulfillmentType, route))
    ensures AnyHandler(base, verbose, parameter, routes + [route]) == (AnyHandler(base, verbose, parameter, routes) || StepHandler(base, verbose, parameter, route))
    ensures AllTargets(routes + [route]) == AllTargets(routes) + RouteTargets(route)
  {
    assert (routes + [route])[..|routes|] == routes;
  }

  /**
   * The state linting a route of a page changes besides the diagnostics and
   * the counters: the flow graph, the page's webhook flags and the recorded
   * presets.
   */
  datatype RouteEffects = RouteEffects(
    edges: map<string, seq<string>>,
    usedNodes: set<string>,
    hasWebhook: bool,
    hasWebhookEventHandler: bool,
    routeParameters: RouteParameters,
    sessionParameters: map<string, SessionParameter>)

  /**
   * One route, in the order the loop body works: its targets become edges
   * and used nodes; a processed route flags the page (an event handler
   * naming `webhook.error` only on a page that already has a webhook), and
   * its presets are recorded.
   */
  function AfterRoute(e: RouteEffects, base: Fulfillment, verbose: bool, parameter: Option<string>, route: RouteData): RouteEffects
    requires base.fulfillmentType != Entry
  {
    var kind, page := base.fulfillmentType, base.pageDisplayName;
    var items := StepItems(kind, route);
    RouteEffects(
      AddEdges(e.edges, page, RouteTargets(route)),
      e.usedNodes + Elements(RouteTargets(route)),
      e.hasWebhook || StepWebhook(kind, route),
      e.hasWebhookEventHandler || (e.hasWebhook && StepHandler(base, verbose, parameter, route)),
      ParamsAfter(e.routeParameters, base.flowDisplayName, page, items),
      SessionsAfter(e.sessionParameters, page, items))
  }

  /** Every route of a list, first to last. */
  function AfterRoutes(e: RouteEffects, base: Fulfillment, verbose: bool, parameter: Option<string>, routes: seq<RouteData>): RouteEffects
    requires base.fulfillmentType != Entry
  {
    if |routes| == 0 then e
    else AfterRoute(AfterRoutes(e, base, verbose, parameter, routes[..|routes| - 1]), base, verbose, parameter, routes[|routes| - 1])
  }

  /** A list of routes adds an edge to every target, in order, and marks every target used. */
  lemma {:induction false} AfterRoutesGraph(e: RouteEffects, base: Fulfillment, verbose: bool, parameter: Option<string>, routes: seq<RouteData>)
    requires base.fulfillmentType != Entry
    ensures AfterRoutes(e, base, verbose, parameter, routes).edges == AddEdges(e.edges, base.pageDisplayName, AllTargets(routes))
    ensures AfterRoutes(e, base, verbose, parameter, routes).usedNodes == e.usedNodes + Elements(AllTargets(routes))
    decreases |routes|
  {
    if |routes| > 0 {
      var i := |routes| - 1;
      AfterRoutesGraph(e, base, verbose, parameter, routes[..i]);
      AddEdgesAppend(e.edges, base.pageDisplayName, AllTargets(routes[..i]), RouteTargets(routes[i]));
      ElementsAppend(AllTargets(routes[..i]), RouteTargets(routes[i]));
    }
  }

  /** A list of routes raises each webhook flag exactly when some route of it does. */
  lemma {:induction false} AfterRoutesFlags(e: RouteEffects, base: Fulfillment, verbose: bool, parameter: Option<string>, routes: seq<RouteData>)
    requires base.fulfillmentType != Entry
    ensures AfterRoutes(e, base, verbose, parameter, routes).hasWebhook == (e.hasWebhook || AnyWebhook(base.fulfillmentType, routes))
    ensures AfterRoutes(e, base, verbose, parameter, routes).hasWebhookEventHandler
      == (e.hasWebhookEventHandler || (e.hasWebhook && AnyHandler(base, verbose, parameter, routes)))
    decreases |routes|
  {
    if |routes| > 0 {
      var i := |routes| - 1;
      AfterRoutesFlags(e, base, verbose, parameter, routes[..i]);
      if base.fulfillmentType == Event {
        EventsRaiseNoWebhook(routes[..i]);
      }
    }
  }

  /** A list of routes records the presets of all its linted items, in order. */
  lemma {:induction false} AfterRoutesPresets(e: RouteEffects, base: Fulfillment, verbose: bool, parameter: Option<string>, routes: seq<RouteData>)
    requires base.fulfillmentType != Entry
    ensures AfterRoutes(e, base, verbose, parameter, routes).routeParameters
      == ParamsAfter(e.routeParameters, base.flowDisplayName, base.pageDisplayName, RoutesItems(base.fulfillmentType, routes))
    ensures AfterRoutes(e, base, verbose, parameter, routes).sessionParameters
      == SessionsAfter(e.sessionParameters, base.pageDisplayName, RoutesItems(base.fulfillmentType, routes))
    decreases |routes|
  {
    if |routes| > 0 {
      var i := |routes| - 1;
      AfterRoutesPresets(e, base, verbose, parameter, routes[..i]);
      var front, step := RoutesItems(base.fulfillmentType, routes[..i]), StepItems(base.fulfillmentType, routes[i]);
      ParamsAfterAppend(e.routeParameters, base.flowDisplayName, base.pageDisplayName, front, step);
      SessionsAfterAppend(e.sessionParameters, base.pageDisplayName, front, step);
    }
  }

  /** The folds over the first `i + 1` routes, from those over the first `i`. */
  lemma RoutesStep(e: RouteEffects, rm: Fulfillment -> seq<Diagnostic>, base: Fulfillment, verbose: bool, parameter: Option<string>,
                   routes: seq<RouteData>, i: int)
    requires base.fulfillmentType != Entry && 0 <= i < |routes|
    ensures AfterRoutes(e, base, verbose, parameter, routes[..i + 1])
      == AfterRoute(AfterRoutes(e, base, verbose, parameter, routes[..i]), base, verbose, parameter, routes[i])
    ensures Linted(base, verbose, parameter, routes[..i + 1])
      == Linted(base, verbose, parameter, routes[..i]) + StepLinted(base, verbose, parameter, routes[i])
    ensures RmLog(rm, Linted(base, verbose, parameter, routes[..i + 1]))
      == RmLog(rm, Linted(base, verbose, parameter, routes[..i])) + RmLog(rm, StepLinted(base, verbose, parameter, routes[i]))
  {
    assert routes[..i + 1][..i] == routes[..i];
    RmLogAppend(rm, Linted(base, verbose, parameter, routes[..i]), StepLinted(base, verbose, parameter, routes[i]));
  }

  /** Event handlers never raise `has_webhook`; only the webhook error check runs for them. */
  lemma {:induction false} EventsRaiseNoWebhook(routes: seq<RouteData>)
    ensures !AnyWebhook(Event, routes)
    decreases |routes|
  {
    if |routes| > 0 {
      EventsRaiseNoWebhook(routes[..|routes| - 1]);
    }
  }

  lemma PresetsCompleteSplit(a: seq<Item>, b: seq<Item>)
    requires PresetsComplete(a + b)
    ensures PresetsComplete(a) && PresetsComplete(b)
  {
    assert forall i | 0 <= i < |a| :: a[i] == (a + b)[i];
    assert forall i | 0 <= i < |b| :: b[i] == (a + b)[|a| + i];
  }

  /** `Fulfillment(page=page, ...)` before its trigger and text are set. */
  function PageBase(page: Page, kind: FulfillmentType, agentType: Option<string>): (f: Fulfillment)
    reads page`displayName, page`resourceId, page.flow`displayName, page.flow`resourceId
    ensures f.fulfillmentType == kind && f.agentType == agentType
    ensures f.pageDisplayName == page.displayName && f.flowDisplayName == page.flow.displayName
  {
    Fulfillment(kind, "", "", agentType, page.flow.displayName, page.flow.resourceId, page.displayName, page.resourceId)
  }

  class Fulfillments {
    const verbose: bool
    /** The configured agent type; only event and reprompt handlers pass it on to their fulfillments. */
    const agentType: Option<string>
    const rules: ResponseMessageRules
    var routeParameters: RouteParameters

    constructor (verbose: bool, disableMap: map<string, bool>, agentType: Option<string>)
      ensures this.verbose == verbose && this.agentType == agentType && routeParameters == map[]
      ensures fresh(rules) && fresh(rules.log) && rules.disableMap == disableMap && rules.log.lines == []
    {
      this.verbose := verbose;
      this.agentType := agentType;
      rules := new ResponseMessageRules(disableMap);
      routeParameters := map[];
    }

    /** The fulfillment a route of `kind` on `page` is linted as, before its trigger is set. */
    function Base(page: Page, kind: FulfillmentType): (f: Fulfillment)
      reads page`displayName, page`resourceId, page.flow`displayName, page.flow`resourceId
      ensures f.fulfillmentType == kind
    {
      PageBase(page, kind, if kind == TransitionRoute then None else agentType)
    }

    /** A fulfillment with a `webhook` key flags its page. */
    static method CheckForWebhook(page: Page, path: FulfillmentData)
      modifies page`hasWebhook
      ensures page.hasWebhook == (old(page.hasWebhook) || path.webhook.Some?)
    {
      if path.webhook.Some? {
        page.hasWebhook := true;
      }
    }

    /** On a page with a webhook, a trigger naming `webhook.error` flags the page as handling webhook errors. */
    static method CheckForWebhookEventHandlers(page: Page, trigger: string)
      modifies page`hasWebhookEventHandler
      ensures page.hasWebhookEventHandler
        == (old(page.hasWebhookEventHandler) || (page.hasWebhook && Contains(trigger, "webhook.error")))
    {
      if page.hasWebhook && !page.hasWebhookEventHandler && Contains(trigger, "webhook.error") {
        page.hasWebhookEventHandler := true;
      }
    }

    /** Records the preset `item` made on `page` in the agent's session parameters. */
    static method UpdateSessionParameters(page: Page, item: Item)
      requires item.parameter.Some? && item.value.Some?
      modifies page.flow.agent
      ensures page.flow.agent.sessionParameters
        == UpdateSession(old(page.flow.agent.sessionParameters), page.displayName, item.parameter.value, item.value.value)
    {
      var agent := page.flow.agent;
      var key, value := item.parameter.value, item.value.value;
      var res := Get(agent.sessionParameters, key);
      if res.Some? {
        var history := res.value;
        agent.sessionParameters := agent.sessionParameters[key :=
          SessionParameter(value, history.valueHistory + [value], page.displayName, history.pageHistory + [page.displayName])];
      } else {
        agent.sessionParameters := agent.sessionParameters[key :=
          SessionParameter(value, [value], page.displayName, [page.displayName])];
      }
    }

    /** Records the preset `item` under its flow and page, then in the session parameters. */
    method UpdateRouteParameters(page: Page, item: Item)
      requires item.parameter.Some? && item.value.Some?
      modifies this`routeParameters, page.flow.agent
      ensures routeParameters == UpdateRouteParams(old(routeParameters), page.flow.displayName, page.displayName, item)
      ensures page.flow.agent.sessionParameters
        == UpdateSession(old(page.flow.agent.sessionParameters), page.displayName, item.parameter.value, item.value.value)
    {
      var flowName, pageName := page.flow.displayName, page.displayName;
      var flowData := Get(routeParameters, flowName);
      var pageData: Option<seq<Item>> := None;
      if flowData.Some? && |flowData.value| > 0 {
        pageData := Get(flowData.value, pageName);
      }
      if Truthy(pageData) {
        routeParameters := routeParameters[flowName := routeParameters[flowName][pageName := routeParameters[flowName][pageName] + [item]]];
      } else if flowData.Some? && |flowData.value| > 0 {
        routeParameters := routeParameters[flowName := routeParameters[flowName][pageName := [item]]];
      } else {
        routeParameters := routeParameters[flowName := map[pageName := [item]]];
      }
      UpdateSessionParameters(page, item);
    }

    /** An edge from the page to each route target, and the targets marked used. */
    method SetRouteTargets(page: Page, route: RouteData)
      modifies page.flow.graph`edges, page.flow.graph`usedNodes
      ensures page.flow.graph.edges == AddEdges(old(page.flow.graph.edges), page.displayName, RouteTargets(route))
      ensures page.flow.graph.usedNodes == old(page.flow.graph.usedNodes) + Elements(RouteTargets(route))
      ensures page.KeepsData() && page.flow.KeepsPages()
    {
      var graph := page.flow.graph;
      var current := page.displayName;
      ghost var e0 := graph.edges;
      ghost var first: seq<string> := [];
      if Truthy(route.targetPage) {
        graph.AddEdge(current, route.targetPage.value);
        graph.AddUsedNode(route.targetPage.value);
        first := [route.targetPage.value];
      }
      assert graph.edges == AddEdges(e0, current, first);
      ghost var second: seq<string> := [];
      if Truthy(route.targetFlow) {
        graph.AddEdge(current, "FLOW: " + route.targetFlow.value);
        graph.AddUsedNode("FLOW: " + route.targetFlow.value);
        second := ["FLOW: " + route.targetFlow.value];
      }
      AddEdgesAppend(e0, current, first, second);
      assert RouteTargets(route) == first + second;
    }

    /** An edge from the page to each of its route groups, in order, and the groups marked used. */
    method SetRouteGroupTargets(page: Page)
      requires page.routeGroups.Some?
      modifies page.flow.graph`edges, page.flow.graph`usedNodes
      ensures page.flow.graph.edges == AddEdges(old(page.flow.graph.edges), page.displayName, page.routeGroups.value)
      ensures page.flow.graph.usedNodes == old(page.flow.graph.usedNodes) + Elements(page.routeGroups.value)
      ensures page.KeepsData() && page.flow.KeepsPages()
    {
      var graph := page.flow.graph;
      var current := page.displayName;
      var groups := page.routeGroups.value;
      ghost var e0, u0 := graph.edges, graph.usedNodes;
      for i := 0 to |groups|
        invariant graph.edges == AddEdges(e0, current, groups[..i])
        invariant graph.usedNodes == u0 + Elements(groups[..i])
      {
        graph.AddEdge(current, groups[i]);
        graph.AddUsedNode(groups[i]);
        AddEdgesAppend(e0, current, groups[..i], [groups[i]]);
        assert groups[..i + 1] == groups[..i] + [groups[i]];
      }
      assert groups[..|groups|] == groups;
    }

    /** The inner loop of `lint_fulfillment_type`: one inspection and one run of the response message rules per text. */
    method LintTexts(stats: LintStats, route: Fulfillment, texts: seq<string>)
      modifies stats`totalInspected, stats`totalIssues, rules.log
      ensures rules.log.lines == old(rules.log.lines) + RmLog(RmOf(rules.disableMap), WithTexts(route, texts))
      ensures stats.Bumped(|texts|, |rules.log.lines| - |old(rules.log.lines)|)
    {
      ghost var rm := RmOf(rules.disableMap);
      ghost var l0 := rules.log.lines;
      for j := 0 to |texts|
        invariant rules.log.lines == l0 + RmLog(rm, WithTexts(route, texts[..j]))
        invariant stats.Bumped(j, |rules.log.lines| - |l0|)
      {
        ghost var before := rules.log.lines;
        ghost var d := RmDiagnostics(rules.disableMap, route.(text := texts[j]));
        stats.Bump(1, 0);
        rules.RunRmTextRules(route.(text := texts[j]), stats);
        assert rules.log.lines == before + d;
        RmLogSnoc(rm, route, texts, j);
        AppendAssoc(l0, RmLog(rm, WithTexts(route, texts[..j])), d);
      }
      assert texts[..|texts|] == texts;
    }

    /**
     * Lints every text of every item under `key` of `path` as `route`, one
     * inspection each, and records every preset among the items.
     */
    method LintFulfillmentType(stats: LintStats, route: Fulfillment, page: Page, path: FulfillmentData, key: FulfillmentKey)
      requires PresetsComplete(Items(Lookup(path, key)))
      modifies stats`totalInspected, stats`totalIssues, rules.log, this`routeParameters, page.flow.agent
      ensures rules.log.lines == old(rules.log.lines) + RmLog(RmOf(rules.disableMap), WithTexts(route, TextsOf(Items(Lookup(path, key)))))
      ensures stats.Bumped(|TextsOf(Items(Lookup(path, key)))|, |rules.log.lines| - |old(rules.log.lines)|)
      ensures routeParameters == ParamsAfter(old(routeParameters), page.flow.displayName, page.displayName, Items(Lookup(path, key)))
      ensures page.flow.agent.sessionParameters
        == SessionsAfter(old(page.flow.agent.sessionParameters), page.displayName, Items(Lookup(path, key)))
    {
      var items := Items(Lookup(path, key));
      ghost var rm := RmOf(rules.disableMap);
      ghost var flowName, pageName := page.flow.displayName, page.displayName;
      ghost var l0 := rules.log.lines;
      ghost var rp0, sp0 := routeParameters, page.flow.agent.sessionParameters;
      for i := 0 to |items|
        invariant rules.log.lines == l0 + RmLog(rm, WithTexts(route, TextsOf(items[..i])))
        invariant stats.Bumped(|TextsOf(items[..i])|, |rules.log.lines| - |l0|)
        invariant routeParameters == ParamsAfter(rp0, flowName, pageName, items[..i])
        invariant page.flow.agent.sessionParameters == SessionsAfter(sp0, pageName, items[..i])
      {
        var item := items[i];
        var texts := Items(item.text);
        ghost var before := rules.log.lines;
        ghost var d := RmLog(rm, WithTexts(route, texts));
        LintTexts(stats, route, texts);
        if item.parameter.Some? {
          UpdateRouteParameters(page, item);
        }
        assert items[..i + 1][..i] == items[..i];
        RmLogItemsSnoc(rm, route, items, i);
        AppendAssoc(l0, RmLog(rm, WithTexts(route, TextsOf(items[..i]))), d);
      }
      assert items[..|items|] == items;
    }

    /** The state linting the routes of `page` changes besides the log and the counters. */
    ghost function Effects(page: Page): RouteEffects
      reads this`routeParameters, page`hasWebhook, page`hasWebhookEventHandler
      reads page.flow.graph`edges, page.flow.graph`usedNodes, page.flow.agent`sessionParameters
    {
      RouteEffects(page.flow.graph.edges, page.flow.graph.usedNodes, page.hasWebhook, page.hasWebhookEventHandler,
                   routeParameters, page.flow.agent.sessionParameters)
    }

    /**
     * The fulfillment of a processed route, linted as `route`: its messages,
     * and for a transition route then its parameter presets.
     */
    method LintPath(kind: FulfillmentType, route: Fulfillment, page: Page, path: FulfillmentData, stats: LintStats)
      requires PresetsComplete(PathItems(kind, path))
      modifies stats`totalInspected, stats`totalIssues, rules.log, this`routeParameters, page.flow.agent
      ensures rules.log.lines == old(rules.log.lines) + RmLog(RmOf(rules.disableMap), WithTexts(route, TextsOf(PathItems(kind, path))))
      ensures stats.Bumped(|TextsOf(PathItems(kind, path))|, |rules.log.lines| - |old(rules.log.lines)|)
      ensures routeParameters == ParamsAfter(old(routeParameters), page.flow.displayName, page.displayName, PathItems(kind, path))
      ensures page.flow.agent.sessionParameters
        == SessionsAfter(old(page.flow.agent.sessionParameters), page.displayName, PathItems(kind, path))
    {
      ghost var rm, flowName, pageName := RmOf(rules.disableMap), page.flow.displayName, page.displayName;
      ghost var l0 := rules.log.lines;
      ghost var rp0, sp0 := routeParameters, page.flow.agent.sessionParameters;
      ghost var messages := Items(Lookup(path, Messages));
      ghost var presets := if kind == TransitionRoute then Items(Lookup(path, SetParameterActions)) else [];
      PresetsCompleteSplit(messages, presets);
      LintFulfillmentType(stats, route, page, path, Messages);
      if kind == TransitionRoute {
        ghost var l1 := rules.log.lines;
        ghost var d := RmLog(rm, WithTexts(route, TextsOf(presets)));
        LintFulfillmentType(stats, route, page, path, SetParameterActions);
        AppendAssoc(l0, RmLog(rm, WithTexts(route, TextsOf(messages))), d);
      } else {
        AppendNil(messages);
      }
      TextsOfAppend(messages, presets);
      WithTextsAppend(route, TextsOf(messages), TextsOf(presets));
      RmLogAppend(rm, WithTexts(route, TextsOf(messages)), WithTexts(route, TextsOf(presets)));
      ParamsAfterAppend(rp0, flowName, pageName, messages, presets);
      SessionsAfterAppend(sp0, pageName, messages, presets);
    }

    /**
     * A processed route: flag the page (the webhook error check for event
     * handlers, the webhook check otherwise), then lint its fulfillment as
     * `f`, the page's fulfillment `base` with the route's trigger.
     */
    method LintProcessed(kind: FulfillmentType, base: Fulfillment, page: Page, parameter: Option<string>, route: RouteData, stats: LintStats)
      requires kind != Entry && base.fulfillmentType == kind && Processed(kind, route) && RouteReady(kind, route)
      modifies page`hasWebhook, page`hasWebhookEventHandler, this`routeParameters, page.flow.agent, stats`totalInspected, stats`totalIssues, rules.log
      ensures Effects(page) == old(Effects(page)).(
                hasWebhook := old(page.hasWebhook) || StepWebhook(kind, route),
                hasWebhookEventHandler := old(page.hasWebhookEventHandler)
                  || (old(page.hasWebhook) && StepHandler(base, verbose, parameter, route)),
                routeParameters := ParamsAfter(old(routeParameters), page.flow.displayName, page.displayName, StepItems(kind, route)),
                sessionParameters := SessionsAfter(old(page.flow.agent.sessionParameters), page.displayName, StepItems(kind, route)))
      ensures rules.log.lines == old(rules.log.lines) + RmLog(RmOf(rules.disableMap), StepLinted(base, verbose, parameter, route))
      ensures stats.Bumped(|StepLinted(base, verbose, parameter, route)|, |rules.log.lines| - |old(rules.log.lines)|)
      ensures page.KeepsData() && page.flow.KeepsPages()
    {
      var f := RouteFulfillment(base, verbose, parameter, route);
      var path := route.triggerFulfillment.value;
      if kind == Event {
        CheckForWebhookEventHandlers(page, f.trigger);
      } else {
        CheckForWebhook(page, path);
      }
      assert StepLinted(base, verbose, parameter, route) == WithTexts(f, TextsOf(PathItems(kind, path)));
      LintPath(kind, f, page, path, stats);
    }

    /**
     * The body of the loops of `lint_routes`, `lint_events` and
     * `lint_reprompt_handlers` for one route of `kind`, linted as the page's
     * fulfillment `base`: describe its trigger, record its targets, and, when
     * the route is processed, flag the page and lint its fulfillment.
     */
    method LintRoute(kind: FulfillmentType, base: Fulfillment, page: Page, parameter: Option<string>, route: RouteData, stats: LintStats)
      requires kind != Entry && base.fulfillmentType == kind && RouteReady(kind, route)
      requires base.pageDisplayName == page.displayName && base.flowDisplayName == page.flow.displayName
      modifies page`hasWebhook, page`hasWebhookEventHandler, page.flow.graph`edges, page.flow.graph`usedNodes
      modifies this`routeParameters, page.flow.agent, stats`totalInspected, stats`totalIssues, rules.log
      ensures Effects(page) == AfterRoute(old(Effects(page)), base, verbose, parameter, route)
      ensures rules.log.lines == old(rules.log.lines) + RmLog(RmOf(rules.disableMap), StepLinted(base, verbose, parameter, route))
      ensures stats.Bumped(|StepLinted(base, verbose, parameter, route)|, |rules.log.lines| - |old(rules.log.lines)|)
      ensures page.KeepsData() && page.flow.KeepsPages()
    {
      ghost var e0, l0 := Effects(page), rules.log.lines;
      SetRouteTargets(page, route);
      ghost var e1 := e0.(edges := AddEdges(e0.edges, page.displayName, RouteTargets(route)),
                          usedNodes := e0.usedNodes + Elements(RouteTargets(route)));
      assert Effects(page) == e1;
      if Processed(kind, route) {
        LintProcessed(kind, base, page, parameter, route, stats);
      } else {
        assert StepLinted(base, verbose, parameter, route) == [];
        AppendNil(l0);
      }
    }

    /**
     * The loops of `lint_routes`, `lint_events` and `lint_reprompt_handlers`:
     * every route of `routes` in order, each linted as the page's fulfillment
     * `base`. The log gains the diagnostics of all the linted texts, and every
     * one of those texts is counted.
     */
    method LintRouteList(kind: FulfillmentType, base: Fulfillment, page: Page, parameter: Option<string>, routes: seq<RouteData>, stats: LintStats)
      requires kind != Entry && base.fulfillmentType == kind && RoutesReady(kind, routes)
      requires base.pageDisplayName == page.displayName && base.flowDisplayName == page.flow.displayName
      modifies page`hasWebhook, page`hasWebhookEventHandler, page.flow.graph`edges, page.flow.graph`usedNodes
      modifies this`routeParameters, page.flow.agent, stats`totalInspected, stats`totalIssues, rules.log
      ensures Effects(page) == AfterRoutes(old(Effects(page)), base, verbose, parameter, routes)
      ensures rules.log.lines == old(rules.log.lines) + RmLog(RmOf(rules.disableMap), Linted(base, verbose, parameter, routes))
      ensures stats.Bumped(|Linted(base, verbose, parameter, routes)|, |rules.log.lines| - |old(rules.log.lines)|)
      ensures page.KeepsData() && page.flow.KeepsPages()
    {
      ghost var rm := RmOf(rules.disableMap);
      ghost var e0, l0 := Effects(page), rules.log.lines;
      AppendNil(l0);
      for i := 0 to |routes|
        invariant Effects(page) == AfterRoutes(e0, base, verbose, parameter, routes[..i])
        invariant rules.log.lines == l0 + RmLog(rm, Linted(base, verbose, parameter, routes[..i]))
        invariant stats.Bumped(|Linted(base, verbose, parameter, routes[..i])|, |rules.log.lines| - |l0|)
        invariant page.KeepsData() && page.flow.KeepsPages()
      {
        ghost var front, step := Linted(base, verbose, parameter, routes[..i]), StepLinted(base, verbose, parameter, routes[i]);
        LintRoute(kind, base, page, parameter, routes[i], stats);
        RoutesStep(e0, rm, base, verbose, parameter, routes, i);
        AppendAssoc(l0, RmLog(rm, front), RmLog(rm, step));
      }
      assert routes[..|routes|] == routes;
    }

    /**
     * `lint_routes`: the transition routes of the page, in order. Transition
     * routes carry no agent type, so the response message rules log nothing,
     * but every text of every processed route is counted.
     */
    method LintRoutes(page: Page, stats: LintStats)
      requires RoutesReady(TransitionRoute, Items(page.routes))
      modifies page`hasWebhook, page`hasWebhookEventHandler, page.flow.graph`edges, page.flow.graph`usedNodes
      modifies this`routeParameters, page.flow.agent, stats`totalInspected, stats`totalIssues, rules.log
      ensures Effects(page) == AfterRoutes(old(Effects(page)), Base(page, TransitionRoute), verbose, None, Items(page.routes))
      ensures rules.log.lines == old(rules.log.lines)
      ensures stats.Bumped(|Linted(Base(page, TransitionRoute), verbose, None, Items(page.routes))|, 0)
      ensures page.flow.KeepsPages()
      ensures page.KeepsData()
    {
      var base := Base(page, TransitionRoute);
      if Truthy(page.routes) {
        LintRouteList(TransitionRoute, base, page, None, page.routes.value, stats);
        RoutesLogNothing(rules.disableMap, base, verbose, None, page.routes.value);
      }
    }

    /** `lint_events`: the event handlers of the page, in order, with the configured agent type. */
    method LintEvents(page: Page, stats: LintStats)
      requires RoutesReady(Event, Items(page.events))
      modifies page`hasWebhook, page`hasWebhookEventHandler, page.flow.graph`edges, page.flow.graph`usedNodes
      modifies this`routeParameters, page.flow.agent, stats`totalInspected, stats`totalIssues, rules.log
      ensures Effects(page) == AfterRoutes(old(Effects(page)), Base(page, Event), verbose, None, Items(page.events))
      ensures rules.log.lines == old(rules.log.lines) + RmLog(RmOf(rules.disableMap), Linted(Base(page, Event), verbose, None, Items(page.events)))
      ensures stats.Bumped(|Linted(Base(page, Event), verbose, None, Items(page.events))|, |rules.log.lines| - |old(rules.log.lines)|)
      ensures page.flow.KeepsPages()
      ensures page.KeepsData()
    {
      var base := Base(page, Event);
      if Truthy(page.events) {
        LintRouteList(Event, base, page, None, page.events.value, stats);
      } else {
        AppendNil(rules.log.lines);
      }
    }

    /**
     * `lint_reprompt_handlers`: the reprompt event handlers of a form
     * parameter, in order, linted on the parameter's page and described with
     * the parameter's display name.
     */
    method LintRepromptHandlers(fp: FormParameter, stats: LintStats)
      requires RoutesReady(RepromptHandler, Items(fp.repromptHandlers))
      modifies fp.page`hasWebhook, fp.page`hasWebhookEventHandler, fp.page.flow.graph`edges, fp.page.flow.graph`usedNodes
      modifies this`routeParameters, fp.page.flow.agent, stats`totalInspected, stats`totalIssues, rules.log
      ensures Effects(fp.page)
        == AfterRoutes(old(Effects(fp.page)), Base(fp.page, RepromptHandler), verbose, fp.displayName, Items(fp.repromptHandlers))
      ensures rules.log.lines == old(rules.log.lines)
        + RmLog(RmOf(rules.disableMap), Linted(Base(fp.page, RepromptHandler), verbose, fp.displayName, Items(fp.repromptHandlers)))
      ensures stats.Bumped(|Linted(Base(fp.page, RepromptHandler), verbose, fp.displayName, Items(fp.repromptHandlers))|,
                           |rules.log.lines| - |old(rules.log.lines)|)
      ensures fp.page.KeepsData() && fp.page.flow.KeepsPages()
    {
      var base := Base(fp.page, RepromptHandler);
      if Truthy(fp.repromptHandlers) {
        LintRouteList(RepromptHandler, base, fp.page, fp.displayName, fp.repromptHandlers.value, stats);
      } else {
        AppendNil(rules.log.lines);
      }
    }

    /**
     * `lint_entry`: a non-empty entry fulfillment flags the page when it has
     * a webhook and has its messages linted with the trigger "entry". It
     * carries no agent type, so nothing is logged.
     */
    method LintEntry(page: Page, stats: LintStats)
      requires PresetsComplete(EntryItems(page.entry))
      modifies page`hasWebhook, this`routeParameters, page.flow.agent, stats`totalInspected, stats`totalIssues, rules.log
      ensures Effects(page) == AfterEntry(old(Effects(page)), page.flow.displayName, page.displayName, page.entry)
      ensures rules.log.lines == old(rules.log.lines)
      ensures stats.Bumped(|TextsOf(EntryItems(page.entry))|, 0)
      ensures page.KeepsData()
    {
      if page.entry.None? || !page.entry.value.Truthy() {
        return;
      }
      var path := page.entry.value;
      var route := PageBase(page, Entry, None).(trigger := "entry");
      CheckForWebhook(page, path);
      ghost var fs := WithTexts(route, TextsOf(Items(path.messages)));
      LintFulfillmentType(stats, route, page, path, Messages);
      RmLogBounds(rules.disableMap, fs);
    }
  }
}
