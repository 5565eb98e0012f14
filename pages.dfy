/**
 * The page linter of `src/resources/pages.py`. A page file's cleaned name
 * becomes a node of the flow graph and a member of the flow's pages; the
 * page's fulfillments are linted entry first, then transition routes, event
 * handlers and the reprompt handlers of its form parameters; its route groups
 * then become edges, and the page rules run last.
 */
module Pages {
  import opened Wrappers
  import opened Export
  import opened Collections
  import opened Types
  import opened Logger
  import opened Common
  import opened ResponseMessages
  import opened PageRules
  import opened Routes

  // ---------------------------------------------------------------------
  // Form parameters

  /** `fillBehavior` is a non-empty object. */
  predicate FillsBehavior(param: ParameterData) {
    param.fillBehavior.Some? && param.fillBehavior.value.Truthy()
  }

  /**
   * `get_form_parameter_data`: the parameter's own keys, the initial prompt
   * and reprompt handlers of its fill behavior (only when that is a non-empty
   * object), and the form's advanced settings with their DTMF settings (only
   * when those are a non-empty object).
   */
  function GetFormParameterData(param: ParameterData, page: Page, form: FormData): (fp: FormParameter)
    ensures fp.page == page && fp.displayName == param.displayName && fp.entityType == param.entityType
    ensures fp.required == param.required && fp.fillBehavior == param.fillBehavior
    ensures !FillsBehavior(param) ==> fp.initFulfillment.None? && fp.repromptHandlers.None?
    ensures FillsBehavior(param) ==>
      fp.initFulfillment == param.fillBehavior.value.initialPromptFulfillment
      && fp.repromptHandlers == param.fillBehavior.value.repromptEventHandlers
    ensures fp.advancedSettings == form.advancedSettings
    ensures fp.dtmfSettings
      == if form.advancedSettings.Some? && form.advancedSettings.value.Truthy() then form.advancedSettings.value.dtmfSettings else None
  {
    var fillBehavior := param.fillBehavior;
    var fills := fillBehavior.Some? && fillBehavior.value.Truthy();
    var init := if fills then fillBehavior.value.initialPromptFulfillment else None;
    var reprompts := if fills then fillBehavior.value.repromptEventHandlers else None;
    var advanced := form.advancedSettings;
    var dtmf := if advanced.Some? && advanced.value.Truthy() then advanced.value.dtmfSettings else None;
    FormParameter(page, param.displayName, param.entityType, param.required, fillBehavior, init, reprompts, advanced, dtmf)
  }

  /** The form parameters `lint_form` builds, one per element of `parameters`, in order. */
  function FormParameters(page: Page, form: FormData): seq<FormParameter> {
    var params := Items(form.parameters);
    seq(|params|, i requires 0 <= i < |params| => GetFormParameterData(params[i], page, form))
  }

  /** A parameter whose reprompt handlers the linter gets through. */
  predicate ParamReady(param: ParameterData) {
    FillsBehavior(param) ==> RoutesReady(RepromptHandler, Items(param.fillBehavior.value.repromptEventHandlers))
  }

  predicate FormReady(fps: seq<FormParameter>) {
    forall i | 0 <= i < |fps| :: RoutesReady(RepromptHandler, Items(fps[i].repromptHandlers))
  }

  /** Readiness of the parameters carries over to the form parameters built from them. */
  lemma FormParametersReady(page: Page, form: FormData)
    requires forall i | 0 <= i < |Items(form.parameters)| :: ParamReady(Items(form.parameters)[i])
    ensures FormReady(FormParameters(page, form))
  {
    var fps := FormParameters(page, form);
    forall i | 0 <= i < |fps|
      ensures RoutesReady(RepromptHandler, Items(fps[i].repromptHandlers))
    {
      assert fps[i] == GetFormParameterData(Items(form.parameters)[i], page, form);
    }
  }

  /** The texts the reprompt handlers of the form parameters put through the rules, parameter by parameter. */
  function FormLinted(base: Fulfillment, verbose: bool, fps: seq<FormParameter>): seq<Fulfillment>
    requires base.fulfillmentType != Entry
  {
    if |fps| == 0 then []
    else
      var fp := fps[|fps| - 1];
      FormLinted(base, verbose, fps[..|fps| - 1]) + Linted(base, verbose, fp.displayName, Items(fp.repromptHandlers))
  }

  /** The effects of the reprompt handlers of every form parameter, first to last. */
  function AfterForm(e: RouteEffects, base: Fulfillment, verbose: bool, fps: seq<FormParameter>): RouteEffects
    requires base.fulfillmentType != Entry
  {
    if |fps| == 0 then e
    else
      var fp := fps[|fps| - 1];
      AfterRoutes(AfterForm(e, base, verbose, fps[..|fps| - 1]), base, verbose, fp.displayName, Items(fp.repromptHandlers))
  }

  /** Some reprompt handler of some form parameter has a webhook. */
  predicate FormWebhook(fps: seq<FormParameter>) {
    |fps| > 0 && (FormWebhook(fps[..|fps| - 1]) || AnyWebhook(RepromptHandler, Items(fps[|fps| - 1].repromptHandlers)))
  }

  /**
   * Reprompt handlers raise `has_webhook` exactly when one of them has a
   * webhook, and never the webhook error flag: only event handlers do that.
   */
  lemma {:induction false} AfterFormFlags(e: RouteEffects, base: Fulfillment, verbose: bool, fps: seq<FormParameter>)
    requires base.fulfillmentType == RepromptHandler
    ensures AfterForm(e, base, verbose, fps).hasWebhook == (e.hasWebhook || FormWebhook(fps))
    ensures AfterForm(e, base, verbose, fps).hasWebhookEventHandler == e.hasWebhookEventHandler
    decreases |fps|
  {
    if |fps| > 0 {
      var fp := fps[|fps| - 1];
      AfterFormFlags(e, base, verbose, fps[..|fps| - 1]);
      AfterRoutesFlags(AfterForm(e, base, verbose, fps[..|fps| - 1]), base, verbose, fp.displayName, Items(fp.repromptHandlers));
      OthersRaiseNoHandler(base, verbose, fp.displayName, Items(fp.repromptHandlers));
    }
  }

  /** The webhook error check runs for event handlers only. */
  lemma {:induction false} OthersRaiseNoHandler(base: Fulfillment, verbose: bool, parameter: Option<string>, routes: seq<RouteData>)
    requires base.fulfillmentType != Entry && base.fulfillmentType != Event
    ensures !AnyHandler(base, verbose, parameter, routes)
    decreases |routes|
  {
    if |routes| > 0 {
      OthersRaiseNoHandler(base, verbose, parameter, routes[..|routes| - 1]);
    }
  }

  /** The folds over the first `i + 1` form parameters, from those over the first `i`. */
  lemma FormStep(e: RouteEffects, rm: Fulfillment -> seq<Diagnostic>, base: Fulfillment, verbose: bool, fps: seq<FormParameter>, i: int)
    requires base.fulfillmentType != Entry && 0 <= i < |fps|
    ensures AfterForm(e, base, verbose, fps[..i + 1])
      == AfterRoutes(AfterForm(e, base, verbose, fps[..i]), base, verbose, fps[i].displayName, Items(fps[i].repromptHandlers))
    ensures FormLinted(base, verbose, fps[..i + 1])
      == FormLinted(base, verbose, fps[..i]) + Linted(base, verbose, fps[i].displayName, Items(fps[i].repromptHandlers))
    ensures RmLog(rm, FormLinted(base, verbose, fps[..i + 1]))
      == RmLog(rm, FormLinted(base, verbose, fps[..i])) + RmLog(rm, Linted(base, verbose, fps[i].displayName, Items(fps[i].repromptHandlers)))
  {
    assert fps[..i + 1][..i] == fps[..i];
    RmLogAppend(rm, FormLinted(base, verbose, fps[..i]), Linted(base, verbose, fps[i].displayName, Items(fps[i].repromptHandlers)));
  }

  // ---------------------------------------------------------------------
  // Pages

  /** A page file whose name the path pattern finds (otherwise `parse_filepath` raises). */
  predicate PagePathMatches(path: string) {
    ParseFilepath(path, PagePath).Some?
  }

  /** Every page file of `files` has a name the path pattern finds. */
  predicate PathsMatch(files: seq<PageFile>) {
    forall i | 0 <= i < |files| :: PagePathMatches(files[i].path)
  }

  /** Page files `lint_page` gets through: names the pattern finds, data the linter can walk. */
  predicate FilesReady(files: seq<PageFile>) {
    PathsMatch(files) && forall i {:trigger PageDataReady(files[i].data)} | 0 <= i < |files| :: PageDataReady(files[i].data)
  }

  /** The display name of a page: its file name up to the last '.', with escapes replaced. */
  function PageName(path: string): string
    requires PagePathMatches(path)
  {
    Cleaned(ParseFilepath(path, PagePath).value)
  }

  /** A page file the linter gets through: every fulfillment is ready, and the page has a form (`lint_form` reads it unconditionally). */
  predicate PageDataReady(d: PageData) {
    PresetsComplete(EntryItems(d.entryFulfillment))
    && RoutesReady(TransitionRoute, Items(d.transitionRoutes))
    && RoutesReady(Event, Items(d.eventHandlers))
    && d.form.Some?
    && forall i | 0 <= i < |Items(d.form.value.parameters)| :: ParamReady(Items(d.form.value.parameters)[i])
  }

  /** The keys `lint_page` loads from the page file `d` into `page`. */
  predicate HoldsData(page: Page, d: PageData)
    reads page`resourceId, page`entry, page`events, page`form, page`routes, page`routeGroups
  {
    page.resourceId == d.name && page.entry == d.entryFulfillment && page.events == d.eventHandlers
    && page.form == d.form && page.routes == d.transitionRoutes && page.routeGroups == d.transitionRouteGroups
  }

  /** The route groups of a page become edges and used nodes when the list is non-empty. */
  function AfterGroups(e: RouteEffects, pageName: string, groups: Option<seq<string>>): RouteEffects {
    if Truthy(groups) then e.(edges := AddEdges(e.edges, pageName, groups.value), usedNodes := e.usedNodes + Elements(groups.value))
    else e
  }

  /** `flow.data` after the pages of `files`, one `data[name] = resource_id` each. */
  function DataAfter(data: map<string, Option<string>>, files: seq<PageFile>): map<string, Option<string>>
    requires PathsMatch(files)
  {
    if |files| == 0 then data
    else
      var f := files[|files| - 1];
      DataAfter(data, files[..|files| - 1])[PageName(f.path) := f.data.name]
  }

  /** The names of the pages of `files`, in order. */
  function PageNames(files: seq<PageFile>): (r: seq<string>)
    requires PathsMatch(files)
    ensures |r| == |files|
  {
    if |files| == 0 then [] else PageNames(files[..|files| - 1]) + [PageName(files[|files| - 1].path)]
  }

  /** One more page file extends the names and the data by that file's page. */
  lemma PrefixStep(data: map<string, Option<string>>, files: seq<PageFile>, i: int)
    requires 0 <= i < |files| && PathsMatch(files)
    ensures PathsMatch(files[..i + 1])
    ensures DataAfter(data, files[..i + 1]) == DataAfter(data, files[..i])[PageName(files[i].path) := files[i].data.name]
    ensures PageNames(files[..i + 1]) == PageNames(files[..i]) + [PageName(files[i].path)]
    ensures Elements(PageNames(files[..i + 1])) == Elements(PageNames(files[..i])) + {PageName(files[i].path)}
  {
    assert files[..i + 1][..i] == files[..i];
    ElementsAppend(PageNames(files[..i]), [PageName(files[i].path)]);
  }

  /** The pages of the directory are exactly the names `flow.data` gains. */
  lemma {:induction false} DataAfterKeys(data: map<string, Option<string>>, files: seq<PageFile>)
    requires PathsMatch(files)
    ensures DataAfter(data, files).Keys == data.Keys + Elements(PageNames(files))
    decreases |files|
  {
    if |files| > 0 {
      var n := |files| - 1;
      DataAfterKeys(data, files[..n]);
      ElementsAppend(PageNames(files[..n]), [PageName(files[n].path)]);
    }
  }

  /**
   * Lines 123-126 of `lint_page` (and 288-291 of the flow's start page): the
   * route group edges when the page lists route groups, then the page rules.
   */
  method LintGroupsAndRules(routes: Fulfillments, rules: PageRules, page: Page, stats: LintStats)
    modifies page.flow.graph`edges, page.flow.graph`usedNodes, rules.log, stats`totalInspected, stats`totalIssues
    ensures routes.Effects(page) == AfterGroups(old(routes.Effects(page)), page.displayName, page.routeGroups)
    ensures rules.log.lines == old(rules.log.lines) + PageRuleLog(rules.disableMap, page)
    ensures stats.Bumped(if Enabled(rules.disableMap, "missing-webhook-event-handlers") then 1 else 0, |PageRuleLog(rules.disableMap, page)|)
    ensures page.KeepsData() && page.flow.KeepsPages()
  {
    if Truthy(page.routeGroups) {
      routes.SetRouteGroupTargets(page);
    }
    rules.RunPageRules(page, stats);
  }

  /** A page whose name no later page of the directory takes has its own id in `flow.data`. */
  lemma {:induction false} DataAfterRecords(data: map<string, Option<string>>, files: seq<PageFile>, i: int)
    requires PathsMatch(files)
    requires 0 <= i < |files|
    requires forall j | i < j < |files| :: PageName(files[j].path) != PageName(files[i].path)
    ensures PageName(files[i].path) in DataAfter(data, files)
    ensures DataAfter(data, files)[PageName(files[i].path)] == files[i].data.name
    decreases |files|
  {
    var n := |files| - 1;
    if i < n {
      var front := files[..n];
      assert front[i] == files[i];
      forall j | i < j < n ensures PageName(front[j].path) != PageName(front[i].path) {
        assert front[j] == files[j];
      }
      DataAfterRecords(data, front, i);
    }
  }

  class Pages {
    const rules: PageRules
    const routes: Fulfillments

    constructor (verbose: bool, disableMap: map<string, bool>, agentType: Option<string>)
      ensures Valid() && rules.disableMap == disableMap && routes.rules.disableMap == disableMap
      ensures routes.verbose == verbose && routes.agentType == agentType && routes.routeParameters == map[]
      ensures rules.log.lines == [] && routes.rules.log.lines == []
      ensures fresh(rules) && fresh(rules.log) && fresh(routes) && fresh(routes.rules) && fresh(routes.rules.log)
    {
      rules := new PageRules(disableMap);
      routes := new Fulfillments(verbose, disableMap, agentType);
    }

    /** The page rules and the response message rules log to different sinks. */
    predicate Valid()
      reads this
    {
      rules.log != routes.rules.log
    }

    /**
     * The effects of the fulfillments of `page` in the order `lint_page`
     * lints them: entry, transition routes, event handlers, then the reprompt
     * handlers of the form. Webhooks in the entry or the transition routes
     * are therefore known when the event handlers are checked.
     */
    ghost function FulfillmentsAfter(e: RouteEffects, page: Page): RouteEffects
      requires page.form.Some?
      reads page`displayName, page`resourceId, page`entry, page`routes, page`events, page`form
      reads page.flow`displayName, page.flow`resourceId
    {
      EventsFormAfter(EntryRoutesAfter(e, page), page)
    }

    /** The effects of the entry fulfillment and then the transition routes. */
    ghost function EntryRoutesAfter(e: RouteEffects, page: Page): RouteEffects
      reads page`displayName, page`resourceId, page`entry, page`routes
      reads page.flow`displayName, page.flow`resourceId
    {
      var e1 := AfterEntry(e, page.flow.displayName, page.displayName, page.entry);
      AfterRoutes(e1, routes.Base(page, TransitionRoute), routes.verbose, None, Items(page.routes))
    }

    /** The effects of the event handlers and then the form's reprompt handlers. */
    ghost function EventsFormAfter(e: RouteEffects, page: Page): RouteEffects
      requires page.form.Some?
      reads page`displayName, page`resourceId, page`events, page`form
      reads page.flow`displayName, page.flow`resourceId
    {
      var e3 := AfterRoutes(e, routes.Base(page, Event), routes.verbose, None, Items(page.events));
      AfterForm(e3, routes.Base(page, RepromptHandler), routes.verbose, FormParameters(page, page.form.value))
    }

    /** The texts of `page` the response message rules see: those of its event handlers, then of its reprompt handlers. */
    ghost function PageLinted(page: Page): seq<Fulfillment>
      requires page.form.Some?
      reads page`displayName, page`resourceId, page`entry, page`routes, page`events, page`form
      reads page.flow`displayName, page.flow`resourceId
    {
      Linted(routes.Base(page, Event), routes.verbose, None, Items(page.events))
      + FormLinted(routes.Base(page, RepromptHandler), routes.verbose, FormParameters(page, page.form.value))
    }

    /** The texts of `page` counted as inspected: entry, transition routes, then `PageLinted`. */
    ghost function PageInspections(page: Page): int
      requires page.form.Some?
      reads page`displayName, page`resourceId, page`entry, page`routes, page`events, page`form
      reads page.flow`displayName, page.flow`resourceId
    {
      |TextsOf(EntryItems(page.entry))|
      + |Linted(routes.Base(page, TransitionRoute), routes.verbose, None, Items(page.routes))|
      + |PageLinted(page)|
    }

    /**
     * With a webhook in the entry or the transition routes, an event handler
     * for `webhook.error` flags the page; a webhook that only the reprompt
     * handlers bring comes too late for that check.
     */
    lemma PageFlags(e: RouteEffects, page: Page)
      requires page.form.Some?
      ensures FulfillmentsAfter(e, page).hasWebhookEventHandler
        == (e.hasWebhookEventHandler
            || ((e.hasWebhook || EntryWebhook(page.entry) || AnyWebhook(TransitionRoute, Items(page.routes)))
                && AnyHandler(routes.Base(page, Event), routes.verbose, None, Items(page.events))))
      ensures FulfillmentsAfter(e, page).hasWebhook
        == (e.hasWebhook || EntryWebhook(page.entry) || AnyWebhook(TransitionRoute, Items(page.routes))
            || FormWebhook(FormParameters(page, page.form.value)))
    {
      var e1 := AfterEntry(e, page.flow.displayName, page.displayName, page.entry);
      var tr, ev, rp := routes.Base(page, TransitionRoute), routes.Base(page, Event), routes.Base(page, RepromptHandler);
      var e2 := AfterRoutes(e1, tr, routes.verbose, None, Items(page.routes));
      var e3 := AfterRoutes(e2, ev, routes.verbose, None, Items(page.events));
      AfterRoutesFlags(e1, tr, routes.verbose, None, Items(page.routes));
      OthersRaiseNoHandler(tr, routes.verbose, None, Items(page.routes));
      AfterRoutesFlags(e2, ev, routes.verbose, None, Items(page.events));
      EventsRaiseNoWebhook(Items(page.events));
      AfterFormFlags(e3, rp, routes.verbose, FormParameters(page, page.form.value));
    }

    /**
     * `lint_form`: for each element of `form.parameters`, in order, build its
     * form parameter and lint its reprompt handlers.
     */
    method LintForm(page: Page, ghost base: Fulfillment, ghost fps: seq<FormParameter>, stats: LintStats)
      requires page.form.Some? && fps == FormParameters(page, page.form.value) && FormReady(fps)
      requires base == routes.Base(page, RepromptHandler)
      modifies page`hasWebhook, page`hasWebhookEventHandler, page.flow.graph`edges, page.flow.graph`usedNodes
      modifies routes`routeParameters, page.flow.agent, stats`totalInspected, stats`totalIssues, routes.rules.log
      ensures routes.Effects(page) == AfterForm(old(routes.Effects(page)), base, routes.verbose, fps)
      ensures routes.rules.log.lines == old(routes.rules.log.lines) + RmLog(RmOf(routes.rules.disableMap), FormLinted(base, routes.verbose, fps))
      ensures stats.Bumped(|FormLinted(base, routes.verbose, fps)|, |RmLog(RmOf(routes.rules.disableMap), FormLinted(base, routes.verbose, fps))|)
      ensures page.KeepsData() && page.flow.KeepsPages()
    {
      var form := page.form.value;
      var parameters := form.parameters;
      ghost var v, rm := routes.verbose, RmOf(routes.rules.disableMap);
      ghost var e0, l0 := routes.Effects(page), routes.rules.log.lines;
      AppendNil(l0);
      if Truthy(parameters) {
        var params := parameters.value;
        for i := 0 to |params|
          invariant routes.Base(page, RepromptHandler) == base
          invariant routes.Effects(page) == AfterForm(e0, base, v, fps[..i])
          invariant routes.rules.log.lines == l0 + RmLog(rm, FormLinted(base, v, fps[..i]))
          invariant stats.Bumped(|FormLinted(base, v, fps[..i])|, |routes.rules.log.lines| - |l0|)
          invariant page.KeepsData() && page.flow.KeepsPages()
        {
          var fp := GetFormParameterData(params[i], page, form);
          assert fp == fps[i] && fp.page == page;
          ghost var front := FormLinted(base, v, fps[..i]);
          ghost var step := Linted(base, v, fp.displayName, Items(fp.repromptHandlers));
          ghost var ei, li := routes.Effects(page), routes.rules.log.lines;
          ghost var si, ki := stats.totalInspected, stats.totalIssues;
          routes.LintRepromptHandlers(fp, stats);
          assert routes.Base(fp.page, RepromptHandler) == base;
          assert routes.Effects(page) == AfterRoutes(ei, base, v, fp.displayName, Items(fp.repromptHandlers));
          assert routes.rules.log.lines == li + RmLog(rm, step);
          assert stats.totalInspected == si + |step| && stats.totalIssues == ki + |RmLog(rm, step)|;
          FormStep(e0, rm, base, v, fps, i);
          AppendAssoc(l0, RmLog(rm, front), RmLog(rm, step));
          assert |FormLinted(base, v, fps[..i + 1])| == |front| + |step|;
        }
        assert fps[..|params|] == fps;
      } else {
        assert fps == [];
      }
    }

    /** Lines 118-119 of `lint_page`: the entry fulfillment, then the transition routes; no rule is logged. */
    method LintEntryAndRoutes(page: Page, stats: LintStats)
      requires PresetsComplete(EntryItems(page.entry)) && RoutesReady(TransitionRoute, Items(page.routes))
      modifies page`hasWebhook, page`hasWebhookEventHandler, page.flow.graph`edges, page.flow.graph`usedNodes
      modifies routes`routeParameters, page.flow.agent, stats`totalInspected, stats`totalIssues, routes.rules.log
      ensures routes.Effects(page) == EntryRoutesAfter(old(routes.Effects(page)), page)
      ensures routes.rules.log.lines == old(routes.rules.log.lines)
      ensures stats.Bumped(|TextsOf(EntryItems(page.entry))| + |Linted(routes.Base(page, TransitionRoute), routes.verbose, None, Items(page.routes))|, 0)
      ensures page.KeepsData() && page.flow.KeepsPages()
    {
      ghost var tr := routes.Base(page, TransitionRoute);
      ghost var e1 := AfterEntry(routes.Effects(page), page.flow.displayName, page.displayName, page.entry);
      routes.LintEntry(page, stats);
      assert routes.Effects(page) == e1 && routes.Base(page, TransitionRoute) == tr;
      routes.LintRoutes(page, stats);
    }

    /** Lines 120-121 of `lint_page`: the event handlers, then the form. */
    method LintEventsAndForm(page: Page, stats: LintStats)
      requires page.form.Some? && RoutesReady(Event, Items(page.events)) && FormReady(FormParameters(page, page.form.value))
      modifies page`hasWebhook, page`hasWebhookEventHandler, page.flow.graph`edges, page.flow.graph`usedNodes
      modifies routes`routeParameters, page.flow.agent, stats`totalInspected, stats`totalIssues, routes.rules.log
      ensures routes.Effects(page) == EventsFormAfter(old(routes.Effects(page)), page)
      ensures routes.rules.log.lines == old(routes.rules.log.lines) + RmLog(RmOf(routes.rules.disableMap), PageLinted(page))
      ensures stats.Bumped(|PageLinted(page)|, |RmLog(RmOf(routes.rules.disableMap), PageLinted(page))|)
      ensures page.KeepsData() && page.flow.KeepsPages()
    {
      ghost var rm, l0 := RmOf(routes.rules.disableMap), routes.rules.log.lines;
      ghost var ev, rp, v := routes.Base(page, Event), routes.Base(page, RepromptHandler), routes.verbose;
      ghost var fps := FormParameters(page, page.form.value);
      ghost var evs, frm := Linted(ev, v, None, Items(page.events)), FormLinted(rp, v, fps);
      routes.LintEvents(page, stats);
      assert routes.Base(page, RepromptHandler) == rp && FormParameters(page, page.form.value) == fps;
      LintForm(page, rp, fps, stats);
      AppendAssoc(l0, RmLog(rm, evs), RmLog(rm, frm));
      RmLogAppend(rm, evs, frm);
    }

    /** Lines 118-121 of `lint_page`: entry, transition routes, event handlers, then the form. */
    method LintPageFulfillments(page: Page, stats: LintStats)
      requires page.form.Some? && PresetsComplete(EntryItems(page.entry))
      requires RoutesReady(TransitionRoute, Items(page.routes)) && RoutesReady(Event, Items(page.events))
      requires FormReady(FormParameters(page, page.form.value))
      modifies page`hasWebhook, page`hasWebhookEventHandler, page.flow.graph`edges, page.flow.graph`usedNodes
      modifies routes`routeParameters, page.flow.agent, stats`totalInspected, stats`totalIssues, routes.rules.log
      ensures routes.Effects(page) == FulfillmentsAfter(old(routes.Effects(page)), page)
      ensures routes.rules.log.lines == old(routes.rules.log.lines) + RmLog(RmOf(routes.rules.disableMap), PageLinted(page))
      ensures stats.Bumped(PageInspections(page), |RmLog(RmOf(routes.rules.disableMap), PageLinted(page))|)
      ensures page.KeepsData() && page.flow.KeepsPages()
    {
      LintEntryAndRoutes(page, stats);
      LintEventsAndForm(page, stats);
    }

    /**
     * Lines 94-115 of `lint_page`: name the page after its file, add it to
     * the graph and to the flow's pages, load its keys and record its id in
     * `flow.data`.
     */
    method LoadPage(page: Page, file: PageFile)
      requires PagePathMatches(file.path)
      modifies page`displayName, page`resourceId, page`entry, page`events, page`form, page`routes, page`routeGroups
      modifies page.flow`allPages, page.flow`data, page.flow.graph`nodes
      ensures page.displayName == PageName(file.path) && HoldsData(page, file.data)
      ensures page.flow.graph.nodes == old(page.flow.graph.nodes) + {page.displayName}
      ensures page.flow.allPages == old(page.flow.allPages) + {page.displayName}
      ensures page.flow.data == old(page.flow.data)[page.displayName := file.data.name]
    {
      var parsed := ParseFilepath(file.path, PagePath);
      var name := CleanDisplayName(parsed.value);
      page.displayName := name;
      page.flow.graph.AddNode(name);
      page.flow.allPages := page.flow.allPages + {name};
      var d := file.data;
      page.entry, page.events, page.form, page.routes, page.routeGroups :=
        d.entryFulfillment, d.eventHandlers, d.form, d.transitionRoutes, d.transitionRouteGroups;
      page.resourceId := d.name;
      page.flow.data := page.flow.data[name := d.name];
    }

    /**
     * Lines 118-126 of `lint_page`: lint the fulfillments, add the route
     * group edges when the page lists route groups, then run the page rules.
     */
    method LintLoadedPage(page: Page, stats: LintStats)
      requires Valid() && page.form.Some? && PresetsComplete(EntryItems(page.entry))
      requires RoutesReady(TransitionRoute, Items(page.routes)) && RoutesReady(Event, Items(page.events))
      requires FormReady(FormParameters(page, page.form.value))
      modifies page`hasWebhook, page`hasWebhookEventHandler, page.flow.graph`edges, page.flow.graph`usedNodes, page.flow.agent
      modifies routes`routeParameters, routes.rules.log, rules.log, stats`totalInspected, stats`totalIssues
      ensures routes.Effects(page) == AfterGroups(FulfillmentsAfter(old(routes.Effects(page)), page), page.displayName, page.routeGroups)
      ensures routes.rules.log.lines == old(routes.rules.log.lines) + RmLog(RmOf(routes.rules.disableMap), PageLinted(page))
      ensures rules.log.lines == old(rules.log.lines) + PageRuleLog(rules.disableMap, page)
      ensures stats.Bumped(PageInspections(page) + (if Enabled(rules.disableMap, "missing-webhook-event-handlers") then 1 else 0),
                           |RmLog(RmOf(routes.rules.disableMap), PageLinted(page))| + |PageRuleLog(rules.disableMap, page)|)
      ensures page.KeepsData() && page.flow.KeepsPages()
    {
      LintPageFulfillments(page, stats);
      LintGroupsAndRules(routes, rules, page, stats);
    }

    /** `lint_page`: load the page file, then lint the page. */
    method LintPage(page: Page, file: PageFile, stats: LintStats)
      requires Valid() && PagePathMatches(file.path) && PageDataReady(file.data)
      modifies page, page.flow`allPages, page.flow`data, page.flow.graph, page.flow.agent
      modifies routes`routeParameters, routes.rules.log, rules.log, stats`totalInspected, stats`totalIssues
      ensures page.displayName == PageName(file.path) && HoldsData(page, file.data)
      ensures page.flow.graph.nodes == old(page.flow.graph.nodes) + {page.displayName}
      ensures page.flow.allPages == old(page.flow.allPages) + {page.displayName}
      ensures page.flow.data == old(page.flow.data)[page.displayName := file.data.name]
      ensures routes.Effects(page) == AfterGroups(FulfillmentsAfter(old(routes.Effects(page)), page), page.displayName, page.routeGroups)
      ensures routes.rules.log.lines == old(routes.rules.log.lines) + RmLog(RmOf(routes.rules.disableMap), PageLinted(page))
      ensures rules.log.lines == old(rules.log.lines) + PageRuleLog(rules.disableMap, page)
      ensures stats.Bumped(PageInspections(page) + (if Enabled(rules.disableMap, "missing-webhook-event-handlers") then 1 else 0),
                           |RmLog(RmOf(routes.rules.disableMap), PageLinted(page))| + |PageRuleLog(rules.disableMap, page)|)
    {
      ghost var e0 := routes.Effects(page);
      LoadPage(page, file);
      assert routes.Effects(page) == e0;
      FormParametersReady(page, file.data.form.value);
      LintLoadedPage(page, stats);
    }

    /** Lines 141-146 of `lint_pages_directory` for one page file: a new page of `flow`, one more page counted, then `lint_page`. */
    method LintPageFile(flow: Flow, file: PageFile, stats: LintStats)
      requires Valid() && PagePathMatches(file.path) && PageDataReady(file.data)
      modifies flow`allPages, flow`data, flow.graph, flow.agent
      modifies routes`routeParameters, routes.rules.log, rules.log, stats`totalInspected, stats`totalIssues, stats`totalPages
      ensures stats.totalPages == old(stats.totalPages) + 1
      ensures flow.allPages == old(flow.allPages) + {PageName(file.path)}
      ensures flow.graph.nodes == old(flow.graph.nodes) + {PageName(file.path)}
      ensures flow.data == old(flow.data)[PageName(file.path) := file.data.name]
      ensures stats.totalInspected - old(stats.totalInspected)
        >= (if Enabled(rules.disableMap, "missing-webhook-event-handlers") then 1 else 0)
      ensures stats.totalIssues - old(stats.totalIssues)
        == (|routes.rules.log.lines| - |old(routes.rules.log.lines)|) + (|rules.log.lines| - |old(rules.log.lines)|)
      ensures stats.totalFlows == old(stats.totalFlows)
    {
      var page := new Page(flow);
      stats.AddPage();
      assert flow.allPages == old(flow.allPages) && flow.graph.nodes == old(flow.graph.nodes) && flow.data == old(flow.data);
      assert stats.totalInspected == old(stats.totalInspected) && stats.totalIssues == old(stats.totalIssues) && stats.totalFlows == old(stats.totalFlows);
      LintPage(page, file, stats);
    }

    /** Lines 141-146 of `lint_pages_directory`: each page file in turn. */
    method LintPageFiles(flow: Flow, list: seq<PageFile>, stats: LintStats)
      requires Valid() && FilesReady(list)
      modifies flow`allPages, flow`data, flow.graph, flow.agent
      modifies routes`routeParameters, routes.rules.log, rules.log, stats`totalInspected, stats`totalIssues, stats`totalPages
      ensures stats.totalPages == old(stats.totalPages) + |list|
      ensures flow.allPages == old(flow.allPages) + Elements(PageNames(list))
      ensures flow.graph.nodes == old(flow.graph.nodes) + Elements(PageNames(list))
      ensures flow.data == DataAfter(old(flow.data), list)
      ensures stats.totalInspected - old(stats.totalInspected)
        >= (if Enabled(rules.disableMap, "missing-webhook-event-handlers") then |list| else 0)
      ensures stats.totalIssues - old(stats.totalIssues)
        == (|routes.rules.log.lines| - |old(routes.rules.log.lines)|) + (|rules.log.lines| - |old(rules.log.lines)|)
      ensures stats.totalFlows == old(stats.totalFlows)
    {
      ghost var enabled := Enabled(rules.disableMap, "missing-webhook-event-handlers");
      ghost var a0, n0, d0 := flow.allPages, flow.graph.nodes, flow.data;
      ghost var t0, i0, k0, r0, p0 := stats.totalPages, stats.totalInspected, stats.totalIssues, |routes.rules.log.lines|, |rules.log.lines|;
      for i := 0 to |list|
        invariant stats.totalPages == t0 + i
        invariant stats.totalFlows == old(stats.totalFlows)
        invariant PathsMatch(list[..i])
        invariant flow.allPages == a0 + Elements(PageNames(list[..i]))
        invariant flow.graph.nodes == n0 + Elements(PageNames(list[..i]))
        invariant flow.data == DataAfter(d0, list[..i])
        invariant stats.totalInspected - i0 >= if enabled then i else 0
        invariant stats.totalIssues - k0 == (|routes.rules.log.lines| - r0) + (|rules.log.lines| - p0)
      {
        LintPageFile(flow, list[i], stats);
        PrefixStep(d0, list, i);
      }
      assert list[..|list|] == list;
    }

    /**
     * `lint_pages_directory`: when the flow has a pages directory, one new
     * page and one more `total_pages` per page file, each linted in turn;
     * without one, nothing changes.
     */
    method LintPagesDirectory(flow: Flow, files: Option<seq<PageFile>>, stats: LintStats)
      requires Valid() && FilesReady(Items(files))
      modifies flow`allPages, flow`data, flow.graph, flow.agent
      modifies routes`routeParameters, routes.rules.log, rules.log, stats`totalInspected, stats`totalIssues, stats`totalPages
      ensures stats.totalPages == old(stats.totalPages) + |Items(files)|
      ensures flow.allPages == old(flow.allPages) + Elements(PageNames(Items(files)))
      ensures flow.graph.nodes == old(flow.graph.nodes) + Elements(PageNames(Items(files)))
      ensures flow.data == DataAfter(old(flow.data), Items(files))
      ensures stats.totalInspected - old(stats.totalInspected)
        >= (if Enabled(rules.disableMap, "missing-webhook-event-handlers") then |Items(files)| else 0)
      ensures stats.totalIssues - old(stats.totalIssues)
        == (|routes.rules.log.lines| - |old(routes.rules.log.lines)|) + (|rules.log.lines| - |old(rules.log.lines)|)
      ensures files.None? ==> stats.Bumped(0, 0) && unchanged(flow.graph) && flow.agent.sessionParameters == old(flow.agent.sessionParameters)
      ensures files.None? ==>
                routes.routeParameters == old(routes.routeParameters)
                && routes.rules.log.lines == old(routes.rules.log.lines) && rules.log.lines == old(rules.log.lines)
      ensures flow.KeepsAnalysis() && flow.resourceId == old(flow.resourceId) && stats.totalRouteGroups == old(stats.totalRouteGroups)
      ensures stats.totalFlows == old(stats.totalFlows)
    {
      if files.Some? {
        LintPageFiles(flow, files.value, stats);
      }
    }
  }
}


