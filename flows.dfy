/**
 * The flow linter of `src/cxlint/resources/flows.py`: loading a flow's start
 * page, pages and route groups into the flow graph, then the graph analysis
 * that finds unused, dangling and unreachable pages before the flow rules
 * report them.
 */
module Flows {
  import opened Wrappers
  import opened Text
  import opened Export
  import opened Graphs
  import opened Types
  import opened Common
  import opened Collections
  import opened Logger
  import opened Routes
  import opened ResponseMessages
  import opened PageRules
  import opened Pages
  import opened FlowRules
  import opened RouteGroups

  const StartPage := "Start Page"

  /** The special pages of the linter, in the order they are discarded. */
  const SpecialPageList: seq<string> := ["End Session", "End Flow", "Start Page", "Current Page", "Previous Page"]

  const SpecialPages: set<string> := {"End Session", "End Flow", "Start Page", "Current Page", "Previous Page"}

  lemma SpecialPagesListed()
    ensures Elements(SpecialPageList) == SpecialPages
  {
  }

  // ---------------------------------------------------------------------
  // Paths in the flow graph

  /** Each name of `p` after the first is a route target of the name before it. */
  ghost predicate IsPath(edges: map<string, seq<string>>, p: seq<string>) {
    forall i | 0 <= i < |p| - 1 :: p[i + 1] in Successors(edges, p[i])
  }

  /** `b` can be reached from `a` by following one or more edges. */
  ghost predicate Reaches(edges: map<string, seq<string>>, a: string, b: string) {
    exists p :: 2 <= |p| && p[0] == a && p[|p| - 1] == b && IsPath(edges, p)
  }

  /** Every route target of every name in `s` lies in `v`. */
  ghost predicate ExpandedIn(edges: map<string, seq<string>>, s: set<string>, v: set<string>) {
    forall x | x in s :: Elements(Successors(edges, x)) <= v
  }

  /** Every name some edge points to. */
  ghost function Targets(edges: map<string, seq<string>>): set<string> {
    set k, y | k in edges && y in edges[k] :: y
  }

  /** The names of `s` with no adjacency entry: nothing routes out of them. */
  function DeadEnds(edges: map<string, seq<string>>, s: set<string>): set<string> {
    set x | x in s && x !in edges
  }

  lemma EdgeReaches(edges: map<string, seq<string>>, a: string, b: string)
    requires b in Successors(edges, a)
    ensures Reaches(edges, a, b)
  {
    assert IsPath(edges, [a, b]);
  }

  lemma PrependReaches(edges: map<string, seq<string>>, a: string, b: string, c: string)
    requires b in Successors(edges, a) && Reaches(edges, b, c)
    ensures Reaches(edges, a, c)
  {
    var p :| 2 <= |p| && p[0] == b && p[|p| - 1] == c && IsPath(edges, p);
    var q := [a] + p;
    forall i | 0 <= i < |q| - 1 ensures q[i + 1] in Successors(edges, q[i]) {
      if i > 0 {
        assert q[i] == p[i - 1] && q[i + 1] == p[i];
      }
    }
    assert IsPath(edges, q);
  }

  /** Along a path that starts inside a closed set of names, every later name stays inside it. */
  lemma {:induction false} PathStaysIn(edges: map<string, seq<string>>, p: seq<string>, v: set<string>, k: int)
    requires 2 <= |p| && IsPath(edges, p) && 1 <= k < |p|
    requires Elements(Successors(edges, p[0])) <= v && ExpandedIn(edges, v, v)
    ensures p[k] in v
    decreases k
  {
    assert p[k] in Successors(edges, p[k - 1]);
    if k > 1 {
      PathStaysIn(edges, p, v, k - 1);
    }
  }

  /**
   * A set that holds the targets of `a` and the targets of each of its own
   * names holds every name reachable from `a`.
   */
  lemma ClosedHoldsReachable(edges: map<string, seq<string>>, a: string, v: set<string>)
    requires Elements(Successors(edges, a)) <= v && ExpandedIn(edges, v, v)
    ensures forall b | Reaches(edges, a, b) :: b in v
  {
    forall b | Reaches(edges, a, b) ensures b in v {
      var p :| 2 <= |p| && p[0] == a && p[|p| - 1] == b && IsPath(edges, p);
      PathStaysIn(edges, p, v, |p| - 1);
    }
  }

  // ---------------------------------------------------------------------
  // FLOW tags

  /** The names without the substring "FLOW": the targets that are pages, not other flows. */
  function WithoutFlowTags(s: set<string>): set<string> {
    set p | p in s && !Contains(p, "FLOW")
  }

  // ---------------------------------------------------------------------
  // The result of the analysis

  /** `all_pages - used` with no adjacency entry: pages nothing leads to and that lead nowhere. */
  function UnusedOf(all: set<string>, used: set<string>, edges: map<string, seq<string>>): set<string> {
    set p | p in all && p !in used && p !in edges
  }

  /** `all_pages - used` with an adjacency entry: the roots of unreachable parts of the graph. */
  function UnreachableRootsOf(all: set<string>, used: set<string>, edges: map<string, seq<string>>): set<string> {
    set p | p in all && p !in used && p in edges
  }

  /** The names reached from the start page, or used, but not both; without FLOW tags. */
  function UnreachableOf(active: set<string>, used: set<string>): set<string> {
    WithoutFlowTags((active - used) + (used - active))
  }

  /** The start page and the active pages that lead nowhere, without special pages and FLOW tags. */
  function DanglingOf(active: set<string>, edges: map<string, seq<string>>): set<string> {
    WithoutFlowTags(DeadEnds(edges, {StartPage} + active) - SpecialPages)
  }

  /**
   * What the three `find_*` steps leave in a flow whose analysis sets start
   * empty: the active pages are exactly the names reachable from the start
   * page, and the other three sets are those the functions above describe.
   */
  ghost predicate Analyzed(flow: Flow)
    reads flow, flow.graph
  {
    var edges, used := flow.graph.edges, flow.graph.usedNodes;
    && (forall x :: x in flow.activePages <==> Reaches(edges, StartPage, x))
    && flow.unusedPages == UnusedOf(flow.allPages, used, edges)
    && flow.danglingPages == DanglingOf(flow.activePages, edges)
    && flow.unreachablePages == UnreachableRootsOf(flow.allPages, used, edges) + UnreachableOf(flow.activePages, used)
  }

  /**
   * The unused pages and the unreachable roots split `all_pages - used`: no
   * unused page is used or has an edge out, every unreachable root has one.
   */
  lemma UnusedSplit(all: set<string>, used: set<string>, edges: map<string, seq<string>>)
    ensures UnusedOf(all, used, edges) + UnreachableRootsOf(all, used, edges) == all - used
    ensures UnusedOf(all, used, edges) * UnreachableRootsOf(all, used, edges) == {}
    ensures forall p | p in UnusedOf(all, used, edges) :: p !in used && p !in edges
  {
  }

  /**
   * In an analyzed flow a dangling page is the start page or an active page,
   * has no edge out, is no special page and no FLOW tag; "Start Page"
   * itself is active only when it lies on a cycle.
   */
  lemma AnalyzedDangling(flow: Flow)
    requires Analyzed(flow)
    ensures forall p | p in flow.danglingPages ::
      (p == StartPage || Reaches(flow.graph.edges, StartPage, p)) && p !in flow.graph.edges
      && p !in SpecialPages && !Contains(p, "FLOW")
    ensures StartPage in flow.activePages <==> Reaches(flow.graph.edges, StartPage, StartPage)
  {
  }

  /** The flow filters: an include string keeps only flows whose name it contains; a matching exclude string wins. */
  function Filtered(includeFilter: string, excludeFilter: Option<string>, name: string, prior: bool): (r: bool)
    ensures Truthy(excludeFilter) && Contains(excludeFilter.value, name) ==> r
    ensures !(Truthy(excludeFilter) && Contains(excludeFilter.value, name)) && includeFilter != "" ==> (r <==> !Contains(includeFilter, name))
    ensures !(Truthy(excludeFilter) && Contains(excludeFilter.value, name)) && includeFilter == "" ==> r == prior
  {
    var afterInclude := if includeFilter != "" then !Contains(includeFilter, name) else prior;
    if Truthy(excludeFilter) && Contains(excludeFilter.value, name) then true else afterInclude
  }

  /** `load_exclude_filter`: an empty exclude setting means no exclude filter. */
  function LoadExcludeFilter(setting: string): (r: Option<string>)
    ensures r.None? <==> setting == ""
    ensures r.Some? ==> r.value == setting && Truthy(r)
  {
    if setting == "" then None else Some(setting)
  }

  /** The keys `lint_start_page` lints can be linted: routes and event handlers the route linter accepts. */
  predicate StartReady(d: PageData) {
    RoutesReady(TransitionRoute, Items(d.transitionRoutes)) && RoutesReady(Event, Items(d.eventHandlers))
  }

  /** A path `parse_filepath` accepts as a flow directory. */
  predicate FlowPathMatches(path: string) {
    ParseFilepath(path, FlowPath).Some?
  }

  /** A flow directory `lint_flow` can lint: a `/flows/` path, and start page, page and route group files it accepts. */
  predicate FlowDirReady(dir: FlowDir) {
    FlowPathMatches(dir.dirPath) && StartReady(dir.flowFile)
    && FilesReady(Items(dir.pages)) && GroupFilesReady(Items(dir.routeGroups))
  }

  /** The display name of a flow: its directory name, cleaned. */
  function FlowName(dir: FlowDir): string
    requires FlowPathMatches(dir.dirPath)
  {
    Cleaned(ParseFilepath(dir.dirPath, FlowPath).value)
  }

  /** The page files of the flow directories the filters let through, each counted once. */
  function LintedPages(includeFilter: string, excludeFilter: Option<string>, dirs: seq<FlowDir>): int
    requires forall i | 0 <= i < |dirs| :: FlowDirReady(dirs[i])
  {
    if |dirs| == 0 then 0
    else
      var front, last := dirs[..|dirs| - 1], dirs[|dirs| - 1];
      assert FlowDirReady(last);
      LintedPages(includeFilter, excludeFilter, front)
        + if Filtered(includeFilter, excludeFilter, FlowName(last), false) then 0 else |Items(last.pages)|
  }

  /** One more flow directory adds its own pages to `LintedPages` unless the filters skip it. */
  lemma LintedPagesStep(includeFilter: string, excludeFilter: Option<string>, dirs: seq<FlowDir>, i: int)
    requires forall i | 0 <= i < |dirs| :: FlowDirReady(dirs[i])
    requires 0 <= i < |dirs|
    ensures LintedPages(includeFilter, excludeFilter, dirs[..i + 1])
      == LintedPages(includeFilter, excludeFilter, dirs[..i])
         + if Filtered(includeFilter, excludeFilter, FlowName(dirs[i]), false) then 0 else |Items(dirs[i].pages)|
  {
    assert dirs[..i + 1][..i] == dirs[..i];
  }

  class Flows {
    const verbose: bool
    /** `load_include_filter`: the include setting as written; "" stands for no include filter. */
    const includeFilter: string
    const excludeFilter: Option<string>
    const pages: Pages
    const rgs: RouteGroups
    const routes: Fulfillments
    const rules: FlowRules
    const pageRules: PageRules

    /** Each part of the linter gets its own loggers and its own route parameter record, as in `__init__`. */
    constructor (verbose: bool, disableMap: map<string, bool>, agentType: Option<string>, includeSetting: string, excludeSetting: string)
      ensures Valid() && this.verbose == verbose
      ensures includeFilter == includeSetting && excludeFilter == LoadExcludeFilter(excludeSetting)
      ensures rules.disableMap == disableMap && pageRules.disableMap == disableMap && routes.rules.disableMap == disableMap
      ensures routes.verbose == verbose && routes.agentType == agentType
      ensures fresh(pages) && fresh(pages.rules) && fresh(pages.rules.log) && fresh(pages.routes) && fresh(pages.routes.rules) && fresh(pages.routes.rules.log)
      ensures fresh(rgs) && fresh(rgs.routes) && fresh(rgs.routes.rules) && fresh(rgs.routes.rules.log)
      ensures fresh(routes) && fresh(routes.rules) && fresh(routes.rules.log)
      ensures fresh(rules) && fresh(rules.log) && fresh(pageRules) && fresh(pageRules.log)
    {
      this.verbose := verbose;
      includeFilter := includeSetting;
      excludeFilter := LoadExcludeFilter(excludeSetting);
      pages := new Pages(verbose, disableMap, agentType);
      rgs := new RouteGroups(verbose, disableMap, agentType);
      routes := new Fulfillments(verbose, disableMap, agentType);
      rules := new FlowRules(disableMap);
      pageRules := new PageRules(disableMap);
    }

    /** The start page's response message rules and page rules log to different sinks; so do the two of `pages`. */
    predicate Valid()
      reads this, pages
    {
      pages.Valid() && routes.rules.log != pageRules.log
    }

    /** `remove_flow_pages_from_set`: a new set of the names that do not contain "FLOW". */
    static method RemoveFlowPagesFromSet(input: set<string>) returns (filtered: set<string>)
      ensures filtered == WithoutFlowTags(input)
      ensures filtered <= input && forall p | p in filtered :: !Contains(p, "FLOW")
    {
      filtered := {};
      var rest := input;
      while rest != {}
        invariant rest <= input
        invariant filtered == WithoutFlowTags(input - rest)
        decreases rest
      {
        var page :| page in rest;
        if !Contains(page, "FLOW") {
          filtered := filtered + {page};
        }
        rest := rest - {page};
      }
      assert input - rest == input;
    }

    /** The discard loops of `find_unused_pages` and `find_dangling_pages`: each special page in turn leaves the set. */
    static method DiscardSpecialPages(s: set<string>) returns (r: set<string>)
      ensures r == s - SpecialPages
    {
      r := s;
      for i := 0 to |SpecialPageList|
        invariant r == s - Elements(SpecialPageList[..i])
      {
        r := r - {SpecialPageList[i]};
        assert SpecialPageList[..i + 1] == SpecialPageList[..i] + [SpecialPageList[i]];
      }
      assert SpecialPageList[..|SpecialPageList|] == SpecialPageList;
      SpecialPagesListed();
    }

    /**
     * `find_unused_pages`: the special pages leave `all_pages`; of the pages
     * no route uses, those without an edge out are the unused pages and the
     * others are added to the unreachable pages.
     */
    method FindUnusedPages(flow: Flow)
      modifies flow`allPages, flow`unusedPages, flow`unreachablePages
      ensures flow.allPages == old(flow.allPages) - SpecialPages
      ensures flow.unusedPages == UnusedOf(flow.allPages, flow.graph.usedNodes, flow.graph.edges)
      ensures flow.unreachablePages == old(flow.unreachablePages) + UnreachableRootsOf(flow.allPages, flow.graph.usedNodes, flow.graph.edges)
    {
      var all := DiscardSpecialPages(flow.allPages);
      flow.allPages := all;
      var edges := flow.graph.edges;
      var prelim := flow.allPages - flow.graph.usedNodes;
      ghost var u0 := flow.unreachablePages;
      var filtered := {};
      var rest := prelim;
      while rest != {}
        invariant rest <= prelim && flow.allPages == all
        invariant filtered == set p | p in prelim - rest && p !in edges
        invariant flow.unreachablePages == u0 + set p | p in prelim - rest && p in edges
        decreases rest
      {
        var page :| page in rest;
        if page !in edges {
          filtered := filtered + {page};
        } else {
          flow.unreachablePages := flow.unreachablePages + {page};
        }
        rest := rest - {page};
      }
      assert prelim - rest == prelim;
      flow.unusedPages := filtered;
    }

    /**
     * `recurse_edges`: a depth-first walk from `page`. A page with an
     * adjacency entry has each of its targets that is not yet visited marked
     * visited and then walked; a page without one is dangling. Marking before
     * descending makes the walk end on cyclic graphs, one unvisited target
     * less at each descent. The names it adds to `visited` are reachable from
     * `page`; each was walked, so its own targets end up visited; and the
     * dangling names it adds are those of `page` and the new names that lead
     * nowhere.
     */
    static method RecurseEdges(edges: map<string, seq<string>>, page: string, dangling: set<string>, visited: set<string>)
      returns (d: set<string>, v: set<string>)
      ensures visited <= v
      ensures forall x | x in v - visited :: Reaches(edges, page, x)
      ensures Elements(Successors(edges, page)) <= v
      ensures ExpandedIn(edges, v - visited, v)
      ensures d == dangling + DeadEnds(edges, {page} + (v - visited))
      decreases Targets(edges) - visited
    {
      if page in edges {
        var children := edges[page];
        d, v := dangling, visited;
        for i := 0 to |children|
          invariant visited <= v
          invariant forall x | x in v - visited :: Reaches(edges, page, x)
          invariant forall j | 0 <= j < i :: children[j] in v
          invariant ExpandedIn(edges, v - visited, v)
          invariant d == dangling + DeadEnds(edges, v - visited)
        {
          var child := children[i];
          if child !in v {
            assert child in edges[page];
            assert child in Targets(edges);
            ghost var v0 := v;
            v := v + {child};
            d, v := RecurseEdges(edges, child, d, v);
            EdgeReaches(edges, page, child);
            forall x | x in v - visited ensures Reaches(edges, page, x) {
              if x !in v0 && x != child {
                PrependReaches(edges, page, child, x);
              }
            }
          }
        }
      } else {
        d, v := dangling + {page}, visited;
      }
    }

    /**
     * `find_dangling_pages`: the walk from "Start Page" over the current
     * dangling and active pages, then the special pages and the FLOW tags
     * leave the dangling pages. From an empty active set, the active pages
     * are exactly the names reachable from the start page.
     */
    method FindDanglingPages(flow: Flow)
      modifies flow`danglingPages, flow`activePages
      ensures old(flow.activePages) <= flow.activePages
      ensures forall x | x in flow.activePages - old(flow.activePages) :: Reaches(flow.graph.edges, StartPage, x)
      ensures old(flow.activePages) == {} ==> forall x :: x in flow.activePages <==> Reaches(flow.graph.edges, StartPage, x)
      ensures flow.danglingPages == WithoutFlowTags(old(flow.danglingPages)
        + DeadEnds(flow.graph.edges, {StartPage} + (flow.activePages - old(flow.activePages))) - SpecialPages)
    {
      ghost var a0 := flow.activePages;
      var d, v := RecurseEdges(flow.graph.edges, StartPage, flow.danglingPages, flow.activePages);
      if a0 == {} {
        assert v - a0 == v;
        ClosedHoldsReachable(flow.graph.edges, StartPage, v);
      }
      flow.danglingPages, flow.activePages := d, v;
      flow.danglingPages := DiscardSpecialPages(flow.danglingPages);
      flow.danglingPages := RemoveFlowPagesFromSet(flow.danglingPages);
    }

    /**
     * `find_unreachable_pages`: the names that are active or used but not
     * both, without FLOW tags, join the unreachable pages; nothing leaves
     * them and special pages are not dropped here.
     */
    method FindUnreachablePages(flow: Flow)
      modifies flow`unreachablePages
      ensures flow.unreachablePages == old(flow.unreachablePages) + UnreachableOf(flow.activePages, flow.graph.usedNodes)
      ensures old(flow.unreachablePages) <= flow.unreachablePages
    {
      var filtered := (flow.activePages - flow.graph.usedNodes) + (flow.graph.usedNodes - flow.activePages);
      filtered := RemoveFlowPagesFromSet(filtered);
      flow.unreachablePages := flow.unreachablePages + filtered;
    }

    /** Lines 313-316 of `lint_flow`: unused, then dangling, then unreachable pages. */
    method AnalyzeFlow(flow: Flow)
      modifies flow`allPages, flow`unusedPages, flow`unreachablePages, flow`danglingPages, flow`activePages
      ensures flow.allPages == old(flow.allPages) - SpecialPages
      ensures flow.unusedPages == UnusedOf(flow.allPages, flow.graph.usedNodes, flow.graph.edges)
      ensures old(flow.activePages) == {} && old(flow.danglingPages) == {} && old(flow.unreachablePages) == {} ==> Analyzed(flow)
    {
      FindUnusedPages(flow);
      FindDanglingPages(flow);
      FindUnreachablePages(flow);
    }

    /** `check_flow_filters`. */
    method CheckFlowFilters(flow: Flow)
      modifies flow`filtered
      ensures flow.filtered == Filtered(includeFilter, excludeFilter, flow.displayName, old(flow.filtered))
    {
      if includeFilter != "" {
        if Contains(includeFilter, flow.displayName) {
          flow.filtered := false;
        } else {
          flow.filtered := true;
        }
      }
      if Truthy(excludeFilter) {
        if Contains(excludeFilter.value, flow.displayName) {
          flow.filtered := true;
        }
      }
    }
  
    /**
     * Lines 268-282 of `lint_start_page`: a new page named "Start Page"
     * becomes a graph node and takes the flow file's event handlers, routes
     * and route groups; the flow takes the file's `name` as its id and the
     * start page is recorded in `flow.data` as "START_PAGE".
     */
    static method LoadStartPage(flow: Flow, data: PageData) returns (page: Page)
      modifies flow`resourceId, flow`data, flow.graph`nodes
      ensures fresh(page) && page.flow == flow && page.displayName == StartPage && page.resourceId == Some("START_PAGE")
      ensures page.entry.None? && page.form.None? && page.events == data.eventHandlers
      ensures page.routes == data.transitionRoutes && page.routeGroups == data.transitionRouteGroups
      ensures !page.hasWebhook && !page.hasWebhookEventHandler
      ensures flow.graph.nodes == old(flow.graph.nodes) + {StartPage}
      ensures flow.resourceId == data.name && flow.data == old(flow.data)[StartPage := Some("START_PAGE")]
      ensures flow.KeepsAnalysis() && flow.allPages == old(flow.allPages)
    {
      page := new Page(flow);
      page.displayName := StartPage;
      flow.graph.AddNode(page.displayName);
      page.events, page.routes, page.routeGroups := data.eventHandlers, data.transitionRoutes, data.transitionRouteGroups;
      flow.resourceId := data.name;
      page.resourceId := Some("START_PAGE");
      flow.data := flow.data[page.displayName := page.resourceId];
    }

    /** The effects of the start page's transition routes and then its event handlers. */
    ghost function StartRoutesAfter(e: RouteEffects, page: Page): RouteEffects
      reads page`displayName, page`resourceId, page`routes, page`events, page.flow`displayName, page.flow`resourceId
    {
      AfterRoutes(AfterRoutes(e, routes.Base(page, TransitionRoute), routes.verbose, None, Items(page.routes)),
                  routes.Base(page, Event), routes.verbose, None, Items(page.events))
    }

    /** The texts the start page's routes and event handlers carry. */
    ghost function StartInspections(page: Page): int
      reads page`displayName, page`resourceId, page`routes, page`events, page.flow`displayName, page.flow`resourceId
    {
      |Linted(routes.Base(page, TransitionRoute), routes.verbose, None, Items(page.routes))|
      + |Linted(routes.Base(page, Event), routes.verbose, None, Items(page.events))|
    }

    /** The response message rules' lines for the start page's event handlers (its routes log none). */
    ghost function StartLog(page: Page): seq<Diagnostic>
      reads page`displayName, page`resourceId, page`events, page.flow`displayName, page.flow`resourceId
    {
      RmLog(RmOf(routes.rules.disableMap), Linted(routes.Base(page, Event), routes.verbose, None, Items(page.events)))
    }

    /** Lines 285-286 of `lint_start_page`: the transition routes, then the event handlers. */
    method LintStartRoutes(page: Page, stats: LintStats)
      requires RoutesReady(TransitionRoute, Items(page.routes)) && RoutesReady(Event, Items(page.events))
      modifies page`hasWebhook, page`hasWebhookEventHandler, page.flow.graph`edges, page.flow.graph`usedNodes, page.flow.agent
      modifies routes`routeParameters, routes.rules.log, stats`totalInspected, stats`totalIssues
      ensures routes.Effects(page) == StartRoutesAfter(old(routes.Effects(page)), page)
      ensures routes.rules.log.lines == old(routes.rules.log.lines) + StartLog(page)
      ensures stats.Bumped(StartInspections(page), |StartLog(page)|)
      ensures page.KeepsData() && page.flow.KeepsPages()
    {
      routes.LintRoutes(page, stats);
      routes.LintEvents(page, stats);
    }

    /** Lines 285-291 of `lint_start_page`: the routes and event handlers, the route group edges, then the page rules. */
    method LintLoadedStartPage(page: Page, stats: LintStats)
      requires Valid() && RoutesReady(TransitionRoute, Items(page.routes)) && RoutesReady(Event, Items(page.events))
      modifies page`hasWebhook, page`hasWebhookEventHandler, page.flow.graph`edges, page.flow.graph`usedNodes, page.flow.agent
      modifies routes`routeParameters, routes.rules.log, pageRules.log, stats`totalInspected, stats`totalIssues
      ensures routes.Effects(page) == AfterGroups(StartRoutesAfter(old(routes.Effects(page)), page), page.displayName, page.routeGroups)
      ensures routes.rules.log.lines == old(routes.rules.log.lines) + StartLog(page)
      ensures pageRules.log.lines == old(pageRules.log.lines) + PageRuleLog(pageRules.disableMap, page)
      ensures stats.Bumped(StartInspections(page) + (if Enabled(pageRules.disableMap, "missing-webhook-event-handlers") then 1 else 0),
                           |StartLog(page)| + |PageRuleLog(pageRules.disableMap, page)|)
      ensures page.KeepsData() && page.flow.KeepsPages()
    {
      ghost var p0 := pageRules.log.lines;
      LintStartRoutes(page, stats);
      ghost var e1, l1 := routes.Effects(page), routes.rules.log.lines;
      assert pageRules.log.lines == p0;
      LintGroupsAndRules(routes, pageRules, page, stats);
      assert routes.rules.log.lines == l1;
    }

    /**
     * `lint_start_page`: the start page is loaded from the flow file
     * (`LoadStartPage` states what it holds) and linted like a page without
     * entry fulfillment or form (`LintLoadedStartPage` states the effects,
     * logs and counters); the flow keeps the start page's node and id.
     */
    method LintStartPage(flow: Flow, data: PageData, stats: LintStats)
      requires Valid() && StartReady(data)
      modifies flow`resourceId, flow`data, flow.graph`nodes, flow.graph`edges, flow.graph`usedNodes, flow.agent
      modifies routes`routeParameters, routes.rules.log, pageRules.log, stats`totalInspected, stats`totalIssues
      ensures flow.graph.nodes == old(flow.graph.nodes) + {StartPage}
      ensures flow.resourceId == data.name && flow.data == old(flow.data)[StartPage := Some("START_PAGE")]
      ensures flow.KeepsAnalysis() && flow.allPages == old(flow.allPages)
      ensures stats.totalInspected - old(stats.totalInspected) >= if Enabled(pageRules.disableMap, "missing-webhook-event-handlers") then 1 else 0
      ensures stats.totalIssues - old(stats.totalIssues)
        == (|routes.rules.log.lines| - |old(routes.rules.log.lines)|) + (|pageRules.log.lines| - |old(pageRules.log.lines)|)
      ensures stats.totalPages == old(stats.totalPages) && stats.totalFlows == old(stats.totalFlows)
    {
      var page := LoadStartPage(flow, data);
      LintLoadedStartPage(page, stats);
    }

    /** Lines 309-311 of `lint_flow`: the start page, then the pages directory, then the route groups directory. */
    method LintFlowResources(flow: Flow, dir: FlowDir, stats: LintStats)
      requires Valid() && FlowDirReady(dir)
      modifies flow`resourceId, flow`data, flow`allPages, flow.graph, flow.agent
      modifies routes`routeParameters, routes.rules.log, pageRules.log
      modifies pages.routes`routeParameters, pages.routes.rules.log, pages.rules.log
      modifies rgs.routes`routeParameters, rgs.routes.rules.log
      modifies stats`totalInspected, stats`totalIssues, stats`totalPages, stats`totalRouteGroups
      ensures flow.KeepsAnalysis()
      ensures flow.resourceId == dir.flowFile.name
      ensures flow.graph.nodes == old(flow.graph.nodes) + {StartPage} + Elements(PageNames(Items(dir.pages)))
      ensures flow.allPages == old(flow.allPages) + Elements(PageNames(Items(dir.pages)))
      ensures flow.data == DataAfter(old(flow.data)[StartPage := Some("START_PAGE")], Items(dir.pages))
      ensures stats.totalPages == old(stats.totalPages) + |Items(dir.pages)|
      ensures stats.totalRouteGroups == if dir.routeGroups.Some? then |dir.routeGroups.value| else old(stats.totalRouteGroups)
      ensures stats.totalFlows == old(stats.totalFlows)
    {
      LintStartPage(flow, dir.flowFile, stats);
      pages.LintPagesDirectory(flow, dir.pages, stats);
      rgs.LintRouteGroupsDirectory(flow, dir.routeGroups, stats);
    }

    /**
     * `lint_flow`: the flow is named after its directory, the filters
     * decide whether it is linted, and a flow that is linted has its
     * resources loaded, its graph analyzed (unused, dangling, unreachable)
     * and only then the flow rules run over the analysis. A filtered flow
     * changes no counter and no graph. The flow rules visit each page set in
     * an order Python does not fix; the orders are returned.
     */
    method LintFlow(flow: Flow, dir: FlowDir, stats: LintStats) returns (unused: seq<string>, dangling: seq<string>, unreachable: seq<string>)
      requires Valid() && FlowDirReady(dir)
      modifies flow, flow.graph, flow.agent
      modifies routes`routeParameters, routes.rules.log, pageRules.log, rules.log
      modifies pages.routes`routeParameters, pages.routes.rules.log, pages.rules.log
      modifies rgs.routes`routeParameters, rgs.routes.rules.log
      modifies stats`totalInspected, stats`totalIssues, stats`totalPages, stats`totalRouteGroups
      ensures flow.displayName == FlowName(dir)
      ensures flow.filtered == Filtered(includeFilter, excludeFilter, flow.displayName, old(flow.filtered))
      ensures flow.filtered ==> unchanged(stats) && unchanged(flow.graph) && unused == dangling == unreachable == []
      ensures !flow.filtered ==> stats.totalPages == old(stats.totalPages) + |Items(dir.pages)| && flow.resourceId == dir.flowFile.name
      ensures !flow.filtered ==> flow.allPages == (old(flow.allPages) + Elements(PageNames(Items(dir.pages)))) - SpecialPages
      ensures !flow.filtered && old(flow.activePages) == {} && old(flow.danglingPages) == {} && old(flow.unreachablePages) == {}
        ==> Analyzed(flow)
      ensures !flow.filtered ==> Enumerates(unused, if Enabled(rules.disableMap, "unused-pages") then flow.unusedPages else {})
      ensures !flow.filtered ==> Enumerates(dangling, if Enabled(rules.disableMap, "dangling-pages") then flow.danglingPages else {})
      ensures !flow.filtered ==> Enumerates(unreachable, if Enabled(rules.disableMap, "unreachable-pages") then flow.unreachablePages else {})
      ensures flow.filtered ==> unchanged(routes.rules.log, pageRules.log, pages.routes.rules.log, pages.rules.log, rules.log, rgs.routes.rules.log)
      ensures stats.totalFlows == old(stats.totalFlows)
    {
      var fileName := ParseFilepath(dir.dirPath, FlowPath).value;
      var name := CleanDisplayName(fileName);
      flow.displayName := name;
      CheckFlowFilters(flow);
      unused, dangling, unreachable := [], [], [];
      if !flow.filtered {
        assert flow.activePages == old(flow.activePages) && flow.danglingPages == old(flow.danglingPages) && flow.unreachablePages == old(flow.unreachablePages);
        unused, dangling, unreachable := LintUnfilteredFlow(flow, dir, stats);
      }
    }

    /** Lines 307-318 of `lint_flow`: the resources, then the three `find_*` steps in order, then the flow rules. */
    method LintUnfilteredFlow(flow: Flow, dir: FlowDir, stats: LintStats) returns (unused: seq<string>, dangling: seq<string>, unreachable: seq<string>)
      requires Valid() && FlowDirReady(dir)
      modifies flow, flow.graph, flow.agent
      modifies routes`routeParameters, routes.rules.log, pageRules.log, rules.log
      modifies pages.routes`routeParameters, pages.routes.rules.log, pages.rules.log
      modifies rgs.routes`routeParameters, rgs.routes.rules.log
      modifies stats`totalInspected, stats`totalIssues, stats`totalPages, stats`totalRouteGroups
      ensures flow.displayName == old(flow.displayName) && flow.filtered == old(flow.filtered)
      ensures stats.totalPages == old(stats.totalPages) + |Items(dir.pages)| && flow.resourceId == dir.flowFile.name
      ensures flow.allPages == (old(flow.allPages) + Elements(PageNames(Items(dir.pages)))) - SpecialPages
      ensures old(flow.activePages) == {} && old(flow.danglingPages) == {} && old(flow.unreachablePages) == {} ==> Analyzed(flow)
      ensures Enumerates(unused, if Enabled(rules.disableMap, "unused-pages") then flow.unusedPages else {})
      ensures Enumerates(dangling, if Enabled(rules.disableMap, "dangling-pages") then flow.danglingPages else {})
      ensures Enumerates(unreachable, if Enabled(rules.disableMap, "unreachable-pages") then flow.unreachablePages else {})
      ensures stats.totalFlows == old(stats.totalFlows)
    {
      LintFlowResources(flow, dir, stats);
      unused, dangling, unreachable := AnalyzeAndReport(flow, stats);
    }

    /** Lines 313-318 of `lint_flow`: the three `find_*` steps, then the flow rules over their result. */
    method AnalyzeAndReport(flow: Flow, stats: LintStats) returns (unused: seq<string>, dangling: seq<string>, unreachable: seq<string>)
      modifies flow`allPages, flow`unusedPages, flow`unreachablePages, flow`danglingPages, flow`activePages
      modifies stats`totalInspected, stats`totalIssues, rules.log
      ensures flow.displayName == old(flow.displayName) && flow.filtered == old(flow.filtered) && flow.resourceId == old(flow.resourceId)
      ensures stats.totalPages == old(stats.totalPages)
      ensures flow.allPages == old(flow.allPages) - SpecialPages
      ensures old(flow.activePages) == {} && old(flow.danglingPages) == {} && old(flow.unreachablePages) == {} ==> Analyzed(flow)
      ensures Enumerates(unused, if Enabled(rules.disableMap, "unused-pages") then flow.unusedPages else {})
      ensures Enumerates(dangling, if Enabled(rules.disableMap, "dangling-pages") then flow.danglingPages else {})
      ensures Enumerates(unreachable, if Enabled(rules.disableMap, "unreachable-pages") then flow.unreachablePages else {})
      ensures var n := |unused| + |dangling| + |unreachable|; stats.Bumped(n, n)
      ensures rules.log.lines == old(rules.log.lines)
        + FlowPageDiagnostics(R012, flow.displayName, flow.resourceId, flow.data, unused)
        + FlowPageDiagnostics(R013, flow.displayName, flow.resourceId, flow.data, dangling)
        + FlowPageDiagnostics(R014, flow.displayName, flow.resourceId, flow.data, unreachable)
    {
      AnalyzeFlow(flow);
      ghost var an := Analyzed(flow);
      unused, dangling, unreachable := rules.RunFlowRules(flow, stats);
      assert Analyzed(flow) == an;
    }

    /** One iteration of `lint_flows_directory`: a new flow of the shared agent, with its own graph, linted. */
    method LintFlowDir(agent: Agent, dir: FlowDir, stats: LintStats)
      requires Valid() && FlowDirReady(dir)
      modifies agent
      modifies routes`routeParameters, routes.rules.log, pageRules.log, rules.log
      modifies pages.routes`routeParameters, pages.routes.rules.log, pages.rules.log
      modifies rgs.routes`routeParameters, rgs.routes.rules.log
      modifies stats`totalInspected, stats`totalIssues, stats`totalPages, stats`totalRouteGroups
      ensures stats.totalPages == old(stats.totalPages) + if Filtered(includeFilter, excludeFilter, FlowName(dir), false) then 0 else |Items(dir.pages)|
      ensures stats.totalFlows == old(stats.totalFlows)
    {
      var flow := new Flow(agent);
      var unused, dangling, unreachable := LintFlow(flow, dir, stats);
    }

    /**
     * `lint_flows_directory`: `total_flows` is the number of flow
     * directories; each is linted as a new flow with its own graph, all
     * flows sharing one agent; the rating is computed from the final
     * counters. Only the pages of flows the filters let through are counted.
     */
    method LintFlowsDirectory(dirs: seq<FlowDir>) returns (stats: LintStats, rating: real)
      requires Valid() && forall i | 0 <= i < |dirs| :: FlowDirReady(dirs[i])
      modifies routes`routeParameters, routes.rules.log, pageRules.log, rules.log
      modifies pages.routes`routeParameters, pages.routes.rules.log, pages.rules.log
      modifies rgs.routes`routeParameters, rgs.routes.rules.log
      ensures fresh(stats) && stats.totalFlows == |dirs|
      ensures stats.totalPages == LintedPages(includeFilter, excludeFilter, dirs)
      ensures rating == CalculateRating(stats.totalIssues, stats.totalInspected)
    {
      stats := new LintStats();
      var agent := new Agent();
      stats.SetFlows(|dirs|);
      for i := 0 to |dirs|
        invariant fresh(stats) && fresh(agent)
        invariant stats.totalFlows == |dirs|
        invariant stats.totalPages == LintedPages(includeFilter, excludeFilter, dirs[..i])
      {
        LintFlowDir(agent, dirs[i], stats);
        LintedPagesStep(includeFilter, excludeFilter, dirs, i);
      }
      assert dirs[..|dirs|] == dirs;
      rating := CalculateRating(stats.totalIssues, stats.totalInspected);
    }
  }
}
