/**
 * The route group loader of `src/resources/route_groups.py`. A route group
 * is linted as a page of its flow: its transition routes become edges whose
 * source is the group's own `displayName`, so pages that reference the group
 * (an edge to the group's name) connect through it.
 */
module RouteGroups {
  import opened Wrappers
  import opened Export
  import opened Types
  import opened Common
  import opened Collections
  import opened Routes

  /** A group file the loader can read: a `/transitionRouteGroups/` path and routes the route linter accepts. */
  predicate GroupFileReady(file: RouteGroupFile) {
    ParseFilepath(file.path, RouteGroupPath).Some? && RoutesReady(TransitionRoute, Items(file.transitionRoutes))
  }

  predicate GroupFilesReady(files: seq<RouteGroupFile>) {
    forall i | 0 <= i < |files| :: GroupFileReady(files[i])
  }

  /** The fulfillment the routes of a group of the flow named `flowName` are linted as. */
  function GroupBase(flowName: string, flowId: Option<string>, file: RouteGroupFile): (f: Fulfillment)
    ensures f.fulfillmentType == TransitionRoute && f.pageDisplayName == file.displayName
  {
    Fulfillment(TransitionRoute, "", "", None, flowName, flowId, file.displayName, file.name)
  }

  /** The edges after the routes of every group file, in order, each from its group's display name. */
  function GroupEdgesAfter(edges: map<string, seq<string>>, files: seq<RouteGroupFile>): map<string, seq<string>> {
    if |files| == 0 then edges
    else
      var last := files[|files| - 1];
      AddEdges(GroupEdgesAfter(edges, files[..|files| - 1]), last.displayName, AllTargets(Items(last.transitionRoutes)))
  }

  /** Every route target of every group file. */
  function GroupTargets(files: seq<RouteGroupFile>): set<string> {
    if |files| == 0 then {}
    else GroupTargets(files[..|files| - 1]) + Elements(AllTargets(Items(files[|files| - 1].transitionRoutes)))
  }

  /** The texts the route linter inspects over every group file. */
  function GroupInspections(flowName: string, flowId: Option<string>, verbose: bool, files: seq<RouteGroupFile>): int {
    if |files| == 0 then 0
    else
      var last := files[|files| - 1];
      GroupInspections(flowName, flowId, verbose, files[..|files| - 1])
        + |Linted(GroupBase(flowName, flowId, last), verbose, None, Items(last.transitionRoutes))|
  }

  /** The route parameters after the presets of every group file, in order, each recorded under its group's display name. */
  function GroupParamsAfter(rp: RouteParameters, flowName: string, files: seq<RouteGroupFile>): RouteParameters {
    if |files| == 0 then rp
    else
      var last := files[|files| - 1];
      ParamsAfter(GroupParamsAfter(rp, flowName, files[..|files| - 1]), flowName, last.displayName, RoutesItems(TransitionRoute, Items(last.transitionRoutes)))
  }

  /** The agent's session parameters after the presets of every group file, in order. */
  function GroupSessionsAfter(sp: map<string, SessionParameter>, files: seq<RouteGroupFile>): map<string, SessionParameter> {
    if |files| == 0 then sp
    else
      var last := files[|files| - 1];
      SessionsAfter(GroupSessionsAfter(sp, files[..|files| - 1]), last.displayName, RoutesItems(TransitionRoute, Items(last.transitionRoutes)))
  }

  /** The route groups keep the route parameter map free of empty entries. */
  lemma {:induction false} GroupParamsNoneEmpty(rp: RouteParameters, flowName: string, files: seq<RouteGroupFile>)
    requires NoneEmpty(rp)
    ensures NoneEmpty(GroupParamsAfter(rp, flowName, files))
    decreases |files|
  {
    if |files| > 0 {
      var last := files[|files| - 1];
      GroupParamsNoneEmpty(rp, flowName, files[..|files| - 1]);
      ParamsAfterNoneEmpty(GroupParamsAfter(rp, flowName, files[..|files| - 1]), flowName, last.displayName, RoutesItems(TransitionRoute, Items(last.transitionRoutes)));
    }
  }

  /** The route groups keep every session parameter's histories aligned, and forget no parameter. */
  lemma {:induction false} GroupSessionsValid(sp: map<string, SessionParameter>, files: seq<RouteGroupFile>)
    requires AllValid(sp)
    ensures AllValid(GroupSessionsAfter(sp, files))
    ensures forall k | k in sp :: k in GroupSessionsAfter(sp, files)
    decreases |files|
  {
    if |files| > 0 {
      var last := files[|files| - 1];
      GroupSessionsValid(sp, files[..|files| - 1]);
      SessionsAfterValid(GroupSessionsAfter(sp, files[..|files| - 1]), last.displayName, RoutesItems(TransitionRoute, Items(last.transitionRoutes)));
    }
  }

  class RouteGroups {
    const routes: Fulfillments

    constructor (verbose: bool, disableMap: map<string, bool>, agentType: Option<string>)
      ensures routes.verbose == verbose && routes.agentType == agentType && routes.routeParameters == map[]
      ensures fresh(routes) && fresh(routes.rules) && fresh(routes.rules.log)
      ensures routes.rules.disableMap == disableMap && routes.rules.log.lines == []
    {
      routes := new Fulfillments(verbose, disableMap, agentType);
    }

    /**
     * Lines 67-74 of `lint_route_group`: the name parsed from the path (a
     * path without the `/transitionRouteGroups/` segment raises) is cleaned
     * and then overwritten by the file's `displayName`; a new page of the
     * flow holds the group's id and routes.
     */
    static method LoadRouteGroup(flow: Flow, file: RouteGroupFile) returns (rg: Page)
      requires ParseFilepath(file.path, RouteGroupPath).Some?
      ensures fresh(rg) && rg.flow == flow && rg.displayName == file.displayName && rg.resourceId == file.name
      ensures rg.routes == file.transitionRoutes && rg.events.None? && rg.routeGroups.None?
      ensures !rg.hasWebhook && !rg.hasWebhookEventHandler
    {
      var parsed := ParseFilepath(file.path, RouteGroupPath).value;
      var cleaned := CleanDisplayName(parsed);
      rg := new Page(flow);
      rg.displayName := cleaned;
      rg.resourceId := file.name;
      rg.displayName := file.displayName;
      rg.routes := file.transitionRoutes;
    }

    /**
     * `lint_route_group`: the group's routes are linted from the group's
     * display name. Transition routes carry no agent type, so nothing is
     * logged and no issue counted.
     */
    method LintRouteGroup(flow: Flow, file: RouteGroupFile, stats: LintStats)
      requires GroupFileReady(file)
      modifies flow.graph`edges, flow.graph`usedNodes, flow.agent, routes`routeParameters
      modifies stats`totalInspected, stats`totalIssues, routes.rules.log
      ensures routes.routeParameters
        == ParamsAfter(old(routes.routeParameters), flow.displayName, file.displayName, RoutesItems(TransitionRoute, Items(file.transitionRoutes)))
      ensures flow.agent.sessionParameters
        == SessionsAfter(old(flow.agent.sessionParameters), file.displayName, RoutesItems(TransitionRoute, Items(file.transitionRoutes)))
      ensures flow.graph.edges == AddEdges(old(flow.graph.edges), file.displayName, AllTargets(Items(file.transitionRoutes)))
      ensures flow.graph.usedNodes == old(flow.graph.usedNodes) + Elements(AllTargets(Items(file.transitionRoutes)))
      ensures routes.rules.log.lines == old(routes.rules.log.lines)
      ensures stats.Bumped(|Linted(GroupBase(flow.displayName, flow.resourceId, file), routes.verbose, None, Items(file.transitionRoutes))|, 0)
    {
      var rg := LoadRouteGroup(flow, file);
      ghost var base := GroupBase(flow.displayName, flow.resourceId, file);
      ghost var e0 := routes.Effects(rg);
      assert routes.Base(rg, TransitionRoute) == base;
      routes.LintRoutes(rg, stats);
      AfterRoutesGraph(e0, base, routes.verbose, None, Items(file.transitionRoutes));
      AfterRoutesPresets(e0, base, routes.verbose, None, Items(file.transitionRoutes));
    }

    /**
     * `lint_route_groups_directory`: when the flow has a route group
     * directory, `total_route_groups` is set (not added to) to the number of
     * its files and each file is linted in turn; without one, nothing
     * changes.
     */
    method LintRouteGroupsDirectory(flow: Flow, files: Option<seq<RouteGroupFile>>, stats: LintStats)
      requires GroupFilesReady(Items(files))
      modifies flow.graph`edges, flow.graph`usedNodes, flow.agent, routes`routeParameters
      modifies stats`totalInspected, stats`totalIssues, stats`totalRouteGroups, routes.rules.log
      ensures routes.routeParameters == GroupParamsAfter(old(routes.routeParameters), flow.displayName, Items(files))
      ensures flow.agent.sessionParameters == GroupSessionsAfter(old(flow.agent.sessionParameters), Items(files))
      ensures stats.totalRouteGroups == if files.Some? then |files.value| else old(stats.totalRouteGroups)
      ensures flow.graph.edges == GroupEdgesAfter(old(flow.graph.edges), Items(files))
      ensures flow.graph.usedNodes == old(flow.graph.usedNodes) + GroupTargets(Items(files))
      ensures routes.rules.log.lines == old(routes.rules.log.lines)
      ensures stats.totalInspected == old(stats.totalInspected) + GroupInspections(flow.displayName, flow.resourceId, routes.verbose, Items(files))
      ensures stats.totalIssues == old(stats.totalIssues)
      ensures flow.KeepsAnalysis() && flow.resourceId == old(flow.resourceId) && flow.allPages == old(flow.allPages)
      ensures flow.data == old(flow.data) && flow.graph.nodes == old(flow.graph.nodes)
      ensures stats.totalPages == old(stats.totalPages) && stats.totalFlows == old(stats.totalFlows)
    {
      if files.Some? {
        var list := files.value;
        stats.SetRouteGroups(|list|);
        ghost var e0, u0, i0, k0, l0 := flow.graph.edges, flow.graph.usedNodes, stats.totalInspected, stats.totalIssues, routes.rules.log.lines;
        ghost var p0, s0 := routes.routeParameters, flow.agent.sessionParameters;
        for i := 0 to |list|
          invariant routes.routeParameters == GroupParamsAfter(p0, flow.displayName, list[..i])
          invariant flow.agent.sessionParameters == GroupSessionsAfter(s0, list[..i])
          invariant flow.graph.edges == GroupEdgesAfter(e0, list[..i])
          invariant flow.graph.usedNodes == u0 + GroupTargets(list[..i])
          invariant routes.rules.log.lines == l0
          invariant stats.totalIssues == k0
          invariant stats.totalInspected == i0 + GroupInspections(flow.displayName, flow.resourceId, routes.verbose, list[..i])
          invariant stats.totalRouteGroups == |list|
          invariant stats.totalPages == old(stats.totalPages) && stats.totalFlows == old(stats.totalFlows)
        {
          LintRouteGroup(flow, list[i], stats);
          assert list[..i + 1][..i] == list[..i];
        }
        assert list[..|list|] == list;
      }
    }
  }
}
