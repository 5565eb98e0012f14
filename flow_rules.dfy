/**
 * The flow rules of `src/rules/flows.py`: R012, R013 and R014 report every
 * page of the flow's unused, dangling and unreachable page sets. Each set is
 * visited in an order Python does not fix; each method returns the order it
 * used.
 */
module FlowRules {
  import opened Wrappers
  import opened Types
  import opened Logger
  import opened Common
  import opened Collections

  const R012 := "R012: Unused Pages"
  const R013 := "R013: Dangling Pages"
  const R014 := "R014: Unreachable Pages"

  /** `flow.data.get(page, None)`: the id recorded for a page name, if any. */
  function PageIdOf(data: map<string, Option<string>>, page: string): Option<string> {
    if page in data then data[page] else None
  }

  /** The line a flow rule logs for one page name. */
  function FlowPageDiagnostic(rule: string, flowName: string, flowId: Option<string>, data: map<string, Option<string>>, page: string): Diagnostic {
    Diagnostic(rule, PageResource("page", flowName, flowId, page, PageIdOf(data, page)), "")
  }

  /** The lines a flow rule logs for the page names in the order visited. */
  function FlowPageDiagnostics(rule: string, flowName: string, flowId: Option<string>, data: map<string, Option<string>>, pages: seq<string>): (r: seq<Diagnostic>)
    ensures |r| == |pages|
  {
    seq(|pages|, i requires 0 <= i < |pages| => FlowPageDiagnostic(rule, flowName, flowId, data, pages[i]))
  }

  /**
   * Whatever the order, a flow rule logs exactly one line per page of its set:
   * as many lines as pages, each naming the rule, the flow and one page, and
   * every page named.
   */
  lemma FlowPageDiagnosticsCover(rule: string, flowName: string, flowId: Option<string>, data: map<string, Option<string>>,
                                 order: seq<string>, pages: set<string>)
    requires Enumerates(order, pages)
    ensures |FlowPageDiagnostics(rule, flowName, flowId, data, order)| == |pages|
    ensures forall d | d in FlowPageDiagnostics(rule, flowName, flowId, data, order) ::
      d.rule == rule && d.resource.flowDisplayName == Some(flowName) && d.resource.pageDisplayName.Some?
      && d.resource.pageDisplayName.value in pages
    ensures forall p | p in pages :: exists i | 0 <= i < |order| ::
      FlowPageDiagnostics(rule, flowName, flowId, data, order)[i].resource.pageDisplayName == Some(p)
  {
    EnumeratesSize(order, pages);
    var r := FlowPageDiagnostics(rule, flowName, flowId, data, order);
    forall d | d in r ensures d.resource.pageDisplayName.Some? && d.resource.pageDisplayName.value in pages {
      var i :| 0 <= i < |r| && r[i] == d;
      assert order[i] in Elements(order);
    }
    forall p | p in pages ensures exists i | 0 <= i < |order| :: r[i].resource.pageDisplayName == Some(p) {
      assert p in Elements(order);
      var i :| 0 <= i < |order| && order[i] == p;
      assert r[i].resource.pageDisplayName == Some(p);
    }
  }

  class FlowRules {
    const disableMap: map<string, bool>
    const log: RulesLogger

    constructor (disableMap: map<string, bool>)
      ensures this.disableMap == disableMap && fresh(log) && log.lines == []
    {
      this.disableMap := disableMap;
      log := new RulesLogger();
    }

    /** The loop the three rules share: one inspection, one issue and one line per page of `pages`. */
    method ReportPages(rule: string, flow: Flow, pages: set<string>, stats: LintStats) returns (order: seq<string>)
      modifies stats`totalInspected, stats`totalIssues, log
      ensures Enumerates(order, pages)
      ensures stats.Bumped(|pages|, |pages|)
      ensures log.lines == old(log.lines) + FlowPageDiagnostics(rule, flow.displayName, flow.resourceId, flow.data, order)
    {
      var rest := pages;
      order := [];
      while rest != {}
        invariant rest <= pages && Enumerates(order, pages - rest)
        invariant stats.Bumped(|order|, |order|)
        invariant log.lines == old(log.lines) + FlowPageDiagnostics(rule, flow.displayName, flow.resourceId, flow.data, order)
        decreases rest
      {
        var page :| page in rest;
        var resource := PageResource("page", flow.displayName, flow.resourceId, page, PageIdOf(flow.data, page));
        stats.Bump(1, 1);
        log.GenericLogger(resource, rule, "");
        EnumeratesSnoc(order, pages - rest, page);
        assert (pages - rest) + {page} == pages - (rest - {page});
        order := order + [page];
        rest := rest - {page};
        assert FlowPageDiagnostics(rule, flow.displayName, flow.resourceId, flow.data, order)
          == FlowPageDiagnostics(rule, flow.displayName, flow.resourceId, flow.data, order[..|order| - 1])
             + [FlowPageDiagnostic(rule, flow.displayName, flow.resourceId, flow.data, page)];
      }
      assert pages - rest == pages;
      EnumeratesSize(order, pages);
    }

    /** `unused_pages`: R012 for every page no route leads to. */
    method UnusedPages(flow: Flow, stats: LintStats) returns (order: seq<string>)
      modifies stats`totalInspected, stats`totalIssues, log
      ensures Enumerates(order, flow.unusedPages)
      ensures stats.Bumped(|flow.unusedPages|, |flow.unusedPages|)
      ensures log.lines == old(log.lines) + FlowPageDiagnostics(R012, flow.displayName, flow.resourceId, flow.data, order)
    {
      order := ReportPages(R012, flow, flow.unusedPages, stats);
    }

    /** `dangling_pages`: R013 for every page with no way out. */
    method DanglingPages(flow: Flow, stats: LintStats) returns (order: seq<string>)
      modifies stats`totalInspected, stats`totalIssues, log
      ensures Enumerates(order, flow.danglingPages)
      ensures stats.Bumped(|flow.danglingPages|, |flow.danglingPages|)
      ensures log.lines == old(log.lines) + FlowPageDiagnostics(R013, flow.displayName, flow.resourceId, flow.data, order)
    {
      order := ReportPages(R013, flow, flow.danglingPages, stats);
    }

    /** `unreachable_pages`: R014 for every page the start page cannot reach. */
    method UnreachablePages(flow: Flow, stats: LintStats) returns (order: seq<string>)
      modifies stats`totalInspected, stats`totalIssues, log
      ensures Enumerates(order, flow.unreachablePages)
      ensures stats.Bumped(|flow.unreachablePages|, |flow.unreachablePages|)
      ensures log.lines == old(log.lines) + FlowPageDiagnostics(R014, flow.displayName, flow.resourceId, flow.data, order)
    {
      order := ReportPages(R014, flow, flow.unreachablePages, stats);
    }

    /**
     * `run_flow_rules`: the three rules in order, each unless disabled; a
     * disabled rule reports nothing and its order is empty.
     */
    method RunFlowRules(flow: Flow, stats: LintStats) returns (unused: seq<string>, dangling: seq<string>, unreachable: seq<string>)
      modifies stats`totalInspected, stats`totalIssues, log
      ensures Enumerates(unused, if Enabled(disableMap, "unused-pages") then flow.unusedPages else {})
      ensures Enumerates(dangling, if Enabled(disableMap, "dangling-pages") then flow.danglingPages else {})
      ensures Enumerates(unreachable, if Enabled(disableMap, "unreachable-pages") then flow.unreachablePages else {})
      ensures var n := |unused| + |dangling| + |unreachable|; stats.Bumped(n, n)
      ensures log.lines == old(log.lines)
        + FlowPageDiagnostics(R012, flow.displayName, flow.resourceId, flow.data, unused)
        + FlowPageDiagnostics(R013, flow.displayName, flow.resourceId, flow.data, dangling)
        + FlowPageDiagnostics(R014, flow.displayName, flow.resourceId, flow.data, unreachable)
    {
      label C0:
      ghost var l0 := log.lines;
      ghost var name, id, data := flow.displayName, flow.resourceId, flow.data;
      unused, dangling, unreachable := [], [], [];
      if Get(disableMap, "unused-pages").GetOr(true) {
        unused := UnusedPages(flow, stats);
        EnumeratesSize(unused, flow.unusedPages);
      } else {
        AppendNil(l0);
      }
      assert stats.Bumped@C0(|unused|, |unused|);
      assert log.lines == l0 + FlowPageDiagnostics(R012, name, id, data, unused);
      label C1:
      ghost var l1 := log.lines;
      if Get(disableMap, "dangling-pages").GetOr(true) {
        dangling := DanglingPages(flow, stats);
        EnumeratesSize(dangling, flow.danglingPages);
      } else {
        AppendNil(l1);
      }
      assert stats.Bumped@C1(|dangling|, |dangling|);
      assert log.lines == l1 + FlowPageDiagnostics(R013, name, id, data, dangling);
      label C2:
      ghost var l2 := log.lines;
      if Get(disableMap, "unreachable-pages").GetOr(true) {
        unreachable := UnreachablePages(flow, stats);
        EnumeratesSize(unreachable, flow.unreachablePages);
      } else {
        AppendNil(l2);
      }
      assert stats.Bumped@C2(|unreachable|, |unreachable|);
      assert log.lines == l2 + FlowPageDiagnostics(R014, name, id, data, unreachable);
    }
  }
}
