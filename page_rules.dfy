/** The page rule of `src/rules/pages.py`: R011, a webhook without webhook error handlers. */
module PageRules {
  import opened Wrappers
  import opened Types
  import opened Logger
  import opened Common
  import opened Collections

  const R011 := "R011: Missing Webhook Event Handlers"

  /** The page calls a webhook but handles none of the webhook error events. */
  predicate MissingHandlers(hasWebhook: bool, hasWebhookEventHandler: bool) {
    hasWebhook && !hasWebhookEventHandler
  }

  /** What R011 logs for a page: the page and its flow, as a "page" resource. */
  function R011Diagnostics(fires: bool, flowName: string, flowId: Option<string>, pageName: string, pageId: Option<string>): (r: seq<Diagnostic>)
    ensures |r| == (if fires then 1 else 0)
    ensures fires ==> r[0].rule == R011 && r[0].resource.pageDisplayName == Some(pageName) && r[0].message == ""
  {
    if fires then [Diagnostic(R011, PageResource("page", flowName, flowId, pageName, pageId), "")] else []
  }

  /** A page that handles the webhook error events, or calls no webhook, is never reported. */
  lemma HandledPagesPass(flowName: string, flowId: Option<string>, pageName: string, pageId: Option<string>, hasWebhook: bool, hasHandler: bool)
    ensures R011Diagnostics(MissingHandlers(hasWebhook, hasHandler), flowName, flowId, pageName, pageId) == [] <==> (!hasWebhook || hasHandler)
  {
  }

  /** What `run_page_rules` logs for a page: R011's lines, or nothing when it is disabled. */
  function PageRuleLog(disableMap: map<string, bool>, page: Page): (r: seq<Diagnostic>)
    reads page`hasWebhook, page`hasWebhookEventHandler, page`displayName, page`resourceId
    reads page.flow`displayName, page.flow`resourceId
  {
    if Enabled(disableMap, "missing-webhook-event-handlers") then
      R011Diagnostics(MissingHandlers(page.hasWebhook, page.hasWebhookEventHandler),
                      page.flow.displayName, page.flow.resourceId, page.displayName, page.resourceId)
    else []
  }

  class PageRules {
    const disableMap: map<string, bool>
    const log: RulesLogger

    constructor (disableMap: map<string, bool>)
      ensures this.disableMap == disableMap && fresh(log) && log.lines == []
    {
      this.disableMap := disableMap;
      log := new RulesLogger();
    }

    /** `missing_webhook_event_handlers`: every page is one inspection; an issue iff it has a webhook and no handler. */
    method MissingWebhookEventHandlers(page: Page, stats: LintStats)
      modifies stats`totalInspected, stats`totalIssues, log
      ensures stats.Bumped(1, if MissingHandlers(page.hasWebhook, page.hasWebhookEventHandler) then 1 else 0)
      ensures log.lines == old(log.lines) + R011Diagnostics(MissingHandlers(page.hasWebhook, page.hasWebhookEventHandler),
                                                             page.flow.displayName, page.flow.resourceId, page.displayName, page.resourceId)
    {
      stats.Bump(1, 0);
      if page.hasWebhook && !page.hasWebhookEventHandler {
        var resource := PageResource("page", page.flow.displayName, page.flow.resourceId, page.displayName, page.resourceId);
        stats.Bump(0, 1);
        log.GenericLogger(resource, R011, "");
      }
    }

    /** `run_page_rules`: R011 unless "missing-webhook-event-handlers" is disabled. */
    method RunPageRules(page: Page, stats: LintStats)
      modifies stats`totalInspected, stats`totalIssues, log
      ensures log.lines == old(log.lines) + PageRuleLog(disableMap, page)
      ensures stats.Bumped(if Enabled(disableMap, "missing-webhook-event-handlers") then 1 else 0, |PageRuleLog(disableMap, page)|)
      ensures page.KeepsData() && page.flow.KeepsPages()
    {
      if Get(disableMap, "missing-webhook-event-handlers").GetOr(true) {
        MissingWebhookEventHandlers(page, stats);
      } else {
        AppendNil(log.lines);
      }
    }
  }
}
