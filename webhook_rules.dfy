/** The webhook rule of `src/rules/webhooks.py`: R015, a display name against the configured naming convention. */
module WebhookRules {
  import opened Wrappers
  import opened Types
  import opened Logger
  import opened Common

  const R015 := "R015: Naming Conventions"

  function WebhookResource(webhook: Webhook): (r: Resource)
    ensures r.resourceType == "webhook" && r.webhookDisplayName == Some(webhook.displayName) && r.webhookId == webhook.resourceId
  {
    NewResource("webhook").(webhookDisplayName := Some(webhook.displayName), webhookId := webhook.resourceId)
  }

  function NamingMessage(pattern: string): string {
    ": Webhook Display Name does not meet the specified Naming Convention : " + pattern
  }

  /** What R015 logs for a webhook: one line exactly when the name does not match the convention. */
  function NamingDiagnostics(webhook: Webhook, search: Search): (r: seq<Diagnostic>)
    requires Truthy(webhook.namingPattern)
    ensures |r| == (if search(webhook.namingPattern.value, webhook.displayName) then 0 else 1)
    ensures |r| == 1 ==> r[0] == Diagnostic(R015, WebhookResource(webhook), NamingMessage(webhook.namingPattern.value))
  {
    var pattern := webhook.namingPattern.value;
    if search(pattern, webhook.displayName) then [] else [Diagnostic(R015, WebhookResource(webhook), NamingMessage(pattern))]
  }

  class WebhookRules {
    const disableMap: map<string, bool>
    const log: RulesLogger

    constructor (disableMap: map<string, bool>)
      ensures this.disableMap == disableMap && fresh(log) && log.lines == []
    {
      this.disableMap := disableMap;
      log := new RulesLogger();
    }

    /**
     * `webhook_naming_conventions`: one inspection; an issue iff the pattern
     * finds no match in the display name. Without a pattern the source reads
     * an unbound `res` and fails, hence the precondition.
     */
    method WebhookNamingConventions(webhook: Webhook, stats: LintStats, search: Search)
      requires Truthy(webhook.namingPattern)
      modifies stats`totalInspected, stats`totalIssues, log
      ensures stats.Bumped(1, |NamingDiagnostics(webhook, search)|)
      ensures log.lines == old(log.lines) + NamingDiagnostics(webhook, search)
    {
      var res := search(webhook.namingPattern.value, webhook.displayName);
      stats.Bump(1, 0);
      if !res {
        var message := NamingMessage(webhook.namingPattern.value);
        stats.Bump(0, 1);
        log.GenericLogger(WebhookResource(webhook), R015, message);
      }
    }

    /** `run_webhook_rules`: R015 unless "naming-conventions" is disabled. */
    method RunWebhookRules(webhook: Webhook, stats: LintStats, search: Search)
      requires Enabled(disableMap, "naming-conventions") ==> Truthy(webhook.namingPattern)
      modifies stats`totalInspected, stats`totalIssues, log
      ensures Enabled(disableMap, "naming-conventions") ==>
        stats.Bumped(1, |NamingDiagnostics(webhook, search)|)
        && log.lines == old(log.lines) + NamingDiagnostics(webhook, search)
      ensures !Enabled(disableMap, "naming-conventions") ==> stats.Bumped(0, 0) && log.lines == old(log.lines)
    {
      if Get(disableMap, "naming-conventions").GetOr(true) {
        WebhookNamingConventions(webhook, stats, search);
      }
    }
  }
}
