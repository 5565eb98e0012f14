/**
 * The diagnostics sink of `src/cxlint/rules/logger.py`: every call of
 * `generic_logger` prints one line naming a rule and a resource. The model
 * keeps the rule title, the resource and the message; the console and the
 * deep link are rendering.
 */
module Logger {
  import opened Types

  datatype Diagnostic = Diagnostic(rule: string, resource: Resource, message: string)

  class RulesLogger {
    var lines: seq<Diagnostic>

    constructor ()
      ensures lines == []
    {
      lines := [];
    }

    /** One more line, after all earlier ones. */
    method GenericLogger(resource: Resource, rule: string, message: string)
      modifies this
      ensures lines == old(lines) + [Diagnostic(rule, resource, message)]
    {
      lines := lines + [Diagnostic(rule, resource, message)];
    }
  }
}
