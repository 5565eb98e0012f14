/**
 * The response message rules of `src/rules/response_messages.py`. Their three
 * fixed regular expressions, searched with `re.IGNORECASE`, are written out as
 * string predicates: `^` anchors at the start, `.` matches anything but a
 * newline, and `$` matches at the end or before one final newline.
 */
module ResponseMessages {
  import opened Wrappers
  import opened Text
  import opened Types
  import opened Logger
  import opened Common
  import opened Collections

  const R001 := "R001: Closed-Choice Alternative Missing Intermediate `?` (A? or B.)"
  const R002 := "R002: Wh- Question Should Use `.` Instead of `?` Punctuation"
  const R003 := "R003: Clarifying Question Should Use `?` Punctuation"

  /** The alternatives of the first group of the closed-choice pattern. */
  const ClosedChoiceWords: seq<string> := ["What", "Where", "When", "Who", "Why", "How", "Would"]
  /** The alternatives of the first group of the two wh- patterns. */
  const WhWords: seq<string> := ["what", "when", "where", "who", "why", "how"]

  // ---------------------------------------------------------------------
  // The patterns

  /** The text is one line ending with `last`, up to the final newline `$` allows. */
  predicate EndsLineWith(t: string, last: char) {
    var u := DropFinalNewline(t);
    |u| >= 1 && u[|u| - 1] == last && '\n' !in u
  }

  /** The line without its last character: what the rest of the pattern is matched against. */
  function Body(t: string): string
    requires EndsLineWith(t, '?') || EndsLineWith(t, '.')
  {
    var u := DropFinalNewline(t);
    u[..|u| - 1]
  }

  /** After the first group: a space, then any text containing " or " ignoring case. */
  predicate ClosedChoiceAfter(c: string, w: string) {
    StartsWithIgnoreCase(c, w) && |c| > |w| && c[|w|] == ' ' && ContainsIgnoreCase(c[|w| + 1..], " or ")
  }

  /** After the first group: a word boundary. */
  predicate WhAfter(c: string, w: string) {
    StartsWithIgnoreCase(c, w) && (|c| == |w| || !IsWordChar(c[|w|]))
  }

  /** `^(What|Where|When|Who|Why|How|Would) (.*) or (.*)\?$` with `re.IGNORECASE`. */
  predicate ClosedChoice(t: string) {
    EndsLineWith(t, '?') && exists w | w in ClosedChoiceWords :: ClosedChoiceAfter(Body(t), w)
  }

  /** `^(what|when|where|who|why|how)\b.*<last>$` with `re.IGNORECASE`: a wh- word ends at a word boundary. */
  predicate WhPattern(t: string, last: char)
    requires last == '?' || last == '.'
  {
    EndsLineWith(t, last) && exists w | w in WhWords :: WhAfter(Body(t), w)
  }

  /** The text `wh_questions` flags: a wh- question ending with `?`. */
  predicate WhQuestion(t: string) {
    WhPattern(t, '?')
  }

  /** The text `clarifying_questions` flags: a wh- question ending with `.`. */
  predicate ClarifyingQuestion(t: string) {
    WhPattern(t, '.')
  }

  // ---------------------------------------------------------------------
  // Properties of the patterns

  /** A line without newline, ended by `last` and perhaps one newline, has that line as its body. */
  lemma LineBody(c: string, last: char, newline: bool)
    requires '\n' !in c && (last == '?' || last == '.')
    ensures EndsLineWith(c + [last] + (if newline then "\n" else ""), last)
    ensures Body(c + [last] + (if newline then "\n" else "")) == c
  {
    var line := c + [last];
    var t := line + (if newline then "\n" else "");
    assert DropFinalNewline(t) == line by {
      if newline {
        assert t[..|t| - 1] == line;
      } else {
        assert t == line;
      }
    }
    assert '\n' !in line by {
      assert forall j | 0 <= j < |line| :: line[j] == if j < |c| then c[j] else last;
    }
    assert line[..|line| - 1] == c;
  }

  /** The rest of the closed-choice pattern matches `w + " " + a + " or " + b`. */
  lemma ClosedChoiceAfterParts(w: string, a: string, b: string)
    ensures ClosedChoiceAfter(w + " " + a + " or " + b, w)
  {
    var rest := " " + a + " or " + b;
    var c := w + rest;
    assert c == w + " " + a + " or " + b;
    StartsWithIgnoreCaseSelf(w, rest);
    assert c[|w|] == ' ';
    var tail := c[|w| + 1..];
    assert tail == a + " or " + b;
    assert tail[|a|..] == " or " + b;
    StartsWithIgnoreCaseSelf(" or ", b);
  }

  /** Any closed-choice question built from the pattern's parts is recognised. */
  lemma ClosedChoiceComplete(w: string, a: string, b: string, newline: bool)
    requires w in ClosedChoiceWords && '\n' !in a && '\n' !in b
    ensures ClosedChoice(w + " " + a + " or " + b + "?" + (if newline then "\n" else ""))
  {
    var c := w + " " + a + " or " + b;
    assert '\n' !in w by {
      assert forall v | v in ClosedChoiceWords :: '\n' !in v;
    }
    assert '\n' !in c by {
      assert forall j | 0 <= j < |c| :: c[j] in w || c[j] in a || c[j] in b || c[j] in " or ";
    }
    LineBody(c, '?', newline);
    assert c + ['?'] + (if newline then "\n" else "") == w + " " + a + " or " + b + "?" + (if newline then "\n" else "");
    ClosedChoiceAfterParts(w, a, b);
  }

  /** Any wh- question built from the pattern's parts is recognised by both end markers. */
  lemma WhPatternComplete(w: string, rest: string, last: char, newline: bool)
    requires w in WhWords && '\n' !in rest && (last == '?' || last == '.')
    requires rest == [] || !IsWordChar(rest[0])
    ensures WhPattern(w + rest + [last] + (if newline then "\n" else ""), last)
  {
    var c := w + rest;
    assert '\n' !in w by {
      assert forall v | v in WhWords :: '\n' !in v;
    }
    assert '\n' !in c by {
      assert forall j | 0 <= j < |c| :: c[j] in w || c[j] in rest;
    }
    LineBody(c, last, newline);
    StartsWithIgnoreCaseSelf(w, rest);
    assert |c| == |w| || c[|w|] == rest[0];
    assert WhAfter(c, w);
  }

  /** A wh- question and a clarifying question never describe the same text. */
  lemma WhExclusive(t: string)
    ensures !(WhQuestion(t) && ClarifyingQuestion(t))
  {
  }

  /** Because of `\b`, "Whatever…" is no wh- question and no clarifying question, whatever follows. */
  lemma WhateverIsNoWhQuestion(rest: string, last: char, newline: bool)
    requires '\n' !in rest && (last == '?' || last == '.')
    ensures !WhPattern("Whatever" + rest + [last] + (if newline then "\n" else ""), last)
  {
    var c := "Whatever" + rest;
    assert '\n' !in c by {
      assert forall j | 0 <= j < |c| :: c[j] in "Whatever" || c[j] in rest;
    }
    LineBody(c, last, newline);
    assert forall j | 0 <= j < 8 :: c[j] == "Whatever"[j];
    forall w | w in WhWords ensures !WhAfter(c, w) {
      if StartsWithIgnoreCase(c, w) {
        StartsWithIgnoreCaseChars(c, w);
        assert w == "what" || w == "when" || w == "where" || w == "who" || w == "why" || w == "how";
        assert LowerChar(c[0]) == LowerChar(w[0]) && LowerChar(c[1]) == LowerChar(w[1]) && LowerChar(c[2]) == LowerChar(w[2]);
        assert w == "what";
        assert IsWordChar(c[4]);
      }
    }
  }

  /** "Howé?" is no wh- question: 'é' is a word character, so no word boundary follows "How". */
  lemma AccentedHowIsNoWhQuestion(last: char)
    requires last == '?' || last == '.'
    ensures !WhPattern("How\U{e9}" + [last], last)
  {
    var c := "How\U{e9}";
    LineBody(c, last, false);
    assert c + [last] + "" == "How\U{e9}" + [last];
    forall w | w in WhWords ensures !WhAfter(c, w) {
      if StartsWithIgnoreCase(c, w) {
        StartsWithIgnoreCaseChars(c, w);
        assert w == "what" || w == "when" || w == "where" || w == "who" || w == "why" || w == "how";
        assert LowerChar(c[0]) == LowerChar(w[0]) && LowerChar(c[1]) == LowerChar(w[1]);
        assert w == "how";
        assert IsWordChar(c[3]);
      }
    }
  }

  /** "Would you like pickup, or delivery instead?" is a closed-choice question to the pattern, comma and all. */
  lemma PickupOrDelivery()
    ensures ClosedChoice("Would" + " " + "you like pickup," + " or " + "delivery instead" + "?")
  {
    ClosedChoiceComplete("Would", "you like pickup,", "delivery instead", false);
    assert "Would" + " " + "you like pickup," + " or " + "delivery instead" + "?" + ""
        == "Would" + " " + "you like pickup," + " or " + "delivery instead" + "?";
  }

  // ---------------------------------------------------------------------
  // The rules

  /** The resource a fulfillment diagnostic names: the fulfillment's page and flow. */
  function FulfillmentResource(route: Fulfillment): (r: Resource)
    ensures r.resourceType == "fulfillment"
    ensures r.pageDisplayName == Some(route.pageDisplayName) && r.flowDisplayName == Some(route.flowDisplayName)
  {
    PageResource(route.ResourceType(), route.flowDisplayName, route.flowId, route.pageDisplayName, route.pageId)
  }

  /** The message every response message diagnostic carries. */
  function TriggerMessage(route: Fulfillment): string {
    ": " + route.trigger
  }

  predicate IsVoice(route: Fulfillment) {
    route.agentType == Some("voice")
  }

  /** The diagnostics of one rule: one when its test holds, none otherwise. */
  function RuleDiagnostics(fires: bool, rule: string, route: Fulfillment): (r: seq<Diagnostic>)
    ensures |r| <= 1
    ensures |r| == 1 <==> fires
  {
    if fires then [Diagnostic(rule, FulfillmentResource(route), TriggerMessage(route))] else []
  }

  /** The test of each rule: its pattern and, for the wh- rules, the trigger test. */
  predicate R001Fires(route: Fulfillment) {
    ClosedChoice(route.text)
  }

  predicate R002Fires(route: Fulfillment) {
    WhQuestion(route.text) && !Contains(route.trigger, "event")
  }

  predicate R003Fires(route: Fulfillment) {
    ClarifyingQuestion(route.text) && Contains(route.trigger, "event")
  }

  /** What `run_rm_text_rules` logs for one text: each enabled rule in order, and only for a voice agent. */
  function RmDiagnostics(disableMap: map<string, bool>, route: Fulfillment): seq<Diagnostic> {
    RuleDiagnostics(IsVoice(route) && Enabled(disableMap, "closed-choice-alternative") && R001Fires(route), R001, route)
    + RuleDiagnostics(IsVoice(route) && Enabled(disableMap, "wh-questions") && R002Fires(route), R002, route)
    + RuleDiagnostics(IsVoice(route) && Enabled(disableMap, "clarifying-questions") && R003Fires(route), R003, route)
  }

  /** `RmDiagnostics` under one disable map, as the function a log of many texts is built from. */
  function RmOf(disableMap: map<string, bool>): Fulfillment -> seq<Diagnostic> {
    route => RmDiagnostics(disableMap, route)
  }

  /** At most two diagnostics per text, since the two wh- rules exclude each other. */
  lemma RmDiagnosticsAtMostTwo(disableMap: map<string, bool>, route: Fulfillment)
    ensures |RmDiagnostics(disableMap, route)| <= 2
    ensures !IsVoice(route) ==> RmDiagnostics(disableMap, route) == []
  {
    WhExclusive(route.text);
  }

  /** The trigger strings the linter builds for event and reprompt handlers all contain "event", so R002 never fires on them. */
  lemma EventTriggersSilenceR002(route: Fulfillment, e: string)
    requires route.trigger == "event : " + e
    ensures !R002Fires(route)
  {
    assert route.trigger[..5] == "event";
    assert OccursAt(route.trigger, "event", 0);
  }

  class ResponseMessageRules {
    const disableMap: map<string, bool>
    const log: RulesLogger

    constructor (disableMap: map<string, bool>)
      ensures this.disableMap == disableMap && fresh(log) && log.lines == []
    {
      this.disableMap := disableMap;
      log := new RulesLogger();
    }

    /** `closed_choice_alternative_parser`: one issue and one diagnostic iff the text is a closed-choice question. */
    method ClosedChoiceAlternativeParser(route: Fulfillment, stats: LintStats)
      modifies stats`totalInspected, stats`totalIssues, log
      ensures stats.Bumped(0, if R001Fires(route) then 1 else 0)
      ensures log.lines == old(log.lines) + RuleDiagnostics(R001Fires(route), R001, route)
    {
      if ClosedChoice(route.text) {
        stats.Bump(0, 1);
        log.GenericLogger(FulfillmentResource(route), R001, TriggerMessage(route));
      }
    }

    /** `wh_questions`: one issue iff the text is a wh- question and the trigger is no event. */
    method WhQuestions(route: Fulfillment, stats: LintStats)
      modifies stats`totalInspected, stats`totalIssues, log
      ensures stats.Bumped(0, if R002Fires(route) then 1 else 0)
      ensures log.lines == old(log.lines) + RuleDiagnostics(R002Fires(route), R002, route)
    {
      if WhQuestion(route.text) && !Contains(route.trigger, "event") {
        stats.Bump(0, 1);
        log.GenericLogger(FulfillmentResource(route), R002, TriggerMessage(route));
      }
    }

    /** `clarifying_questions`: one issue iff the text is a wh- sentence ending with '.' and the trigger is an event. */
    method ClarifyingQuestions(route: Fulfillment, stats: LintStats)
      modifies stats`totalInspected, stats`totalIssues, log
      ensures stats.Bumped(0, if R003Fires(route) then 1 else 0)
      ensures log.lines == old(log.lines) + RuleDiagnostics(R003Fires(route), R003, route)
    {
      if ClarifyingQuestion(route.text) && Contains(route.trigger, "event") {
        stats.Bump(0, 1);
        log.GenericLogger(FulfillmentResource(route), R003, TriggerMessage(route));
      }
    }

    /**
     * `run_rm_text_rules`: for a voice agent the enabled rules run in order;
     * every diagnostic is one issue, inspections are not counted here.
     */
    method RunRmTextRules(route: Fulfillment, stats: LintStats)
      modifies stats`totalInspected, stats`totalIssues, log
      ensures log.lines == old(log.lines) + RmDiagnostics(disableMap, route)
      ensures stats.Bumped(0, |RmDiagnostics(disableMap, route)|)
      ensures !IsVoice(route) ==> stats.Bumped(0, 0) && log.lines == old(log.lines)
    {
      label C0:
      ghost var l0 := log.lines;
      var voice := false;
      if route.agentType == Some("voice") {
        voice := true;
      }
      ghost var d1 := RuleDiagnostics(IsVoice(route) && Enabled(disableMap, "closed-choice-alternative") && R001Fires(route), R001, route);
      if Enabled(disableMap, "closed-choice-alternative") && voice {
        ClosedChoiceAlternativeParser(route, stats);
      } else {
        AppendNil(l0);
      }
      assert log.lines == l0 + d1 && stats.Bumped@C0(0, |d1|);
      label C1:
      ghost var l1 := log.lines;
      ghost var d2 := RuleDiagnostics(IsVoice(route) && Enabled(disableMap, "wh-questions") && R002Fires(route), R002, route);
      if Enabled(disableMap, "wh-questions") && voice {
        WhQuestions(route, stats);
      } else {
        AppendNil(l1);
      }
      assert log.lines == l1 + d2 && stats.Bumped@C1(0, |d2|);
      label C2:
      ghost var l2 := log.lines;
      ghost var d3 := RuleDiagnostics(IsVoice(route) && Enabled(disableMap, "clarifying-questions") && R003Fires(route), R003, route);
      if Enabled(disableMap, "clarifying-questions") && voice {
        ClarifyingQuestions(route, stats);
      } else {
        AppendNil(l2);
      }
      assert log.lines == l2 + d3 && stats.Bumped@C2(0, |d3|);
      AppendThree(l0, d1, d2, d3);
    }
  }
}
