/**
 * The intent rules of `src/cxlint/rules/intents.py`: the head, confirmation
 * and escalation classifiers, the flattening of training phrases, R015 naming
 * conventions with their priority order, R005 minimum training phrases, R016
 * extra whitespace, and R010 / R004 for a missing metadata file or a missing
 * training phrase directory.
 */
module IntentRules {
  import opened Wrappers
  import opened Text
  import opened Export
  import opened Types
  import opened Logger
  import opened Common
  import opened Collections

  const R004 := "R004: Intent is Missing Training Phrases."
  const R005Head := "R005: Head Intent Does Not Have Minimum Training Phrases."
  const R005 := "R005: Intent Does Not Have Minimum Training Phrases."
  const R010 := "R010: Missing Metadata file for Intent"
  const R015 := "R015: Naming Conventions"
  const R016 := "R016: Extra Whitespace in Display Name"

  /** The recommended minimum number of training phrases of a head intent and of any other intent. */
  const HeadMinimum := 50
  const Minimum := 20

  // ---------------------------------------------------------------------
  // Classifiers

  /** `check_if_head_intent`: an intent is a head intent when "head" occurs in its display name. */
  predicate IsHeadIntent(displayName: string) {
    Contains(displayName, "head")
  }

  /** The set of the flattened phrases of an intent (`set(tps)`); a phrase without text is `None`. */
  function PhraseSet(tps: seq<Option<string>>): set<Option<string>> {
    set t | t in tps
  }

  /** `check_if_confirmation_intent`: {"yes", "no"} meets the set of phrases. */
  predicate CheckIfConfirmationIntent(tps: seq<Option<string>>) {
    {Some("yes"), Some("no")} * PhraseSet(tps) != {}
  }

  /** `check_if_escalation_intent`: {"escalate", "operator"} meets the set of phrases. */
  predicate CheckIfEscalationIntent(tps: seq<Option<string>>) {
    {Some("escalate"), Some("operator")} * PhraseSet(tps) != {}
  }

  /** A set of phrase texts meets the set of phrases iff one of them is exactly a phrase. */
  lemma MeetsIff(words: set<Option<string>>, tps: seq<Option<string>>)
    ensures words * PhraseSet(tps) != {} <==> exists w | w in words :: w in tps
  {
    if words * PhraseSet(tps) != {} {
      var w :| w in words * PhraseSet(tps);
      assert w in tps;
    }
    if exists w | w in words :: w in tps {
      var w :| w in words && w in tps;
      assert w in words * PhraseSet(tps);
    }
  }

  /** An intent is a confirmation intent iff "yes" or "no" is exactly one of its phrases. */
  lemma ConfirmationIff(tps: seq<Option<string>>)
    ensures CheckIfConfirmationIntent(tps) <==> Some("yes") in tps || Some("no") in tps
  {
    MeetsIff({Some("yes"), Some("no")}, tps);
  }

  /** An intent is an escalation intent iff "escalate" or "operator" is exactly one of its phrases. */
  lemma EscalationIff(tps: seq<Option<string>>)
    ensures CheckIfEscalationIntent(tps) <==> Some("escalate") in tps || Some("operator") in tps
  {
    MeetsIff({Some("escalate"), Some("operator")}, tps);
  }

  // ---------------------------------------------------------------------
  // Flattening training phrases

  /** The concatenation of the parts' texts, a part without text contributing "". */
  function ConcatTexts(parts: seq<Part>): string {
    if |parts| == 0 then "" else ConcatTexts(parts[..|parts| - 1]) + parts[|parts| - 1].text.GetOr("")
  }

  /** Concatenation distributes over splitting the parts anywhere. */
  lemma {:induction false} ConcatTextsAppend(a: seq<Part>, b: seq<Part>)
    ensures ConcatTexts(a + b) == ConcatTexts(a) + ConcatTexts(b)
    decreases |b|
  {
    if |b| == 0 {
      assert a + b == a;
    } else {
      var b' := b[..|b| - 1];
      assert (a + b)[..|a + b| - 1] == a + b';
      assert (a + b)[|a + b| - 1] == b[|b| - 1];
      ConcatTextsAppend(a, b');
    }
  }

  /** What `flatten_training_phrase_parts` returns: several parts concatenated, a single part's text as it is. */
  function Flattened(parts: seq<Part>): Option<string>
    requires |parts| >= 1
  {
    if |parts| > 1 then Some(ConcatTexts(parts)) else parts[0].text
  }

  /** Two phrases spliced together flatten to the concatenation of their flattenings, when both have text. */
  lemma FlattenedSplice(a: seq<Part>, b: seq<Part>)
    requires |a| >= 1 && |b| >= 1
    requires Flattened(a).Some? && Flattened(b).Some?
    ensures Flattened(a + b) == Some(Flattened(a).value + Flattened(b).value)
  {
    ConcatTextsAppend(a, b);
    if |a| == 1 {
      assert a == [] + [a[0]];
      assert ConcatTexts(a) == a[0].text.value;
    }
    if |b| == 1 {
      assert b == [] + [b[0]];
      assert ConcatTexts(b) == b[0].text.value;
    }
  }

  /** Every training phrase has a non-empty `parts` list; otherwise the source fails on `len(None)` or `parts[0]`. */
  predicate PartsPresent(phrases: seq<TrainingPhrase>) {
    forall i | 0 <= i < |phrases| :: phrases[i].parts.Some? && |phrases[i].parts.value| >= 1
  }

  /** The training phrases of `langCode` were read and every one has parts. */
  predicate PhrasesReady(tps: map<string, Option<seq<TrainingPhrase>>>, langCode: string) {
    langCode in tps && tps[langCode].Some? && PartsPresent(tps[langCode].value)
  }

  /** The flattened phrases of a language, as `gather_training_phrases` collects them. */
  function FlatPhrases(phrases: seq<TrainingPhrase>): seq<Option<string>>
    requires PartsPresent(phrases)
  {
    seq(|phrases|, i requires 0 <= i < |phrases| => Flattened(phrases[i].parts.value))
  }

  // ---------------------------------------------------------------------
  // Naming conventions

  /**
   * The pattern `intent_naming_convention` checks: the first configured one
   * among head, confirmation, escalation and generic whose category applies.
   */
  function ChosenPattern(head: bool, confirm: bool, escalate: bool,
                         headPattern: Option<string>, confirmationPattern: Option<string>,
                         escalationPattern: Option<string>, genericPattern: Option<string>): Option<string>
  {
    if head && Truthy(headPattern) then headPattern
    else if confirm && Truthy(confirmationPattern) then confirmationPattern
    else if escalate && Truthy(escalationPattern) then escalationPattern
    else if Truthy(genericPattern) then genericPattern
    else None
  }

  /**
   * At most one pattern is checked, and it is a non-empty one: a pattern is
   * chosen iff some category applies with its pattern configured, and a
   * lower-priority pattern is chosen only when no higher category applies.
   */
  lemma ChosenPatternPriority(head: bool, confirm: bool, escalate: bool,
                              hp: Option<string>, cp: Option<string>, ep: Option<string>, gp: Option<string>)
    ensures var r := ChosenPattern(head, confirm, escalate, hp, cp, ep, gp);
      (r.Some? ==> Truthy(r))
      && (r.Some? <==> (head && Truthy(hp)) || (confirm && Truthy(cp)) || (escalate && Truthy(ep)) || Truthy(gp))
      && (head && Truthy(hp) ==> r == hp)
      && (r == gp && gp != hp && gp != cp && gp != ep ==> !(head && Truthy(hp)) && !(confirm && Truthy(cp)) && !(escalate && Truthy(ep)))
  {
  }

  /** The four naming patterns an intent carries. */
  datatype Naming = Naming(generic: Option<string>, head: Option<string>, confirmation: Option<string>, escalation: Option<string>)

  function NamingOf(intent: Intent): Naming
    reads intent`namingPatternGeneric, intent`namingPatternHead, intent`namingPatternConfirmation, intent`namingPatternEscalation
  {
    Naming(intent.namingPatternGeneric, intent.namingPatternHead, intent.namingPatternConfirmation, intent.namingPatternEscalation)
  }

  /** The pattern R015 checks for an intent named `name` whose phrases in one language are `phrases`. */
  function PatternFor(name: string, naming: Naming, phrases: seq<TrainingPhrase>): Option<string>
    requires PartsPresent(phrases)
  {
    var tps := FlatPhrases(phrases);
    ChosenPattern(IsHeadIntent(name), CheckIfConfirmationIntent(tps), CheckIfEscalationIntent(tps),
                  naming.head, naming.confirmation, naming.escalation, naming.generic)
  }

  /** The pattern chosen for an intent and one of its languages. */
  function IntentPattern(intent: Intent, langCode: string): Option<string>
    reads intent`displayName, intent`tps
    reads intent`namingPatternGeneric, intent`namingPatternHead, intent`namingPatternConfirmation, intent`namingPatternEscalation
    requires PhrasesReady(intent.tps, langCode)
  {
    PatternFor(intent.displayName, NamingOf(intent), intent.tps[langCode].value)
  }

  function IntentResource(displayName: string, resourceId: Option<string>): (r: Resource)
    ensures r.resourceType == "intent" && r.intentDisplayName == Some(displayName) && r.intentId == resourceId
  {
    NewResource("intent").(intentDisplayName := Some(displayName), intentId := resourceId)
  }

  function NamingMessage(pattern: string): string {
    ": Intent Display Name does not meet the specified Convention : " + pattern
  }

  /** What R015 logs for an intent: one line iff a pattern was chosen and finds no match in the name. */
  function NamingDiagnostics(displayName: string, resourceId: Option<string>, chosen: Option<string>, search: Search): (r: seq<Diagnostic>)
    ensures |r| == (if chosen.Some? && !search(chosen.value, displayName) then 1 else 0)
    ensures |r| == 1 ==> r[0] == Diagnostic(R015, IntentResource(displayName, resourceId), NamingMessage(chosen.value))
  {
    if chosen.Some? && !search(chosen.value, displayName) then
      [Diagnostic(R015, IntentResource(displayName, resourceId), NamingMessage(chosen.value))]
    else []
  }

  // ---------------------------------------------------------------------
  // Minimum training phrases, whitespace, missing files

  /** Whether R005 fires: fewer than 50 phrases for a head intent, fewer than 20 for any other. */
  function MinTpsDiagnostics(displayName: string, resourceId: Option<string>, langCode: string, n: nat): seq<Diagnostic>
  {
    var resource := IntentResource(displayName, resourceId);
    if IsHeadIntent(displayName) && n < 50 then
      [Diagnostic(R005Head, resource, ": " + langCode + " : (" + NatToString(n) + " / 50)")]
    else if n < 20 then
      [Diagnostic(R005, resource, ": " + langCode + " : (" + NatToString(n) + " / 20)")]
    else []
  }

  /**
   * R005 logs at most one line, and one exactly when a head intent has fewer
   * than 50 phrases or another intent fewer than 20; the head variant of the
   * rule is used exactly for head intents.
   */
  lemma MinTpsFires(displayName: string, resourceId: Option<string>, langCode: string, n: nat)
    ensures var r := MinTpsDiagnostics(displayName, resourceId, langCode, n);
      |r| <= 1
      && (|r| == 1 <==> (IsHeadIntent(displayName) && n < HeadMinimum) || (!IsHeadIntent(displayName) && n < Minimum))
      && (|r| == 1 ==> r[0].resource == IntentResource(displayName, resourceId) && (r[0].rule == R005Head <==> IsHeadIntent(displayName)))
  {
  }

  /** More phrases never make R005 fire where fewer did not. */
  lemma MinTpsMonotone(displayName: string, resourceId: Option<string>, langCode: string, m: nat, n: nat)
    requires m <= n
    ensures |MinTpsDiagnostics(displayName, resourceId, langCode, n)| <= |MinTpsDiagnostics(displayName, resourceId, langCode, m)|
  {
  }

  function WhitespaceDiagnostics(displayName: string, resourceId: Option<string>): (r: seq<Diagnostic>)
    ensures |r| == (if ExtraWhitespace(displayName) then 1 else 0)
    ensures |r| == 1 ==> r[0] == Diagnostic(R016, IntentResource(displayName, resourceId), "")
  {
    if ExtraWhitespace(displayName) then [Diagnostic(R016, IntentResource(displayName, resourceId), "")] else []
  }

  /** Python's `str()` of the intent's `training_phrases` dict, in key order. */
  function TrainingPhrasesRepr(langOrder: seq<string>, paths: map<string, string>): string {
    "{" + Join(seq(|langOrder|, i requires 0 <= i < |langOrder| =>
                 Repr(langOrder[i]) + ": {'file_path': " + Repr(Get(paths, langOrder[i]).GetOr("")) + "}"), ", ") + "}"
  }

  class IntentRules {
    const disableMap: map<string, bool>
    const log: RulesLogger

    constructor (disableMap: map<string, bool>)
      ensures this.disableMap == disableMap && fresh(log) && log.lines == []
    {
      this.disableMap := disableMap;
      log := new RulesLogger();
    }

    /** `flatten_training_phrase_parts`; `parts[0]` fails on an empty list, hence the precondition. */
    static method FlattenTrainingPhraseParts(parts: seq<Part>) returns (utterance: Option<string>)
      requires |parts| >= 1
      ensures utterance == Flattened(parts)
    {
      if |parts| > 1 {
        var text := "";
        for i := 0 to |parts|
          invariant text == ConcatTexts(parts[..i])
        {
          assert parts[..i + 1][..i] == parts[..i];
          text := text + parts[i].text.GetOr("");
        }
        assert parts[..|parts|] == parts;
        utterance := Some(text);
      } else {
        utterance := parts[0].text;
      }
    }

    /** `gather_training_phrases`: one flattened phrase per training phrase of the language, in order. */
    method GatherTrainingPhrases(intent: Intent, langCode: string) returns (flat: seq<Option<string>>)
      requires PhrasesReady(intent.tps, langCode)
      ensures flat == FlatPhrases(intent.tps[langCode].value)
    {
      var phrases := intent.tps[langCode].value;
      flat := [];
      for i := 0 to |phrases|
        invariant |flat| == i && forall j | 0 <= j < i :: flat[j] == Flattened(phrases[j].parts.value)
      {
        var utterance := FlattenTrainingPhraseParts(phrases[i].parts.value);
        flat := flat + [utterance];
      }
      assert flat == FlatPhrases(phrases);
    }

    /** `check_and_log_naming`: an issue and a line iff the search found no match. */
    method CheckAndLogNaming(intent: Intent, stats: LintStats, res: bool, pattern: string)
      modifies stats`totalInspected, stats`totalIssues, log
      ensures stats.Bumped(0, if res then 0 else 1)
      ensures log.lines == old(log.lines)
        + (if res then [] else [Diagnostic(R015, IntentResource(intent.displayName, intent.resourceId), NamingMessage(pattern))])
    {
      if !res {
        stats.Bump(0, 1);
        log.GenericLogger(IntentResource(intent.displayName, intent.resourceId), R015, NamingMessage(pattern));
      }
    }

    /**
     * `intent_naming_convention`: the chosen pattern, if any, is one
     * inspection, and an issue when it finds no match.
     */
    method IntentNamingConvention(intent: Intent, langCode: string, stats: LintStats, search: Search)
      requires PhrasesReady(intent.tps, langCode)
      modifies stats`totalInspected, stats`totalIssues, log
      ensures log.lines == old(log.lines) + NamingDiagnostics(intent.displayName, intent.resourceId, IntentPattern(intent, langCode), search)
      ensures stats.Bumped(if IntentPattern(intent, langCode).Some? then 1 else 0, |log.lines| - |old(log.lines)|)
    {
      var hid := IsHeadIntent(intent.displayName);
      var tps := GatherTrainingPhrases(intent, langCode);
      var confirm := CheckIfConfirmationIntent(tps);
      var escalate := CheckIfEscalationIntent(tps);
      // The if/elif chain over head, confirmation, escalation and generic patterns.
      var chosen := ChosenPattern(hid, confirm, escalate, intent.namingPatternHead, intent.namingPatternConfirmation,
                                  intent.namingPatternEscalation, intent.namingPatternGeneric);
      assert chosen == IntentPattern(intent, langCode);
      LogNaming(intent, stats, chosen, search);
    }

    /** Lines 137-167 of `intent_naming_convention`: the chosen pattern, if any, is searched for in the display name. */
    method LogNaming(intent: Intent, stats: LintStats, chosen: Option<string>, search: Search)
      modifies stats`totalInspected, stats`totalIssues, log
      ensures log.lines == old(log.lines) + NamingDiagnostics(intent.displayName, intent.resourceId, chosen, search)
      ensures stats.Bumped(if chosen.Some? then 1 else 0, |log.lines| - |old(log.lines)|)
    {
      ghost var l0 := log.lines;
      if chosen.Some? {
        var pattern := chosen.value;
        var res := search(pattern, intent.displayName);
        stats.Bump(1, 0);
        CheckAndLogNaming(intent, stats, res, pattern);
      } else {
        AppendNil(l0);
      }
    }

    /** `intent_missing_metadata`: one inspection, one issue and one line. */
    method IntentMissingMetadata(intent: Intent, stats: LintStats)
      modifies stats`totalInspected, stats`totalIssues, log
      ensures stats.Bumped(1, 1)
      ensures log.lines == old(log.lines) + [Diagnostic(R010, IntentResource(intent.displayName, intent.resourceId), "")]
    {
      stats.Bump(1, 1);
      log.GenericLogger(IntentResource(intent.displayName, intent.resourceId), R010, "");
    }

    /** `missing_training_phrases`: one inspection, one issue and one line, unless "intent-missing-tps" is disabled. */
    method MissingTrainingPhrases(intent: Intent, stats: LintStats)
      modifies stats`totalInspected, stats`totalIssues, log
      ensures Enabled(disableMap, "intent-missing-tps") ==>
        stats.Bumped(1, 1)
        && log.lines == old(log.lines) + [Diagnostic(R004, IntentResource(intent.displayName, intent.resourceId),
                                                     ": " + TrainingPhrasesRepr(intent.langOrder, intent.trainingPhrases))]
      ensures !Enabled(disableMap, "intent-missing-tps") ==> stats.Bumped(0, 0) && log.lines == old(log.lines)
    {
      if Get(disableMap, "intent-missing-tps").GetOr(true) {
        var message := ": " + TrainingPhrasesRepr(intent.langOrder, intent.trainingPhrases);
        stats.Bump(1, 1);
        log.GenericLogger(IntentResource(intent.displayName, intent.resourceId), R004, message);
      }
    }

    /** `min_tps_head_intent`: one inspection; R005 as `MinTpsDiagnostics` says. `len(None)` fails, hence the precondition. */
    method MinTpsHeadIntent(intent: Intent, langCode: string, stats: LintStats)
      requires langCode in intent.tps && intent.tps[langCode].Some?
      modifies stats`totalInspected, stats`totalIssues, log
      ensures var r := MinTpsDiagnostics(intent.displayName, intent.resourceId, langCode, |intent.tps[langCode].value|);
        stats.Bumped(1, |r|) && log.lines == old(log.lines) + r
    {
      var n := |intent.tps[langCode].value|;
      stats.Bump(1, 0);
      var hid := IsHeadIntent(intent.displayName);
      var resource := IntentResource(intent.displayName, intent.resourceId);
      if hid && n < 50 {
        stats.Bump(0, 1);
        log.GenericLogger(resource, R005Head, ": " + langCode + " : (" + NatToString(n) + " / 50)");
      } else if n < 20 {
        stats.Bump(0, 1);
        log.GenericLogger(resource, R005, ": " + langCode + " : (" + NatToString(n) + " / 20)");
      }
    }

    /** `intent_display_name_extra_whitespaces`: one inspection; an issue iff the name has extra whitespace. */
    method IntentDisplayNameExtraWhitespaces(intent: Intent, stats: LintStats)
      modifies stats`totalInspected, stats`totalIssues, log
      ensures var r := WhitespaceDiagnostics(intent.displayName, intent.resourceId);
        stats.Bumped(1, |r|) && log.lines == old(log.lines) + r
    {
      stats.Bump(1, 0);
      var name := intent.displayName;
      var res := (|name| > 0 && name[0] == ' ') || (|name| > 0 && name[|name| - 1] == ' ') || HasDoubleSpace(name);
      if res {
        stats.Bump(0, 1);
        log.GenericLogger(IntentResource(intent.displayName, intent.resourceId), R016, "");
      }
    }
  
    /**
     * `run_training_phrase_rules`: R015, R005 and R016 in order, each unless
     * disabled; every logged line is one issue.
     */
    method RunTrainingPhraseRules(intent: Intent, langCode: string, stats: LintStats, search: Search)
      requires Enabled(disableMap, "naming-conventions") ==> PhrasesReady(intent.tps, langCode)
      requires Enabled(disableMap, "intent-min-tps") ==> langCode in intent.tps && intent.tps[langCode].Some?
      modifies stats`totalInspected, stats`totalIssues, log
      ensures log.lines == old(log.lines)
        + (if Enabled(disableMap, "naming-conventions")
           then NamingDiagnostics(intent.displayName, intent.resourceId, IntentPattern(intent, langCode), search) else [])
        + (if Enabled(disableMap, "intent-min-tps")
           then MinTpsDiagnostics(intent.displayName, intent.resourceId, langCode, |intent.tps[langCode].value|) else [])
        + (if Enabled(disableMap, "extra-display-name-whitespace")
           then WhitespaceDiagnostics(intent.displayName, intent.resourceId) else [])
      ensures stats.Bumped(
        (if Enabled(disableMap, "naming-conventions") && IntentPattern(intent, langCode).Some? then 1 else 0)
          + (if Enabled(disableMap, "intent-min-tps") then 1 else 0)
          + (if Enabled(disableMap, "extra-display-name-whitespace") then 1 else 0),
        |log.lines| - |old(log.lines)|)
    {
      ghost var l0, k0 := log.lines, stats.totalIssues - |log.lines|;
      var naming := Get(disableMap, "naming-conventions").GetOr(true);
      var minTps := Get(disableMap, "intent-min-tps").GetOr(true);
      var whitespace := Get(disableMap, "extra-display-name-whitespace").GetOr(true);
      assert naming == Enabled(disableMap, "naming-conventions") && minTps == Enabled(disableMap, "intent-min-tps");
      assert whitespace == Enabled(disableMap, "extra-display-name-whitespace");
      ghost var d1 := if naming then NamingDiagnostics(intent.displayName, intent.resourceId, IntentPattern(intent, langCode), search) else [];
      ghost var d2 := if minTps then MinTpsDiagnostics(intent.displayName, intent.resourceId, langCode, |intent.tps[langCode].value|) else [];
      ghost var d3 := if whitespace then WhitespaceDiagnostics(intent.displayName, intent.resourceId) else [];
      ghost var n1 := if naming && IntentPattern(intent, langCode).Some? then 1 else 0;
      ghost var n2, n3 := if minTps then 1 else 0, if whitespace then 1 else 0;
      ghost var i0, f0, p0 := stats.totalInspected, stats.totalFlows, stats.totalPages;
      if naming {
        IntentNamingConvention(intent, langCode, stats, search);
      } else {
        AppendNil(l0);
      }
      assert log.lines == l0 + d1 && stats.totalInspected == i0 + n1 && stats.totalIssues - |log.lines| == k0;
      assert stats.totalFlows == f0 && stats.totalPages == p0;
      ghost var l1, i1 := log.lines, stats.totalInspected;
      if minTps {
        MinTpsHeadIntent(intent, langCode, stats);
      } else {
        AppendNil(l1);
      }
      assert log.lines == l1 + d2 && stats.totalInspected == i1 + n2 && stats.totalIssues - |log.lines| == k0;
      assert stats.totalFlows == f0 && stats.totalPages == p0;
      ghost var l2, i2 := log.lines, stats.totalInspected;
      if whitespace {
        IntentDisplayNameExtraWhitespaces(intent, stats);
      } else {
        AppendNil(l2);
      }
      assert log.lines == l2 + d3 && stats.totalInspected == i2 + n3 && stats.totalIssues - |log.lines| == k0;
      assert stats.totalFlows == f0 && stats.totalPages == p0;
      AppendAssoc(l0, d1, d2);
    }
  }
}
