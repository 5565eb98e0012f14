/**
 * The entity type rules of `src/rules/entity_types.py`: R009, entities or
 * synonyms that are plain "yes" or "no"; R015, the naming convention; R016,
 * extra whitespace in the display name.
 */
module EntityTypeRules {
  import opened Wrappers
  import opened Text
  import opened Export
  import opened Types
  import opened Logger
  import opened Common
  import opened Collections

  const R009 := "R009: Yes/No Entities Present in Agent"
  const R015 := "R015: Naming Conventions"
  const R016 := "R016: Extra Whitespace in Display Name"

  // ---------------------------------------------------------------------
  // The yes/no pattern

  /** `re.search(r"^(?:yes|no)$", s, flags=re.IGNORECASE)`: the whole text, up to one final newline, is "yes" or "no". */
  predicate IsYesNo(s: string) {
    var u := DropFinalNewline(s);
    (|u| == 3 && LowerChar(u[0]) == 'y' && LowerChar(u[1]) == 'e' && LowerChar(u[2]) == 's')
    || (|u| == 2 && LowerChar(u[0]) == 'n' && LowerChar(u[1]) == 'o')
  }

  /** Reference reading of the pattern: after `lower()` the text is one of four strings. */
  lemma IsYesNoLower(s: string)
    ensures IsYesNo(s) <==> Lower(s) in {"yes", "no", "yes\n", "no\n"}
  {
    var l := Lower(s);
    assert l == "yes" <==> |s| == 3 && l[0] == 'y' && l[1] == 'e' && l[2] == 's';
    assert l == "no" <==> |s| == 2 && l[0] == 'n' && l[1] == 'o';
    assert l == "yes\n" <==> |s| == 4 && l[0] == 'y' && l[1] == 'e' && l[2] == 's' && l[3] == '\n';
    assert l == "no\n" <==> |s| == 3 && l[0] == 'n' && l[1] == 'o' && l[2] == '\n';
    if |s| > 0 {
      assert l[|s| - 1] == '\n' <==> s[|s| - 1] == '\n';
    }
  }

  /** What `entity_regex_matching` answers: a string is matched, a list is searched, anything else is not flagged. */
  predicate YesNoMatch(data: EntityData) {
    match data
    case EStr(s) => IsYesNo(s)
    case EList(items) => exists i | 0 <= i < |items| :: IsYesNo(items[i])
    case EOther => false
  }

  /** A one-element synonym list is flagged exactly when its element is. */
  lemma YesNoMatchSingleton(s: string)
    ensures YesNoMatch(EList([s])) <==> YesNoMatch(EStr(s))
  {
    if IsYesNo(s) {
      assert IsYesNo([s][0]);
    }
  }

  // ---------------------------------------------------------------------
  // What the rules log

  function EntityTypeResource(etype: EntityType): (r: Resource)
    ensures r.resourceType == "entity_type" && r.entityTypeDisplayName == Some(etype.displayName) && r.entityTypeId == etype.resourceId
  {
    NewResource("entity_type").(entityTypeDisplayName := Some(etype.displayName), entityTypeId := etype.resourceId)
  }

  /** Python's `str()` of an entity value or synonym list: a list shows the `repr` of each element, as `['a', "b'c"]`. */
  function Render(data: EntityData): string {
    match data
    case EStr(s) => s
    case EList(items) => "[" + Join(seq(|items|, i requires 0 <= i < |items| => Repr(items[i])), ", ") + "]"
    case EOther => ""
  }

  function EntityMessage(langCode: string, value: EntityData): string {
    ": " + langCode + " : Entity : " + Render(value)
  }

  function SynonymsMessage(langCode: string, synonyms: EntityData): string {
    ": " + langCode + " : Synonyms : " + Render(synonyms)
  }

  /** The R009 line for a flagged entity value. */
  function ValueDiagnostics(etype: EntityType, langCode: string, e: Entity): (r: seq<Diagnostic>)
    ensures |r| == (if YesNoMatch(e.value) then 1 else 0)
  {
    if YesNoMatch(e.value) then [Diagnostic(R009, EntityTypeResource(etype), EntityMessage(langCode, e.value))] else []
  }

  /** The R009 line for a flagged synonym list. */
  function SynonymDiagnostics(etype: EntityType, langCode: string, e: Entity): (r: seq<Diagnostic>)
    ensures |r| == (if YesNoMatch(e.synonyms) then 1 else 0)
  {
    if YesNoMatch(e.synonyms) then [Diagnostic(R009, EntityTypeResource(etype), SynonymsMessage(langCode, e.synonyms))] else []
  }

  /** One R009 line for a flagged value, then one for a flagged synonym list. */
  function EntityDiagnostics(etype: EntityType, langCode: string, e: Entity): (r: seq<Diagnostic>)
    ensures |r| == (if YesNoMatch(e.value) then 1 else 0) + (if YesNoMatch(e.synonyms) then 1 else 0)
  {
    ValueDiagnostics(etype, langCode, e) + SynonymDiagnostics(etype, langCode, e)
  }

  /** What `yes_no_entities` logs for the entities of one language, in order. */
  function YesNoDiagnostics(etype: EntityType, langCode: string, entities: seq<Entity>): (r: seq<Diagnostic>)
    ensures |r| <= 2 * |entities|
  {
    if |entities| == 0 then []
    else YesNoDiagnostics(etype, langCode, entities[..|entities| - 1]) + EntityDiagnostics(etype, langCode, entities[|entities| - 1])
  }

  lemma YesNoDiagnosticsStep(etype: EntityType, langCode: string, entities: seq<Entity>, i: int)
    requires 0 <= i < |entities|
    ensures YesNoDiagnostics(etype, langCode, entities[..i + 1])
      == YesNoDiagnostics(etype, langCode, entities[..i]) + EntityDiagnostics(etype, langCode, entities[i])
  {
    assert entities[..i + 1][..i] == entities[..i];
  }

  /** R009 stays silent exactly when no value and no synonym list of the language is flagged. */
  lemma {:induction false} YesNoDiagnosticsEmptyIff(etype: EntityType, langCode: string, entities: seq<Entity>)
    ensures YesNoDiagnostics(etype, langCode, entities) == [] <==>
      forall i | 0 <= i < |entities| :: !YesNoMatch(entities[i].value) && !YesNoMatch(entities[i].synonyms)
    decreases |entities|
  {
    if |entities| > 0 {
      var front := entities[..|entities| - 1];
      YesNoDiagnosticsEmptyIff(etype, langCode, front);
      assert forall i | 0 <= i < |front| :: front[i] == entities[i];
    }
  }

  /** What R015 logs: one line exactly when the name does not match the convention. */
  function NamingDiagnostics(etype: EntityType, search: Search): (r: seq<Diagnostic>)
    requires Truthy(etype.namingPattern)
    ensures |r| == (if search(etype.namingPattern.value, etype.displayName) then 0 else 1)
    ensures |r| == 1 ==> r[0].rule == R015 && r[0].resource == EntityTypeResource(etype)
  {
    var pattern := etype.namingPattern.value;
    if search(pattern, etype.displayName) then []
    else [Diagnostic(R015, EntityTypeResource(etype),
                     ": Entity Type Display Name does not meet the specified Convention : " + pattern)]
  }

  /** What R016 logs: one line exactly when the display name has extra whitespace. */
  function WhitespaceDiagnostics(etype: EntityType): (r: seq<Diagnostic>)
    ensures |r| == (if ExtraWhitespace(etype.displayName) then 1 else 0)
    ensures |r| == 1 ==> r[0] == Diagnostic(R016, EntityTypeResource(etype), "")
  {
    if ExtraWhitespace(etype.displayName) then [Diagnostic(R016, EntityTypeResource(etype), "")] else []
  }

  class EntityTypeRules {
    const disableMap: map<string, bool>
    const log: RulesLogger

    constructor (disableMap: map<string, bool>)
      ensures this.disableMap == disableMap && fresh(log) && log.lines == []
    {
      this.disableMap := disableMap;
      log := new RulesLogger();
    }

    /** `entity_regex_matching`: the list is searched until the first flagged element. */
    static method EntityRegexMatching(data: EntityData) returns (issueFound: bool)
      ensures issueFound == YesNoMatch(data)
    {
      issueFound := false;
      match data {
        case EStr(s) =>
          if IsYesNo(s) {
            issueFound := true;
          }
        case EList(items) =>
          var n := |items|;
          var i := 0;
          while i != n
            invariant 0 <= i <= n
            invariant !issueFound && forall j | 0 <= j < i :: !IsYesNo(items[j])
            decreases n - i
          {
            if IsYesNo(items[i]) {
              issueFound := true;
              break;
            }
            i := i + 1;
          }
        case EOther =>
      }
    }

    /** `_yes_no_entity_check`: one inspection; an issue and a line iff the value is flagged. */
    method YesNoEntityCheck(etype: EntityType, entity: Entity, langCode: string, stats: LintStats)
      modifies stats`totalInspected, stats`totalIssues, log
      ensures stats.Bumped(1, |ValueDiagnostics(etype, langCode, entity)|)
      ensures log.lines == old(log.lines) + ValueDiagnostics(etype, langCode, entity)
    {
      stats.Bump(1, 0);
      var issueFound := EntityRegexMatching(entity.value);
      if issueFound {
        stats.Bump(0, 1);
        log.GenericLogger(EntityTypeResource(etype), R009, EntityMessage(langCode, entity.value));
      }
    }

    /** `_yes_no_synonym_check`: one inspection; an issue and a line iff the synonym list is flagged. */
    method YesNoSynonymCheck(etype: EntityType, entity: Entity, langCode: string, stats: LintStats)
      modifies stats`totalInspected, stats`totalIssues, log
      ensures stats.Bumped(1, |SynonymDiagnostics(etype, langCode, entity)|)
      ensures log.lines == old(log.lines) + SynonymDiagnostics(etype, langCode, entity)
    {
      stats.Bump(1, 0);
      var issueFound := EntityRegexMatching(entity.synonyms);
      if issueFound {
        stats.Bump(0, 1);
        log.GenericLogger(EntityTypeResource(etype), R009, SynonymsMessage(langCode, entity.synonyms));
      }
    }

    /**
     * `entity_type_naming_convention`: one inspection; an issue iff the
     * pattern finds no match. Without a pattern the source reads an unbound
     * `res` and fails, hence the precondition.
     */
    method EntityTypeNamingConvention(etype: EntityType, stats: LintStats, search: Search)
      requires Truthy(etype.namingPattern)
      modifies stats`totalInspected, stats`totalIssues, log
      ensures stats.Bumped(1, |NamingDiagnostics(etype, search)|)
      ensures log.lines == old(log.lines) + NamingDiagnostics(etype, search)
    {
      var res := search(etype.namingPattern.value, etype.displayName);
      stats.Bump(1, 0);
      if !res {
        var message := ": Entity Type Display Name does not meet the specified Convention : " + etype.namingPattern.value;
        stats.Bump(0, 1);
        log.GenericLogger(EntityTypeResource(etype), R015, message);
      }
    }

    /** `entity_display_name_extra_whitespaces`: one inspection; an issue iff the name has extra whitespace. */
    method EntityDisplayNameExtraWhitespaces(etype: EntityType, stats: LintStats)
      modifies stats`totalInspected, stats`totalIssues, log
      ensures stats.Bumped(1, |WhitespaceDiagnostics(etype)|)
      ensures log.lines == old(log.lines) + WhitespaceDiagnostics(etype)
    {
      stats.Bump(1, 0);
      var name := etype.displayName;
      var res := (|name| > 0 && name[0] == ' ') || (|name| > 0 && name[|name| - 1] == ' ') || HasDoubleSpace(name);
      if res {
        stats.Bump(0, 1);
        log.GenericLogger(EntityTypeResource(etype), R016, "");
      }
    }

    /**
     * `yes_no_entities`: every entity of the language is two inspections (its
     * value, then its synonyms). The lookup of the language raises `KeyError`
     * for a missing one, hence the precondition.
     */
    method YesNoEntities(etype: EntityType, langCode: string, stats: LintStats)
      requires langCode in etype.entities
      modifies stats`totalInspected, stats`totalIssues, log
      ensures var r := YesNoDiagnostics(etype, langCode, etype.entities[langCode]);
              stats.Bumped(2 * |etype.entities[langCode]|, |r|)
              && log.lines == old(log.lines) + r
    {
      var entities := etype.entities[langCode];
      ghost var l0 := log.lines;
      AppendNil(l0);
      for i := 0 to |entities|
        invariant log.lines == l0 + YesNoDiagnostics(etype, langCode, entities[..i])
        invariant stats.Bumped(2 * i, |log.lines| - |l0|)
      {
        ghost var front := YesNoDiagnostics(etype, langCode, entities[..i]);
        YesNoEntityCheck(etype, entities[i], langCode, stats);
        YesNoSynonymCheck(etype, entities[i], langCode, stats);
        YesNoDiagnosticsStep(etype, langCode, entities, i);
        AppendAssoc(l0, front, ValueDiagnostics(etype, langCode, entities[i]));
        AppendAssoc(l0 + front, ValueDiagnostics(etype, langCode, entities[i]), SynonymDiagnostics(etype, langCode, entities[i]));
        AppendAssoc(l0, front, EntityDiagnostics(etype, langCode, entities[i]));
      }
      assert entities[..|entities|] == entities;
    }

    /** `run_entity_type_rules`: R015, R009 and R016 in order, each unless disabled. */
    method RunEntityTypeRules(etype: EntityType, langCode: string, stats: LintStats, search: Search)
      requires Enabled(disableMap, "naming-conventions") ==> Truthy(etype.namingPattern)
      requires Enabled(disableMap, "yes-no-entities") ==> langCode in etype.entities
      modifies stats`totalInspected, stats`totalIssues, log
      ensures log.lines == old(log.lines)
        + (if Enabled(disableMap, "naming-conventions") then NamingDiagnostics(etype, search) else [])
        + (if Enabled(disableMap, "yes-no-entities") then YesNoDiagnostics(etype, langCode, etype.entities[langCode]) else [])
        + (if Enabled(disableMap, "extra-display-name-whitespace") then WhitespaceDiagnostics(etype) else [])
      ensures stats.Bumped(
        (if Enabled(disableMap, "naming-conventions") then 1 else 0)
          + (if Enabled(disableMap, "yes-no-entities") then 2 * |etype.entities[langCode]| else 0)
          + (if Enabled(disableMap, "extra-display-name-whitespace") then 1 else 0),
        |log.lines| - |old(log.lines)|)
    {
      ghost var l0, k0 := log.lines, stats.totalIssues - |log.lines|;
      var naming := Get(disableMap, "naming-conventions").GetOr(true);
      var yesNo := Get(disableMap, "yes-no-entities").GetOr(true);
      var whitespace := Get(disableMap, "extra-display-name-whitespace").GetOr(true);
      assert naming == Enabled(disableMap, "naming-conventions") && yesNo == Enabled(disableMap, "yes-no-entities");
      assert whitespace == Enabled(disableMap, "extra-display-name-whitespace");
      ghost var d1 := if naming then NamingDiagnostics(etype, search) else [];
      ghost var d2 := if yesNo then YesNoDiagnostics(etype, langCode, etype.entities[langCode]) else [];
      ghost var d3 := if whitespace then WhitespaceDiagnostics(etype) else [];
      ghost var n1, n2, n3 := if naming then 1 else 0, if yesNo then 2 * |etype.entities[langCode]| else 0, if whitespace then 1 else 0;
      ghost var i0 := stats.totalInspected;
      if naming {
        EntityTypeNamingConvention(etype, stats, search);
      } else {
        AppendNil(l0);
      }
      assert log.lines == l0 + d1 && stats.totalInspected == i0 + n1 && stats.totalIssues - |log.lines| == k0;
      ghost var l1, i1 := log.lines, stats.totalInspected;
      if yesNo {
        YesNoEntities(etype, langCode, stats);
      } else {
        AppendNil(l1);
      }
      assert log.lines == l1 + d2 && stats.totalInspected == i1 + n2 && stats.totalIssues - |log.lines| == k0;
      ghost var l2, i2 := log.lines, stats.totalInspected;
      if whitespace {
        EntityDisplayNameExtraWhitespaces(etype, stats);
      } else {
        AppendNil(l2);
      }
      assert log.lines == l2 + d3 && stats.totalInspected == i2 + n3 && stats.totalIssues - |log.lines| == k0;
      AppendAssoc(l0, d1, d2);
    }
  }
}
