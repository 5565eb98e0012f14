/**
 * The intent linter of `src/resources/intents.py`: the include/exclude
 * filter, language codes of training phrase files, naming conventions copied
 * onto each intent, and the branching of `lint_intent` over the metadata
 * file and the `trainingPhrases` directory. Directory listings and parsed
 * files are the `IntentDir` values of the export.
 */
module Intents {
  import opened Wrappers
  import opened Text
  import opened Export
  import opened Types
  import opened Logger
  import opened Common
  import opened Collections
  import opened IntentRules

  // ---------------------------------------------------------------------
  // Filters

  /**
   * `check_intent_filters`: a non-empty include string decides first, and
   * lets an intent through iff the include string occurs in its name; an
   * exclude string that occurs in the name then filters it whatever the
   * include string said. Without either, `prior` (the intent's own flag)
   * stands.
   */
  function IntentFiltered(includeFilter: string, excludeFilter: Option<string>, name: string, prior: bool): (r: bool)
    ensures Truthy(excludeFilter) && Contains(name, excludeFilter.value) ==> r
    ensures !(Truthy(excludeFilter) && Contains(name, excludeFilter.value)) && includeFilter != "" ==> (r <==> !Contains(name, includeFilter))
    ensures !(Truthy(excludeFilter) && Contains(name, excludeFilter.value)) && includeFilter == "" ==> r == prior
  {
    var afterInclude := if includeFilter != "" then !Contains(name, includeFilter) else prior;
    if Truthy(excludeFilter) && Contains(name, excludeFilter.value) then true else afterInclude
  }

  /** An intent named after its own include string is let through unless an exclude string occurs in its name. */
  lemma IncludeSelf(name: string, excludeFilter: Option<string>, prior: bool)
    requires name != ""
    ensures IntentFiltered(name, excludeFilter, name, prior) <==> Truthy(excludeFilter) && Contains(name, excludeFilter.value)
  {
    ContainsAt(name, name, 0);
  }

  // ---------------------------------------------------------------------
  // Language codes

  /** `lang_file.split(".")[0]`: a file name up to its first '.'. */
  function LangCodeOfFile(file: string): (r: string)
    ensures '.' !in r && |r| <= |file|
    ensures r == file[..IndexOf(file, '.')]
  {
    SplitPiecesFree(file, '.');
    SplitFirst(file, '.');
    Split(file, '.')[0]
  }

  /** `parse_lang_code`: the last '/' segment of a path, up to its first '.'. */
  function ParseLangCode(path: string): (r: string)
    ensures '.' !in r && '/' !in r
  {
    var pieces := Split(path, '/');
    SplitPiecesFree(path, '/');
    LangCodeOfFile(pieces[|pieces| - 1])
  }

  /** The last piece of a split is the text after the last separator. */
  lemma {:induction false} SplitLast(a: string, b: string, sep: char)
    requires sep !in b
    ensures var r := Split(a + [sep] + b, sep); r[|r| - 1] == b
    decreases |a|
  {
    var s := a + [sep] + b;
    var i := IndexOf(a, sep);
    if i == |a| {
      SplitCons(a, b, sep);
      SplitNoSep(b, sep);
    } else {
      var a' := a[i + 1..];
      assert a == a[..i] + [sep] + a';
      assert s == a[..i] + [sep] + (a' + [sep] + b);
      SplitCons(a[..i], a' + [sep] + b, sep);
      SplitLast(a', b, sep);
    }
  }

  /** The key `build_lang_code_paths` files a language under is what `parse_lang_code` reads back from its path. */
  lemma ParseLangCodeOfPath(root: string, file: string)
    requires '/' !in file
    ensures ParseLangCode(root + "/" + file) == LangCodeOfFile(file)
  {
    SplitLast(root, file, '/');
  }

  /** A language file `<code>.<ext>` anywhere gives back its code. */
  lemma ParseLangCodeRoundTrip(dir: string, code: string, ext: string)
    requires '/' !in code && '.' !in code && '/' !in ext
    ensures ParseLangCode(dir + "/" + code + "." + ext) == code
  {
    var file := code + "." + ext;
    assert dir + "/" + code + "." + ext == dir + "/" + file;
    ParseLangCodeOfPath(dir, file);
    assert IndexOf(file, '.') == |code| by {
      assert file[|code|] == '.';
      assert forall j | 0 <= j < |code| :: file[j] == code[j];
    }
    assert file[..|code|] == code;
  }

  /** The `trainingPhrases` directory of an intent directory. */
  function TpRoot(dirPath: string): string {
    dirPath + "/trainingPhrases"
  }

  /** `intent.training_phrases` after `build_lang_code_paths` filed `files`, in listing order: a later file wins its code. */
  function PathsAfter(paths: map<string, string>, root: string, files: seq<string>): map<string, string> {
    if |files| == 0 then paths
    else
      var last := files[|files| - 1];
      PathsAfter(paths, root, files[..|files| - 1])[LangCodeOfFile(last) := root + "/" + last]
  }

  /** The key order of that dictionary: a code is appended when first filed and keeps its place afterwards. */
  function OrderAfter(order: seq<string>, files: seq<string>): seq<string> {
    if |files| == 0 then order
    else
      var front := OrderAfter(order, files[..|files| - 1]);
      var code := LangCodeOfFile(files[|files| - 1]);
      if code in front then front else front + [code]
  }

  /** One entry per language code of the listing: the keys are the old ones and the codes of the files. */
  lemma {:induction false} PathsAfterKeys(paths: map<string, string>, root: string, files: seq<string>)
    ensures PathsAfter(paths, root, files).Keys == paths.Keys + set f | f in files :: LangCodeOfFile(f)
    decreases |files|
  {
    if |files| > 0 {
      var front := files[..|files| - 1];
      PathsAfterKeys(paths, root, front);
      assert files == front + [files[|files| - 1]];
      assert (set f | f in files :: LangCodeOfFile(f))
        == (set f | f in front :: LangCodeOfFile(f)) + {LangCodeOfFile(files[|files| - 1])};
    }
  }

  /** A file no later file shares a code with is where its code's entry points. */
  lemma {:induction false} PathsAfterLatest(paths: map<string, string>, root: string, files: seq<string>, i: int)
    requires 0 <= i < |files|
    requires forall j | i < j < |files| :: LangCodeOfFile(files[j]) != LangCodeOfFile(files[i])
    ensures var m := PathsAfter(paths, root, files);
      LangCodeOfFile(files[i]) in m && m[LangCodeOfFile(files[i])] == root + "/" + files[i]
    decreases |files|
  {
    if i < |files| - 1 {
      var front := files[..|files| - 1];
      assert front[i] == files[i];
      assert forall j | i < j < |front| :: front[j] == files[j];
      PathsAfterLatest(paths, root, front, i);
    }
  }

  /** The key order lists every key of the dictionary exactly once, as a Python dict keeps it. */
  lemma {:induction false} OrderAfterKeys(order: seq<string>, paths: map<string, string>, root: string, files: seq<string>)
    requires Distinct(order) && Elements(order) == paths.Keys
    ensures Distinct(OrderAfter(order, files)) && Elements(OrderAfter(order, files)) == PathsAfter(paths, root, files).Keys
    decreases |files|
  {
    if |files| > 0 {
      var front := files[..|files| - 1];
      OrderAfterKeys(order, paths, root, front);
      var o := OrderAfter(order, front);
      var code := LangCodeOfFile(files[|files| - 1]);
      if code !in o {
        ElementsAppend(o, [code]);
        assert Elements([code]) == {code};
        forall i, j | 0 <= i < j < |o + [code]| ensures (o + [code])[i] != (o + [code])[j] {
          if j == |o| {
            assert (o + [code])[i] == o[i];
            assert o[i] in Elements(o);
          } else {
            assert (o + [code])[i] == o[i] && (o + [code])[j] == o[j];
          }
        }
      } else {
        assert code in Elements(o);
      }
    }
  }

  // ---------------------------------------------------------------------
  // Naming conventions

  /** `load_naming_conventions`: each pattern is its key's value, and `None` for a missing key. */
  function NamingFrom(styles: map<string, string>): (n: Naming)
    ensures n.generic.Some? <==> "intent_generic_name" in styles
    ensures n.head.Some? <==> "intent_head_name" in styles
    ensures n.confirmation.Some? <==> "intent_confirmation_name" in styles
    ensures n.escalation.Some? <==> "intent_escalation_name" in styles
    ensures n.generic.Some? ==> n.generic.value == styles["intent_generic_name"]
    ensures n.head.Some? ==> n.head.value == styles["intent_head_name"]
    ensures n.confirmation.Some? ==> n.confirmation.value == styles["intent_confirmation_name"]
    ensures n.escalation.Some? ==> n.escalation.value == styles["intent_escalation_name"]
  {
    Naming(Get(styles, "intent_generic_name"), Get(styles, "intent_head_name"),
           Get(styles, "intent_confirmation_name"), Get(styles, "intent_escalation_name"))
  }

  // ---------------------------------------------------------------------
  // The intent directory

  /** What `lint_intent_metadata` logs: R010 when the metadata file is missing. */
  function MetadataLog(name: string, resourceId: Option<string>, metadata: Option<IntentMetadata>): (r: seq<Diagnostic>)
    ensures |r| == if metadata.None? then 1 else 0
  {
    if metadata.None? then [Diagnostic(R010, IntentResource(name, resourceId), "")] else []
  }

  class Intents {
    const verbose: bool
    const langCodeFilter: Option<seq<string>>
    const namingConventions: map<string, string>
    /** `load_include_filter`: the include setting as written; "" stands for no include filter. */
    const includeFilter: string
    const excludeFilter: Option<string>
    const rules: IntentRules

    /** The linter's settings: the disable map, the language code setting, the naming styles and the two filters. */
    constructor (verbose: bool, disableMap: map<string, bool>, langCodes: string, styles: map<string, string>,
                 includeSetting: string, excludeSetting: string)
      ensures this.verbose == verbose && langCodeFilter == LoadLangCodeFilter(langCodes) && namingConventions == styles
      ensures includeFilter == includeSetting && excludeFilter == (if excludeSetting == "" then None else Some(excludeSetting))
      ensures fresh(rules) && fresh(rules.log) && rules.disableMap == disableMap && rules.log.lines == []
    {
      this.verbose := verbose;
      langCodeFilter := LoadLangCodeFilter(langCodes);
      namingConventions := styles;
      includeFilter := includeSetting;
      excludeFilter := if excludeSetting == "" then None else Some(excludeSetting);
      rules := new IntentRules(disableMap);
    }

    /** The languages `lint_language_codes` lints: all of them without a language filter (or with an empty one), else the listed ones. */
    predicate Selected(langCode: string) {
      langCodeFilter.None? || |langCodeFilter.value| == 0 || langCode in langCodeFilter.value
    }

    /** The phrases of a language file are what the enabled rules can read: present, and with parts when R015 runs. */
    predicate LangReady(phrases: Option<seq<TrainingPhrase>>) {
      (Enabled(rules.disableMap, "naming-conventions") ==> phrases.Some? && PartsPresent(phrases.value))
      && (Enabled(rules.disableMap, "intent-min-tps") ==> phrases.Some?)
    }

    /** Every selected language has a path, a parsed file at that path, and phrases the rules can read. */
    predicate LanguagesReady(paths: map<string, string>, langs: seq<string>, tpFiles: map<string, TpFile>) {
      forall i | 0 <= i < |langs| :: Selected(langs[i]) ==>
        langs[i] in paths && paths[langs[i]] in tpFiles && LangReady(tpFiles[paths[langs[i]]].trainingPhrases)
    }

    /** What `run_training_phrase_rules` logs for one language whose phrases are `phrases`. */
    function LangLog(name: string, resourceId: Option<string>, naming: Naming, langCode: string,
                     phrases: Option<seq<TrainingPhrase>>, search: Search): seq<Diagnostic>
      requires LangReady(phrases)
    {
      (if Enabled(rules.disableMap, "naming-conventions")
       then NamingDiagnostics(name, resourceId, PatternFor(name, naming, phrases.value), search) else [])
      + (if Enabled(rules.disableMap, "intent-min-tps")
         then MinTpsDiagnostics(name, resourceId, langCode, |phrases.value|) else [])
      + (if Enabled(rules.disableMap, "extra-display-name-whitespace")
         then WhitespaceDiagnostics(name, resourceId) else [])
    }

    /** The inspections `run_training_phrase_rules` counts for one language. */
    function LangInspected(name: string, naming: Naming, phrases: Option<seq<TrainingPhrase>>): nat
      requires LangReady(phrases)
    {
      (if Enabled(rules.disableMap, "naming-conventions") && PatternFor(name, naming, phrases.value).Some? then 1 else 0)
      + (if Enabled(rules.disableMap, "intent-min-tps") then 1 else 0)
      + (if Enabled(rules.disableMap, "extra-display-name-whitespace") then 1 else 0)
    }

    /** The phrases of a selected language, as read from its file. */
    function PhrasesOf(paths: map<string, string>, langs: seq<string>, tpFiles: map<string, TpFile>, i: int): Option<seq<TrainingPhrase>>
      requires LanguagesReady(paths, langs, tpFiles) && 0 <= i < |langs| && Selected(langs[i])
    {
      tpFiles[paths[langs[i]]].trainingPhrases
    }

    /** The lines logged over the first `n` languages, in key order; unselected languages log nothing. */
    function LanguagesLog(name: string, resourceId: Option<string>, naming: Naming, paths: map<string, string>,
                          langs: seq<string>, tpFiles: map<string, TpFile>, search: Search, n: int): seq<Diagnostic>
      requires LanguagesReady(paths, langs, tpFiles) && 0 <= n <= |langs|
    {
      if n == 0 then []
      else
        LanguagesLog(name, resourceId, naming, paths, langs, tpFiles, search, n - 1)
          + if Selected(langs[n - 1]) then LangLog(name, resourceId, naming, langs[n - 1], PhrasesOf(paths, langs, tpFiles, n - 1), search) else []
    }

    /** The inspections counted over the first `n` languages. */
    function LanguagesInspected(name: string, naming: Naming, paths: map<string, string>,
                                langs: seq<string>, tpFiles: map<string, TpFile>, n: int): nat
      requires LanguagesReady(paths, langs, tpFiles) && 0 <= n <= |langs|
    {
      if n == 0 then 0
      else
        LanguagesInspected(name, naming, paths, langs, tpFiles, n - 1)
          + if Selected(langs[n - 1]) then LangInspected(name, naming, PhrasesOf(paths, langs, tpFiles, n - 1)) else 0
    }

    /** `intent.training_phrases[lang]["tps"]` after the first `n` languages: each selected one holds its file's phrases. */
    function TpsAfter(tps: map<string, Option<seq<TrainingPhrase>>>, paths: map<string, string>,
                      langs: seq<string>, tpFiles: map<string, TpFile>, n: int): map<string, Option<seq<TrainingPhrase>>>
      requires LanguagesReady(paths, langs, tpFiles) && 0 <= n <= |langs|
    {
      if n == 0 then tps
      else
        var front := TpsAfter(tps, paths, langs, tpFiles, n - 1);
        if Selected(langs[n - 1]) then front[langs[n - 1] := PhrasesOf(paths, langs, tpFiles, n - 1)] else front
    }

    /** Every selected language ends up with its file's phrases; no other entry changes. */
    lemma {:induction false} TpsAfterSelected(tps: map<string, Option<seq<TrainingPhrase>>>, paths: map<string, string>,
                                               langs: seq<string>, tpFiles: map<string, TpFile>, n: int, code: string)
      requires LanguagesReady(paths, langs, tpFiles) && 0 <= n <= |langs|
      ensures var r := TpsAfter(tps, paths, langs, tpFiles, n);
        (Selected(code) && code in langs[..n] ==> code in r && r[code] == tpFiles[paths[code]].trainingPhrases)
        && (!(Selected(code) && code in langs[..n]) ==> Get(r, code) == Get(tps, code))
      decreases n
    {
      if n > 0 {
        TpsAfterSelected(tps, paths, langs, tpFiles, n - 1, code);
        assert langs[..n] == langs[..n - 1] + [langs[n - 1]];
      }
    }

    /** What `missing_training_phrases` logs for an intent whose dictionary has key order `order` and paths `paths`. */
    function TpsMissingLog(name: string, resourceId: Option<string>, order: seq<string>, paths: map<string, string>): (r: seq<Diagnostic>)
      ensures |r| == if Enabled(rules.disableMap, "intent-missing-tps") then 1 else 0
    {
      if Enabled(rules.disableMap, "intent-missing-tps")
      then [Diagnostic(R004, IntentResource(name, resourceId), ": " + TrainingPhrasesRepr(order, paths))]
      else []
    }

    /**
     * The training phrase files of `dir` are lintable from a dictionary with
     * key order `order` and paths `paths`: once the listing is filed, every
     * selected language has a parsed file its rules can read.
     */
    predicate TrainingReady(paths: map<string, string>, order: seq<string>, dir: IntentDir) {
      dir.trainingPhrases.Some? ==>
        var files := dir.trainingPhrases.value;
        LanguagesReady(PathsAfter(paths, TpRoot(dir.dirPath), files), OrderAfter(order, files), dir.tpFiles)
    }

    /** The language paths after `lint_training_phrases` on `dir`: the listing filed when there is one. */
    function TrainingPaths(paths: map<string, string>, dir: IntentDir): map<string, string> {
      if dir.trainingPhrases.Some? then PathsAfter(paths, TpRoot(dir.dirPath), dir.trainingPhrases.value) else paths
    }

    /** The language key order after `lint_training_phrases` on `dir`. */
    function TrainingOrder(order: seq<string>, dir: IntentDir): seq<string> {
      if dir.trainingPhrases.Some? then OrderAfter(order, dir.trainingPhrases.value) else order
    }

    /** The stored phrases after `lint_training_phrases` on `dir`: every language linted in key order, or none without a listing. */
    function TrainingTps(tps: map<string, Option<seq<TrainingPhrase>>>, paths: map<string, string>, order: seq<string>, dir: IntentDir)
      : map<string, Option<seq<TrainingPhrase>>>
      requires TrainingReady(paths, order, dir)
    {
      if dir.trainingPhrases.Some?
      then TpsAfter(tps, TrainingPaths(paths, dir), TrainingOrder(order, dir), dir.tpFiles, |TrainingOrder(order, dir)|)
      else tps
    }

    /**
     * After `lint_training_phrases`, a selected language of the listing holds
     * the phrases of its file, every other entry is as it was, and without a
     * listing nothing is stored.
     */
    lemma TrainingTpsSelected(tps: map<string, Option<seq<TrainingPhrase>>>, paths: map<string, string>, order: seq<string>,
                              dir: IntentDir, code: string)
      requires TrainingReady(paths, order, dir)
      ensures var r, langs := TrainingTps(tps, paths, order, dir), TrainingOrder(order, dir);
        (dir.trainingPhrases.Some? && Selected(code) && code in langs ==>
           code in r && r[code] == dir.tpFiles[TrainingPaths(paths, dir)[code]].trainingPhrases)
        && (!(dir.trainingPhrases.Some? && Selected(code) && code in langs) ==> Get(r, code) == Get(tps, code))
    {
      if dir.trainingPhrases.Some? {
        var langs := TrainingOrder(order, dir);
        TpsAfterSelected(tps, TrainingPaths(paths, dir), langs, dir.tpFiles, |langs|, code);
        assert langs[..|langs|] == langs;
      }
    }

    /** An intent directory `lint_intent` can lint: an `/intents/` path, and readable training phrases. */
    predicate IntentDirReady(dir: IntentDir) {
      ParseFilepath(dir.dirPath, IntentPath).Some? && TrainingReady(map[], [], dir)
    }

    /** What `lint_training_phrases` logs: the per-language rules when the directory exists, R004 otherwise. */
    function TrainingLog(name: string, resourceId: Option<string>, naming: Naming, paths: map<string, string>, order: seq<string>,
                         dir: IntentDir, search: Search): seq<Diagnostic>
      requires TrainingReady(paths, order, dir)
    {
      if dir.trainingPhrases.Some? then
        var files := dir.trainingPhrases.value;
        var paths', order' := PathsAfter(paths, TpRoot(dir.dirPath), files), OrderAfter(order, files);
        LanguagesLog(name, resourceId, naming, paths', order', dir.tpFiles, search, |order'|)
      else TpsMissingLog(name, resourceId, order, paths)
    }

    /** The inspections `lint_training_phrases` counts. */
    function TrainingInspected(name: string, naming: Naming, paths: map<string, string>, order: seq<string>, dir: IntentDir): nat
      requires TrainingReady(paths, order, dir)
    {
      if dir.trainingPhrases.Some? then
        var files := dir.trainingPhrases.value;
        var paths', order' := PathsAfter(paths, TpRoot(dir.dirPath), files), OrderAfter(order, files);
        LanguagesInspected(name, naming, paths', order', dir.tpFiles, |order'|)
      else |TpsMissingLog(name, None, order, paths)|
    }

    /** The intent directories `lint_intents_directory` counts: those the filters let through. */
    function LintedIntents(dirs: seq<IntentDir>): (n: nat)
      requires forall i | 0 <= i < |dirs| :: IntentDirReady(dirs[i])
      ensures n <= |dirs|
    {
      if |dirs| == 0 then 0
      else
        var last := dirs[|dirs| - 1];
        assert IntentDirReady(last);
        LintedIntents(dirs[..|dirs| - 1])
          + if IntentFiltered(includeFilter, excludeFilter, ParseFilepath(last.dirPath, IntentPath).value, false) then 0 else 1
    }

    /** The display name `lint_intent` gives the intent of `dir`. */
    function DirIntentName(dir: IntentDir): string
      requires IntentDirReady(dir)
    {
      ParseFilepath(dir.dirPath, IntentPath).value
    }

    /** The filters skip the new intent of `dir`. */
    predicate DirFiltered(dir: IntentDir)
      requires IntentDirReady(dir)
    {
      IntentFiltered(includeFilter, excludeFilter, DirIntentName(dir), false)
    }

    /** The id a new intent holds once its metadata is loaded. */
    function DirIntentId(dir: IntentDir): Option<string> {
      if dir.metadata.Some? then dir.metadata.value.name else None
    }

    /** What linting the directory `dir` as a new intent logs: nothing when filtered, else R010, then the training phrase rules. */
    function IntentLog(dir: IntentDir, search: Search): seq<Diagnostic>
      requires IntentDirReady(dir)
    {
      if DirFiltered(dir) then []
      else
        var name := DirIntentName(dir);
        MetadataLog(name, None, dir.metadata) + TrainingLog(name, DirIntentId(dir), NamingFrom(namingConventions), map[], [], dir, search)
    }

    /** The inspections linting the directory `dir` as a new intent counts. */
    function IntentInspected(dir: IntentDir): nat
      requires IntentDirReady(dir)
    {
      if DirFiltered(dir) then 0
      else
        var name := DirIntentName(dir);
        |MetadataLog(name, None, dir.metadata)| + TrainingInspected(name, NamingFrom(namingConventions), map[], [], dir)
    }

    /** The lines of a run of intent directories, in order. */
    function LintedIntentLog(dirs: seq<IntentDir>, search: Search): seq<Diagnostic>
      requires forall i | 0 <= i < |dirs| :: IntentDirReady(dirs[i])
    {
      if |dirs| == 0 then []
      else
        var last := dirs[|dirs| - 1];
        assert IntentDirReady(last);
        LintedIntentLog(dirs[..|dirs| - 1], search) + IntentLog(last, search)
    }

    /** The inspections of a run of intent directories. */
    function LintedInspected(dirs: seq<IntentDir>): nat
      requires forall i | 0 <= i < |dirs| :: IntentDirReady(dirs[i])
    {
      if |dirs| == 0 then 0
      else
        var last := dirs[|dirs| - 1];
        assert IntentDirReady(last);
        LintedInspected(dirs[..|dirs| - 1]) + IntentInspected(last)
    }

    /** An intent directory without metadata logs R010 first, whatever its training phrases. */
    lemma MissingMetadataFirst(dir: IntentDir, search: Search)
      requires IntentDirReady(dir) && !DirFiltered(dir) && dir.metadata.None?
      ensures |IntentLog(dir, search)| >= 1 && IntentLog(dir, search)[0] == Diagnostic(R010, IntentResource(DirIntentName(dir), None), "")
    {
    }

    /** One more intent directory adds its own lines and inspections. */
    lemma LintedIntentStep(dirs: seq<IntentDir>, search: Search, i: int)
      requires forall i | 0 <= i < |dirs| :: IntentDirReady(dirs[i])
      requires 0 <= i < |dirs|
      ensures LintedIntents(dirs[..i + 1]) == LintedIntents(dirs[..i]) + if DirFiltered(dirs[i]) then 0 else 1
      ensures LintedIntentLog(dirs[..i + 1], search) == LintedIntentLog(dirs[..i], search) + IntentLog(dirs[i], search)
      ensures LintedInspected(dirs[..i + 1]) == LintedInspected(dirs[..i]) + IntentInspected(dirs[i])
    {
      assert dirs[..i + 1][..i] == dirs[..i];
    }

    /** `load_naming_conventions`: the intent's four patterns from the naming styles. */
    static method LoadNamingConventions(intent: Intent, styles: map<string, string>)
      modifies intent`namingPatternGeneric, intent`namingPatternHead, intent`namingPatternConfirmation, intent`namingPatternEscalation
      ensures NamingOf(intent) == NamingFrom(styles)
    {
      intent.namingPatternGeneric := Get(styles, "intent_generic_name");
      intent.namingPatternHead := Get(styles, "intent_head_name");
      intent.namingPatternConfirmation := Get(styles, "intent_confirmation_name");
      intent.namingPatternEscalation := Get(styles, "intent_escalation_name");
    }

    /** `build_lang_code_paths`: one entry per file of the listing, under its language code. */
    static method BuildLangCodePaths(intent: Intent, langFiles: seq<string>)
      modifies intent`trainingPhrases, intent`langOrder
      ensures intent.trainingPhrases == PathsAfter(old(intent.trainingPhrases), TpRoot(intent.dirPath), langFiles)
      ensures intent.langOrder == OrderAfter(old(intent.langOrder), langFiles)
    {
      var root := TpRoot(intent.dirPath);
      ghost var p0, o0 := intent.trainingPhrases, intent.langOrder;
      for i := 0 to |langFiles|
        invariant intent.trainingPhrases == PathsAfter(p0, root, langFiles[..i])
        invariant intent.langOrder == OrderAfter(o0, langFiles[..i])
      {
        assert langFiles[..i + 1][..i] == langFiles[..i];
        var langCode := LangCodeOfFile(langFiles[i]);
        if langCode !in intent.langOrder {
          intent.langOrder := intent.langOrder + [langCode];
        }
        intent.trainingPhrases := intent.trainingPhrases[langCode := root + "/" + langFiles[i]];
      }
      assert langFiles[..|langFiles|] == langFiles;
    }

    /** `check_intent_filters`. */
    method CheckIntentFilters(intent: Intent)
      modifies intent`filtered
      ensures intent.filtered == IntentFiltered(includeFilter, excludeFilter, intent.displayName, old(intent.filtered))
    {
      if includeFilter != "" {
        if Contains(intent.displayName, includeFilter) {
          intent.filtered := false;
        } else {
          intent.filtered := true;
        }
      }
      if Truthy(excludeFilter) {
        if Contains(intent.displayName, excludeFilter.value) {
          intent.filtered := true;
        }
      }
    }

    /**
     * `lint_intent_metadata`: a metadata file gives the intent its id,
     * labels and description; a missing one is R010, and linting goes on.
     */
    method LintIntentMetadata(intent: Intent, metadata: Option<IntentMetadata>, stats: LintStats)
      modifies intent`resourceId, intent`labels, intent`description, stats`totalInspected, stats`totalIssues, rules.log
      ensures metadata.Some? ==>
        intent.resourceId == metadata.value.name && intent.labels == metadata.value.labels && intent.description == metadata.value.description
      ensures metadata.None? ==>
        intent.resourceId == old(intent.resourceId) && intent.labels == old(intent.labels) && intent.description == old(intent.description)
      ensures rules.log.lines == old(rules.log.lines) + MetadataLog(intent.displayName, old(intent.resourceId), metadata)
      ensures var n := |MetadataLog(intent.displayName, old(intent.resourceId), metadata)|; stats.Bumped(n, n)
    {
      if metadata.Some? {
        intent.resourceId := metadata.value.name;
        intent.labels := metadata.value.labels;
        intent.description := metadata.value.description;
        AppendNil(rules.log.lines);
      } else {
        rules.IntentMissingMetadata(intent, stats);
      }
    }

    /** The body of the loop of `lint_language_codes` for a language that passes the filter. */
    method LintLanguage(intent: Intent, langCode: string, phrases: Option<seq<TrainingPhrase>>, stats: LintStats, search: Search)
      requires LangReady(phrases)
      modifies intent`tps, stats`totalInspected, stats`totalIssues, rules.log
      ensures intent.tps == old(intent.tps)[langCode := phrases]
      ensures rules.log.lines == old(rules.log.lines) + LangLog(intent.displayName, intent.resourceId, NamingOf(intent), langCode, phrases, search)
      ensures stats.Bumped(LangInspected(intent.displayName, NamingOf(intent), phrases), |rules.log.lines| - |old(rules.log.lines)|)
    {
      intent.tps := intent.tps[langCode := phrases];
      ghost var l0 := rules.log.lines;
      rules.RunTrainingPhraseRules(intent, langCode, stats, search);
      ghost var name, id := intent.displayName, intent.resourceId;
      AppendThree(l0,
        if Enabled(rules.disableMap, "naming-conventions")
        then NamingDiagnostics(name, id, PatternFor(name, NamingOf(intent), phrases.value), search) else [],
        if Enabled(rules.disableMap, "intent-min-tps") then MinTpsDiagnostics(name, id, langCode, |phrases.value|) else [],
        if Enabled(rules.disableMap, "extra-display-name-whitespace") then WhitespaceDiagnostics(name, id) else []);
    }

    /** One iteration of `lint_language_codes`: the `i`th language is linted iff it passes the language filter. */
    method LintLanguageAt(intent: Intent, tpFiles: map<string, TpFile>, i: int, stats: LintStats, search: Search)
      requires LanguagesReady(intent.trainingPhrases, intent.langOrder, tpFiles) && 0 <= i < |intent.langOrder|
      modifies intent`tps, stats`totalInspected, stats`totalIssues, rules.log
      ensures var langs, paths := intent.langOrder, intent.trainingPhrases;
        intent.tps == if Selected(langs[i]) then old(intent.tps)[langs[i] := PhrasesOf(paths, langs, tpFiles, i)] else old(intent.tps)
      ensures var langs, paths := intent.langOrder, intent.trainingPhrases;
        rules.log.lines == old(rules.log.lines)
          + if Selected(langs[i]) then LangLog(intent.displayName, intent.resourceId, NamingOf(intent), langs[i], PhrasesOf(paths, langs, tpFiles, i), search) else []
      ensures var langs, paths := intent.langOrder, intent.trainingPhrases;
        stats.Bumped(if Selected(langs[i]) then LangInspected(intent.displayName, NamingOf(intent), PhrasesOf(paths, langs, tpFiles, i)) else 0,
                     |rules.log.lines| - |old(rules.log.lines)|)
    {
      var langCode := intent.langOrder[i];
      var file := GetFileBasedOnLangCodeFilter(intent.trainingPhrases, langCode, langCodeFilter);
      if file.Some? {
        var phrases := tpFiles[file.value].trainingPhrases;
        LintLanguage(intent, langCode, phrases, stats, search);
      } else {
        AppendNil(rules.log.lines);
      }
    }

    /**
     * `lint_language_codes`: for each language in key order that passes the
     * language filter, its file's phrases are stored on the intent and the
     * training phrase rules run on them.
     */
    method LintLanguageCodes(intent: Intent, tpFiles: map<string, TpFile>, stats: LintStats, search: Search)
      requires LanguagesReady(intent.trainingPhrases, intent.langOrder, tpFiles)
      modifies intent`tps, stats`totalInspected, stats`totalIssues, rules.log
      ensures intent.tps == TpsAfter(old(intent.tps), intent.trainingPhrases, intent.langOrder, tpFiles, |intent.langOrder|)
      ensures rules.log.lines == old(rules.log.lines)
        + LanguagesLog(intent.displayName, intent.resourceId, NamingOf(intent), intent.trainingPhrases, intent.langOrder, tpFiles, search, |intent.langOrder|)
      ensures stats.Bumped(LanguagesInspected(intent.displayName, NamingOf(intent), intent.trainingPhrases, intent.langOrder, tpFiles, |intent.langOrder|),
                           |rules.log.lines| - |old(rules.log.lines)|)
    {
      var langs, paths := intent.langOrder, intent.trainingPhrases;
      ghost var name, id, naming := intent.displayName, intent.resourceId, NamingOf(intent);
      ghost var t0, l0, i0, k0 := intent.tps, rules.log.lines, stats.totalInspected, stats.totalIssues - |rules.log.lines|;
      for i := 0 to |langs|
        invariant intent.tps == TpsAfter(t0, paths, langs, tpFiles, i)
        invariant rules.log.lines == l0 + LanguagesLog(name, id, naming, paths, langs, tpFiles, search, i)
        invariant stats.totalInspected == i0 + LanguagesInspected(name, naming, paths, langs, tpFiles, i)
        invariant stats.totalIssues - |rules.log.lines| == k0
      {
        ghost var front := LanguagesLog(name, id, naming, paths, langs, tpFiles, search, i);
        ghost var step := if Selected(langs[i]) then LangLog(name, id, naming, langs[i], PhrasesOf(paths, langs, tpFiles, i), search) else [];
        LintLanguageAt(intent, tpFiles, i, stats, search);
        AppendAssoc(l0, front, step);
        assert LanguagesLog(name, id, naming, paths, langs, tpFiles, search, i + 1) == front + step;
      }
    }

    /**
     * `lint_training_phrases`: with a `trainingPhrases` directory, its
     * listing is filed and every language linted; without one, R004.
     */
    method LintTrainingPhrases(intent: Intent, dir: IntentDir, stats: LintStats, search: Search)
      requires intent.dirPath == dir.dirPath && TrainingReady(intent.trainingPhrases, intent.langOrder, dir)
      modifies intent`trainingPhrases, intent`langOrder, intent`tps, stats`totalInspected, stats`totalIssues, rules.log
      ensures dir.trainingPhrases.Some? ==>
        intent.trainingPhrases == PathsAfter(old(intent.trainingPhrases), TpRoot(dir.dirPath), dir.trainingPhrases.value)
        && intent.langOrder == OrderAfter(old(intent.langOrder), dir.trainingPhrases.value)
      ensures dir.trainingPhrases.None? ==> intent.trainingPhrases == old(intent.trainingPhrases) && intent.langOrder == old(intent.langOrder)
      ensures intent.tps == TrainingTps(old(intent.tps), old(intent.trainingPhrases), old(intent.langOrder), dir)
      ensures rules.log.lines == old(rules.log.lines)
        + TrainingLog(intent.displayName, intent.resourceId, NamingOf(intent), old(intent.trainingPhrases), old(intent.langOrder), dir, search)
      ensures stats.Bumped(TrainingInspected(intent.displayName, NamingOf(intent), old(intent.trainingPhrases), old(intent.langOrder), dir),
                           |rules.log.lines| - |old(rules.log.lines)|)
    {
      if dir.trainingPhrases.Some? {
        BuildLangCodePaths(intent, dir.trainingPhrases.value);
        LintLanguageCodes(intent, dir.tpFiles, stats, search);
      } else {
        rules.MissingTrainingPhrases(intent, stats);
      }
    }

    /** Lines 191-193 of `lint_intent`: the intent is counted, then its metadata and training phrases are linted. */
    method LintUnfilteredIntent(intent: Intent, dir: IntentDir, stats: LintStats, search: Search)
      requires intent.dirPath == dir.dirPath && TrainingReady(intent.trainingPhrases, intent.langOrder, dir)
      modifies intent`resourceId, intent`labels, intent`description, intent`trainingPhrases, intent`langOrder, intent`tps
      modifies stats`totalIntents, stats`totalInspected, stats`totalIssues, rules.log
      ensures stats.totalIntents == old(stats.totalIntents) + 1
      ensures rules.log.lines == old(rules.log.lines) + MetadataLog(intent.displayName, old(intent.resourceId), dir.metadata)
        + TrainingLog(intent.displayName, intent.resourceId, NamingOf(intent), old(intent.trainingPhrases), old(intent.langOrder), dir, search)
      ensures stats.totalInspected == old(stats.totalInspected) + |MetadataLog(intent.displayName, old(intent.resourceId), dir.metadata)|
                             + TrainingInspected(intent.displayName, NamingOf(intent), old(intent.trainingPhrases), old(intent.langOrder), dir)
      ensures stats.totalIssues == old(stats.totalIssues) + |rules.log.lines| - |old(rules.log.lines)|
      ensures intent.resourceId == if dir.metadata.Some? then dir.metadata.value.name else old(intent.resourceId)
      ensures intent.labels == if dir.metadata.Some? then dir.metadata.value.labels else old(intent.labels)
      ensures intent.description == if dir.metadata.Some? then dir.metadata.value.description else old(intent.description)
      ensures intent.trainingPhrases == TrainingPaths(old(intent.trainingPhrases), dir)
      ensures intent.langOrder == TrainingOrder(old(intent.langOrder), dir)
      ensures intent.tps == TrainingTps(old(intent.tps), old(intent.trainingPhrases), old(intent.langOrder), dir)
    {
      stats.AddIntent();
      LintIntentMetadata(intent, dir.metadata, stats);
      LintTrainingPhrases(intent, dir, stats, search);
    }

    /**
     * `lint_intent`: the intent is named after its directory (not cleaned),
     * the filters decide whether it is linted, and a filtered intent changes
     * no counter and logs nothing.
     */
    method LintIntent(intent: Intent, dir: IntentDir, stats: LintStats, search: Search)
      requires intent.dirPath == dir.dirPath && ParseFilepath(dir.dirPath, IntentPath).Some?
      requires TrainingReady(intent.trainingPhrases, intent.langOrder, dir)
      modifies intent`displayName, intent`filtered, intent`resourceId, intent`labels, intent`description
      modifies intent`trainingPhrases, intent`langOrder, intent`tps, stats`totalIntents, stats`totalInspected, stats`totalIssues, rules.log
      ensures intent.displayName == ParseFilepath(dir.dirPath, IntentPath).value
      ensures intent.filtered == IntentFiltered(includeFilter, excludeFilter, intent.displayName, old(intent.filtered))
      ensures intent.filtered ==> unchanged(stats) && rules.log.lines == old(rules.log.lines)
      ensures !intent.filtered ==> stats.totalIntents == old(stats.totalIntents) + 1
      ensures !intent.filtered ==>
        rules.log.lines == old(rules.log.lines) + MetadataLog(intent.displayName, old(intent.resourceId), dir.metadata)
          + TrainingLog(intent.displayName, intent.resourceId, NamingOf(intent), old(intent.trainingPhrases), old(intent.langOrder), dir, search)
      ensures !intent.filtered ==>
        stats.totalInspected == old(stats.totalInspected) + |MetadataLog(intent.displayName, old(intent.resourceId), dir.metadata)|
          + TrainingInspected(intent.displayName, NamingOf(intent), old(intent.trainingPhrases), old(intent.langOrder), dir)
      ensures stats.totalIssues == old(stats.totalIssues) + |rules.log.lines| - |old(rules.log.lines)|
      ensures intent.resourceId == if dir.metadata.Some? && !intent.filtered then dir.metadata.value.name else old(intent.resourceId)
      ensures NamingOf(intent) == old(NamingOf(intent))
      ensures IntentStored(intent, dir)
    {
      intent.displayName := ParseFilepath(dir.dirPath, IntentPath).value;
      CheckIntentFilters(intent);
      if !intent.filtered {
        LintUnfilteredIntent(intent, dir, stats, search);
      }
    }

    /**
     * The fields `lint_intent` leaves on `intent` for the directory `dir`:
     * unchanged for a filtered intent; otherwise labels and description from
     * the metadata file, and paths, key order and stored phrases from the listing.
     */
    twostate predicate IntentStored(intent: Intent, dir: IntentDir)
      requires old(TrainingReady(intent.trainingPhrases, intent.langOrder, dir))
      reads intent
    {
      && intent.labels == (if dir.metadata.Some? && !intent.filtered then dir.metadata.value.labels else old(intent.labels))
      && intent.description == (if dir.metadata.Some? && !intent.filtered then dir.metadata.value.description else old(intent.description))
      && intent.trainingPhrases == (if intent.filtered then old(intent.trainingPhrases) else TrainingPaths(old(intent.trainingPhrases), dir))
      && intent.langOrder == (if intent.filtered then old(intent.langOrder) else TrainingOrder(old(intent.langOrder), dir))
      && intent.tps == (if intent.filtered then old(intent.tps) else TrainingTps(old(intent.tps), old(intent.trainingPhrases), old(intent.langOrder), dir))
    }

    /** One iteration of `lint_intents_directory`: a new intent for the directory, with the naming conventions, linted. */
    method LintIntentDir(dir: IntentDir, stats: LintStats, search: Search)
      requires IntentDirReady(dir)
      modifies stats`totalIntents, stats`totalInspected, stats`totalIssues, rules.log
      ensures stats.totalIntents == old(stats.totalIntents) + if DirFiltered(dir) then 0 else 1
      ensures rules.log.lines == old(rules.log.lines) + IntentLog(dir, search)
      ensures stats.totalInspected == old(stats.totalInspected) + IntentInspected(dir)
      ensures stats.totalIssues == old(stats.totalIssues) + |IntentLog(dir, search)|
    {
      var intent := new Intent(dir.dirPath);
      LoadNamingConventions(intent, namingConventions);
      assert intent.resourceId == None && intent.trainingPhrases == map[] && intent.langOrder == [] && !intent.filtered;
      LintIntent(intent, dir, stats, search);
      assert intent.displayName == DirIntentName(dir) && intent.filtered == DirFiltered(dir);
    }

    /**
     * `lint_intents_directory`: every intent directory is linted as a new
     * intent; `total_intents` counts those the filters let through, and the
     * rating is computed from the final counters.
     */
    method LintIntentsDirectory(dirs: seq<IntentDir>, search: Search) returns (stats: LintStats, rating: real)
      requires forall i | 0 <= i < |dirs| :: IntentDirReady(dirs[i])
      modifies rules.log
      ensures fresh(stats) && stats.totalIntents == LintedIntents(dirs)
      ensures rules.log.lines == old(rules.log.lines) + LintedIntentLog(dirs, search)
      ensures stats.totalInspected == LintedInspected(dirs) && stats.totalIssues == |LintedIntentLog(dirs, search)|
      ensures rating == CalculateRating(stats.totalIssues, stats.totalInspected)
    {
      stats := new LintStats();
      ghost var l0 := rules.log.lines;
      for i := 0 to |dirs|
        invariant fresh(stats)
        invariant stats.totalIntents == LintedIntents(dirs[..i])
        invariant rules.log.lines == l0 + LintedIntentLog(dirs[..i], search)
        invariant stats.totalInspected == LintedInspected(dirs[..i])
        invariant stats.totalIssues == |LintedIntentLog(dirs[..i], search)|
      {
        ghost var front := LintedIntentLog(dirs[..i], search);
        LintIntentDir(dirs[i], stats, search);
        LintedIntentStep(dirs, search, i);
        AppendAssoc(l0, front, IntentLog(dirs[i], search));
      }
      assert dirs[..|dirs|] == dirs;
      rating := CalculateRating(stats.totalIssues, stats.totalInspected);
    }
  }
}
