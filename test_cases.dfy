/**
 * The test case linter of `src/resources/test_cases.py`: the tag filter, the
 * intent/utterance pairs of a test case's conversation turns, the training
 * phrases of each expected intent (lowercased), qualification by tags and
 * display name, and the counting of `lint_test_case`. The intents of the
 * agent are a map from intent directory name to the parsed files of its
 * `trainingPhrases` directory (`None` when it has none); a name missing from
 * the map is a directory that does not exist.
 */
module TestCases {
  import opened Wrappers
  import opened Text
  import opened Export
  import opened Types
  import opened Common
  import opened Collections
  import opened IntentRules
  import opened TestCaseRules
  import opened Logger

  // ---------------------------------------------------------------------
  // Tag filter

  /** The tags of the `include` setting: newlines dropped, split at ','. */
  function TagList(setting: string): seq<string> {
    Split(StripNewlines(setting), ',')
  }

  /** A tag as the filter keeps it: unchanged when it starts with '#', otherwise with '#' in front. */
  function Hashed(tag: string): (r: string)
    ensures |r| > 0 && r[0] == '#'
    ensures r == tag || r == "#" + tag
  {
    if |tag| > 0 && tag[0] == '#' then tag else "#" + tag
  }

  /** `load_tag_filter`: `None` for an empty setting, otherwise every tag with its '#'. */
  function TagFilter(setting: string): Option<seq<string>> {
    var tags := TagList(setting);
    if |tags| == 1 && tags[0] == "" then None
    else Some(seq(|tags|, i requires 0 <= i < |tags| => Hashed(tags[i])))
  }

  /** A setting `load_tag_filter` can read: empty, or without empty tags (`tag[0]` fails on one). */
  predicate TagsLoadable(setting: string) {
    var tags := TagList(setting);
    (|tags| == 1 && tags[0] == "") || forall i | 0 <= i < |tags| :: tags[i] != ""
  }

  /**
   * There is no tag filter exactly when the setting is empty once newlines
   * are dropped; otherwise the filter has one tag per listed tag, each
   * starting with '#', and a tag already marked is kept as written.
   */
  lemma TagFilterSpec(setting: string)
    ensures TagFilter(setting).None? <==> StripNewlines(setting) == ""
    ensures TagFilter(setting).Some? ==>
      var tags, r := TagList(setting), TagFilter(setting).value;
      |r| == |tags| && forall i | 0 <= i < |r| :: r[i][0] == '#' && (|tags[i]| > 0 && tags[i][0] == '#' ==> r[i] == tags[i])
  {
    var s := StripNewlines(setting);
    if s == "" {
      assert Split(s, ',') == [""];
    } else if IndexOf(s, ',') == |s| {
      assert Split(s, ',') == [s];
    }
  }

  /** Loading a filter whose tags are all marked gives them back unchanged. */
  lemma TagFilterMarked(setting: string)
    requires StripNewlines(setting) != ""
    requires forall i | 0 <= i < |TagList(setting)| :: |TagList(setting)[i]| > 0 && TagList(setting)[i][0] == '#'
    ensures TagFilter(setting) == Some(TagList(setting))
  {
    TagFilterSpec(setting);
    var tags := TagList(setting);
    assert seq(|tags|, i requires 0 <= i < |tags| => Hashed(tags[i])) == tags;
  }

  // ---------------------------------------------------------------------
  // Intent / utterance pairs

  /** A turn the pair extraction can read: its user input has an `input` (`phrase.get` fails on `None`). */
  predicate TurnReady(turn: Turn) {
    turn.userInput.input.Some?
  }

  predicate TurnsReady(turns: seq<Turn>) {
    forall i | 0 <= i < |turns| :: TurnReady(turns[i])
  }

  /** The pair a turn yields: when it has a triggered intent and a non-empty text input. */
  function PairOf(turn: Turn): Option<IntentPair>
    requires TurnReady(turn)
  {
    var text := turn.userInput.input.value.text;
    var intent := turn.virtualAgentOutput.triggeredIntent;
    if intent.Some? && text.Some? && text.value.text != "" then Some(IntentPair(text.value.text, intent.value, "valid", []))
    else None
  }

  /** The pairs of the turns, in turn order. */
  function PairsOf(turns: seq<Turn>): (r: seq<IntentPair>)
    requires TurnsReady(turns)
    ensures |r| <= |turns|
    ensures forall i | 0 <= i < |r| :: r[i].status == "valid" && r[i].trainingPhrases == [] && r[i].userUtterance != ""
  {
    if |turns| == 0 then []
    else
      var last := turns[|turns| - 1];
      assert TurnReady(last);
      PairsOf(turns[..|turns| - 1]) + if PairOf(last).Some? then [PairOf(last).value] else []
  }

  /** The pairs of two runs of turns are the pairs of the first followed by those of the second. */
  lemma {:induction false} PairsOfAppend(a: seq<Turn>, b: seq<Turn>)
    requires TurnsReady(a) && TurnsReady(b)
    ensures TurnsReady(a + b) && PairsOf(a + b) == PairsOf(a) + PairsOf(b)
    decreases |b|
  {
    assert forall i | 0 <= i < |a + b| :: (a + b)[i] == if i < |a| then a[i] else b[i - |a|];
    if |b| == 0 {
      assert a + b == a;
    } else {
      var b' := b[..|b| - 1];
      assert (a + b)[..|a + b| - 1] == a + b';
      assert (a + b)[|a + b| - 1] == b[|b| - 1];
      assert TurnsReady(b');
      PairsOfAppend(a, b');
    }
  }

  /** A pair is extracted exactly for the turns that yield one. */
  lemma {:induction false} PairsOfIff(turns: seq<Turn>, p: IntentPair)
    requires TurnsReady(turns)
    ensures p in PairsOf(turns) <==> exists i | 0 <= i < |turns| :: TurnReady(turns[i]) && PairOf(turns[i]) == Some(p)
    decreases |turns|
  {
    if |turns| > 0 {
      var front, last := turns[..|turns| - 1], turns[|turns| - 1];
      assert TurnsReady(front) && TurnReady(last);
      PairsOfIff(front, p);
      var q := if PairOf(last).Some? then [PairOf(last).value] else [];
      assert PairsOf(turns) == PairsOf(front) + q;
      if p in PairsOf(front) {
        var i :| 0 <= i < |front| && TurnReady(front[i]) && PairOf(front[i]) == Some(p);
        assert turns[i] == front[i];
      } else if p in q {
        assert PairOf(turns[|turns| - 1]) == Some(p);
      }
      if exists i | 0 <= i < |turns| :: TurnReady(turns[i]) && PairOf(turns[i]) == Some(p) {
        var i :| 0 <= i < |turns| && TurnReady(turns[i]) && PairOf(turns[i]) == Some(p);
        if i < |front| {
          assert front[i] == turns[i];
        } else {
          assert p in q;
        }
      }
    }
  }

  // ---------------------------------------------------------------------
  // Training phrases of the expected intents

  /** Every part of a phrase has a text (`part['text']` fails otherwise). */
  predicate PartsReadable(parts: Option<seq<Part>>) {
    parts.Some? && forall i | 0 <= i < |parts.value| :: parts.value[i].text.Some?
  }

  /** A language file `flatten_tp_data` can read without raising. */
  predicate TpFileReady(file: TpFile) {
    file.trainingPhrases.Some?
    && forall i | 0 <= i < |file.trainingPhrases.value| :: PartsReadable(file.trainingPhrases.value[i].parts)
  }

  /** The lowercased texts of the parts, joined. */
  function LoweredJoin(parts: seq<Part>): string
    requires forall i | 0 <= i < |parts| :: parts[i].text.Some?
  {
    if |parts| == 0 then ""
    else
      var last := parts[|parts| - 1];
      assert last.text.Some?;
      LoweredJoin(parts[..|parts| - 1]) + Lower(last.text.value)
  }

  /** Lowering each part and joining is lowering the concatenation `flatten_training_phrase_parts` builds. */
  lemma {:induction false} LoweredJoinIsLower(parts: seq<Part>)
    requires forall i | 0 <= i < |parts| :: parts[i].text.Some?
    ensures LoweredJoin(parts) == Lower(ConcatTexts(parts))
    decreases |parts|
  {
    if |parts| > 0 {
      var front := parts[..|parts| - 1];
      LoweredJoinIsLower(front);
      LowerConcat(ConcatTexts(front), parts[|parts| - 1].text.value);
    }
  }

  /** `flatten_tp_data`: one string per training phrase, in order. */
  function FlattenTpData(file: TpFile): (r: seq<string>)
    requires TpFileReady(file)
    ensures |r| == |file.trainingPhrases.value|
  {
    var phrases := file.trainingPhrases.value;
    seq(|phrases|, i requires 0 <= i < |phrases| => LoweredJoin(phrases[i].parts.value))
  }

  /**
   * Each flattened phrase is the lowercase concatenation of its parts; for a
   * phrase of several parts that is the intent rules' flattening, lowercased.
   */
  lemma FlattenTpDataSpec(file: TpFile)
    requires TpFileReady(file)
    ensures var phrases, r := file.trainingPhrases.value, FlattenTpData(file);
      forall i | 0 <= i < |r| ::
        r[i] == Lower(ConcatTexts(phrases[i].parts.value))
        && (|phrases[i].parts.value| > 1 ==> r[i] == Lower(Flattened(phrases[i].parts.value).value))
  {
    var phrases := file.trainingPhrases.value;
    forall i | 0 <= i < |phrases| ensures PartsReadable(phrases[i].parts) {
    }
    forall i | 0 <= i < |phrases| ensures FlattenTpData(file)[i] == Lower(ConcatTexts(phrases[i].parts.value)) {
      LoweredJoinIsLower(phrases[i].parts.value);
    }
  }

  /** Index of the first file that cannot be read; `|files|` when all can. */
  function FirstUnready(files: seq<TpFile>): (k: nat)
    ensures k <= |files|
    ensures forall j | 0 <= j < k :: TpFileReady(files[j])
    ensures k < |files| ==> !TpFileReady(files[k])
  {
    if |files| == 0 then 0
    else if !TpFileReady(files[0]) then 0
    else
      assert forall j | 0 <= j < |files| - 1 :: files[1..][j] == files[j + 1];
      1 + FirstUnready(files[1..])
  }

  /** The first file that cannot be read is the one after a readable prefix. */
  lemma FirstUnreadyIs(files: seq<TpFile>, j: int)
    requires 0 <= j <= |files| && forall l | 0 <= l < j :: TpFileReady(files[l])
    requires j < |files| ==> !TpFileReady(files[j])
    ensures FirstUnready(files) == j
  {
  }

  /** The flattened phrases of the first `k` files, in listing order. */
  function FlatFiles(files: seq<TpFile>, k: int): seq<string>
    requires 0 <= k <= |files| && forall j | 0 <= j < k :: TpFileReady(files[j])
  {
    if k == 0 then []
    else
      assert TpFileReady(files[k - 1]);
      FlatFiles(files, k - 1) + FlattenTpData(files[k - 1])
  }

  /** The expected intent of a pair has no directory, or one of its language files cannot be read. */
  predicate BadIntent(p: IntentPair, intentDirs: map<string, Option<seq<TpFile>>>) {
    p.intent !in intentDirs
    || (intentDirs[p.intent].Some? && FirstUnready(intentDirs[p.intent].value) < |intentDirs[p.intent].value|)
  }

  /** Some pair of `pairs` expects a bad intent. */
  predicate SomeBad(pairs: seq<IntentPair>, intentDirs: map<string, Option<seq<TpFile>>>) {
    exists i | 0 <= i < |pairs| :: BadIntent(pairs[i], intentDirs)
  }

  /**
   * A pair after `gather_intent_tps`: it gains the phrases of its intent's
   * files up to the first that cannot be read, and is marked invalid when
   * its intent is bad. Utterance and intent do not change, and the phrases
   * already there stay first.
   */
  function GatheredPair(p: IntentPair, intentDirs: map<string, Option<seq<TpFile>>>): (r: IntentPair)
    ensures r.userUtterance == p.userUtterance && r.intent == p.intent
    ensures p.trainingPhrases <= r.trainingPhrases
    ensures r.status == if BadIntent(p, intentDirs) then "invalid_intent" else p.status
  {
    if p.intent !in intentDirs then p.(status := "invalid_intent")
    else
      match intentDirs[p.intent]
      case None => p
      case Some(files) => FilesOutcome(p, files)
  }

  /** A pair with the phrases of the first `j` files added. */
  function WithFiles(p: IntentPair, files: seq<TpFile>, j: int): IntentPair
    requires 0 <= j <= |files| && forall l | 0 <= l < j :: TpFileReady(files[l])
  {
    p.(trainingPhrases := p.trainingPhrases + FlatFiles(files, j))
  }

  /** A pair after its intent's files: the readable ones added, invalid when one could not be read. */
  function FilesOutcome(p: IntentPair, files: seq<TpFile>): IntentPair {
    var k := FirstUnready(files);
    WithFiles(p, files, k).(status := if k < |files| then "invalid_intent" else p.status)
  }

  function Gathered(pairs: seq<IntentPair>, intentDirs: map<string, Option<seq<TpFile>>>): (r: seq<IntentPair>)
    ensures |r| == |pairs|
  {
    seq(|pairs|, i requires 0 <= i < |pairs| => GatheredPair(pairs[i], intentDirs))
  }

  /** Some pair expects a bad intent exactly when R008 finds an invalid pair among the gathered valid pairs. */
  lemma GatheredInvalid(pairs: seq<IntentPair>, intentDirs: map<string, Option<seq<TpFile>>>)
    requires forall i | 0 <= i < |pairs| :: pairs[i].status == "valid"
    ensures SomeBad(pairs, intentDirs) <==> InvalidIntents(Gathered(pairs, intentDirs)) != []
  {
    if SomeBad(pairs, intentDirs) {
      BadGathered(pairs, intentDirs);
    }
    if InvalidIntents(Gathered(pairs, intentDirs)) != [] {
      GatheredBad(pairs, intentDirs);
    }
  }

  /** A pair that expects a bad intent is among the invalid gathered pairs. */
  lemma BadGathered(pairs: seq<IntentPair>, intentDirs: map<string, Option<seq<TpFile>>>)
    requires SomeBad(pairs, intentDirs)
    ensures InvalidIntents(Gathered(pairs, intentDirs)) != []
  {
    var gathered := Gathered(pairs, intentDirs);
    var i :| 0 <= i < |pairs| && BadIntent(pairs[i], intentDirs);
    assert gathered[i] == GatheredPair(pairs[i], intentDirs);
    InvalidIntentsComplete(gathered, gathered[i]);
  }

  /** An invalid gathered pair comes from a valid pair that expects a bad intent. */
  lemma GatheredBad(pairs: seq<IntentPair>, intentDirs: map<string, Option<seq<TpFile>>>)
    requires forall i | 0 <= i < |pairs| :: pairs[i].status == "valid"
    requires InvalidIntents(Gathered(pairs, intentDirs)) != []
    ensures SomeBad(pairs, intentDirs)
  {
    var gathered := Gathered(pairs, intentDirs);
    var p := InvalidIntents(gathered)[0];
    assert p in gathered;
    var i :| 0 <= i < |gathered| && gathered[i] == p;
    assert GatheredPair(pairs[i], intentDirs).status == "invalid_intent";
  }

  /** A pair whose intent has a directory with only readable files stays as it was and gains all their phrases. */
  lemma GatheredReadable(p: IntentPair, intentDirs: map<string, Option<seq<TpFile>>>)
    requires p.intent in intentDirs && intentDirs[p.intent].Some?
    requires forall j | 0 <= j < |intentDirs[p.intent].value| :: TpFileReady(intentDirs[p.intent].value[j])
    ensures var files := intentDirs[p.intent].value;
      GatheredPair(p, intentDirs) == p.(trainingPhrases := p.trainingPhrases + FlatFiles(files, |files|))
  {
    FirstUnreadyIs(intentDirs[p.intent].value, |intentDirs[p.intent].value|);
  }

  /** `tc.associated_intent_data` after one pair: the last readable file of its intent overwrites the intent's entry. */
  function AssocStep(m: map<string, seq<string>>, p: IntentPair, intentDirs: map<string, Option<seq<TpFile>>>): map<string, seq<string>> {
    if p.intent in intentDirs && intentDirs[p.intent].Some? && FirstUnready(intentDirs[p.intent].value) > 0
    then m[p.intent := FlattenTpData(intentDirs[p.intent].value[FirstUnready(intentDirs[p.intent].value) - 1])]
    else m
  }

  /** `tc.associated_intent_data` after the pairs, in order. */
  function AssocAfter(m: map<string, seq<string>>, pairs: seq<IntentPair>, intentDirs: map<string, Option<seq<TpFile>>>): map<string, seq<string>> {
    if |pairs| == 0 then m
    else AssocStep(AssocAfter(m, pairs[..|pairs| - 1], intentDirs), pairs[|pairs| - 1], intentDirs)
  }

  /** Some pair of the first `k` expects a bad intent. */
  predicate AnyBad(pairs: seq<IntentPair>, k: int, intentDirs: map<string, Option<seq<TpFile>>>)
    requires 0 <= k <= |pairs|
  {
    k > 0 && (AnyBad(pairs, k - 1, intentDirs) || BadIntent(pairs[k - 1], intentDirs))
  }

  lemma {:induction false} AnyBadIff(pairs: seq<IntentPair>, k: int, intentDirs: map<string, Option<seq<TpFile>>>)
    requires 0 <= k <= |pairs|
    ensures AnyBad(pairs, k, intentDirs) <==> exists j | 0 <= j < k :: BadIntent(pairs[j], intentDirs)
    decreases k
  {
    if k > 0 {
      AnyBadIff(pairs, k - 1, intentDirs);
    }
  }

  lemma AnyBadAll(pairs: seq<IntentPair>, intentDirs: map<string, Option<seq<TpFile>>>)
    ensures AnyBad(pairs, |pairs|, intentDirs) == SomeBad(pairs, intentDirs)
  {
    AnyBadIff(pairs, |pairs|, intentDirs);
  }

  // ---------------------------------------------------------------------
  // Qualification

  /** `tag_match`: true unless the test case has tags and there is a tag filter; then they must share a tag. */
  function TagMatch(tags: Option<seq<string>>, tagFilter: Option<seq<string>>): bool {
    if Truthy(tags) && Truthy(tagFilter) then (set t | t in tags.value) * (set t | t in tagFilter.value) != {} else true
  }

  lemma TagMatchIff(tags: Option<seq<string>>, tagFilter: Option<seq<string>>)
    ensures TagMatch(tags, tagFilter) <==>
      !(Truthy(tags) && Truthy(tagFilter)) || exists t | t in tags.value :: t in tagFilter.value
  {
    if Truthy(tags) && Truthy(tagFilter) && exists t | t in tags.value :: t in tagFilter.value {
      var t :| t in tags.value && t in tagFilter.value;
      assert t in (set t | t in tags.value) * (set t | t in tagFilter.value);
    }
  }

  class TestCases {
    const verbose: bool
    const tagFilter: Option<seq<string>>
    /** `load_display_name_filter`: the pattern as written; a display name matches when it contains it. */
    const displayNameFilter: string
    const rules: TestCaseRules

    constructor (verbose: bool, disableMap: map<string, bool>, tagSetting: string, displayNamePattern: string)
      requires TagsLoadable(tagSetting)
      ensures this.verbose == verbose && tagFilter == TagFilter(tagSetting) && displayNameFilter == displayNamePattern
      ensures fresh(rules) && fresh(rules.log) && rules.disableMap == disableMap && rules.log.lines == []
    {
      this.verbose := verbose;
      var filter := LoadTagFilter(tagSetting);
      tagFilter := filter;
      displayNameFilter := displayNamePattern;
      rules := new TestCaseRules(disableMap);
    }

    /** `load_tag_filter`: `None` for an empty setting, otherwise the listed tags with their '#'. */
    static method LoadTagFilter(setting: string) returns (r: Option<seq<string>>)
      requires TagsLoadable(setting)
      ensures r == TagFilter(setting)
    {
      var tags := TagList(setting);
      if |tags| == 1 && tags[0] == "" {
        r := None;
      } else {
        tags := HashTags(tags);
        r := Some(tags);
      }
    }

    /** Lines 50-53 of `load_tag_filter`: the list is rewritten in place, one tag at a time. */
    static method HashTags(listed: seq<string>) returns (tags: seq<string>)
      requires forall j | 0 <= j < |listed| :: listed[j] != ""
      ensures tags == seq(|listed|, i requires 0 <= i < |listed| => Hashed(listed[i]))
    {
      tags := listed;
      for i := 0 to |tags|
        invariant |tags| == |listed|
        invariant forall j | 0 <= j < i :: tags[j] == Hashed(listed[j])
        invariant forall j | i <= j < |tags| :: tags[j] == listed[j]
      {
        var tag := tags[i];
        if tag[0] != '#' {
          tag := "#" + tag;
          tags := tags[i := tag];
        }
      }
    }

    /** The test case passes both filters: its tags and its display name. */
    predicate Matches(file: TestCaseFile)
      requires file.displayName.Some?
    {
      TagMatch(file.tags, tagFilter) && Contains(file.displayName.value, displayNameFilter)
    }

    /** A test case file `lint_test_case` can read: it has a display name, and its turns are readable when they are read. */
    predicate TestCaseReady(file: TestCaseFile) {
      file.displayName.Some? && (Matches(file) && Truthy(file.testCaseConversationTurns) ==> TurnsReady(file.testCaseConversationTurns.value))
    }

    /** The pairs of a test case file that passes the filters. */
    function PairsFor(file: TestCaseFile): seq<IntentPair>
      requires TestCaseReady(file) && Matches(file)
    {
      if Truthy(file.testCaseConversationTurns) then PairsOf(file.testCaseConversationTurns.value) else []
    }

    /** The test case has an invalid intent: it passed the filters and one of its pairs expects a bad intent. */
    predicate InvalidFor(file: TestCaseFile, intentDirs: map<string, Option<seq<TpFile>>>)
      requires TestCaseReady(file)
    {
      Matches(file) && SomeBad(PairsFor(file), intentDirs)
    }

    /** The test case is qualified: it passed the filters and has no invalid intent. */
    predicate QualifiedFor(file: TestCaseFile, intentDirs: map<string, Option<seq<TpFile>>>)
      requires TestCaseReady(file)
    {
      Matches(file) && !InvalidFor(file, intentDirs)
    }

    /** What a test case adds to `total_test_cases`: one per rule group that runs on it. */
    function TestCaseCount(file: TestCaseFile, intentDirs: map<string, Option<seq<TpFile>>>): (n: nat)
      requires TestCaseReady(file)
      ensures n <= 1
    {
      (if R007Runs(file, intentDirs) then 1 else 0) + (if R008Runs(file, intentDirs) then 1 else 0)
    }

    /** The count over a run of test case files. */
    function LintedTestCases(files: seq<TestCaseFile>, intentDirs: map<string, Option<seq<TpFile>>>): (n: nat)
      requires forall i | 0 <= i < |files| :: TestCaseReady(files[i])
      ensures n <= |files|
    {
      if |files| == 0 then 0
      else
        var last := files[|files| - 1];
        assert TestCaseReady(last);
        LintedTestCases(files[..|files| - 1], intentDirs) + TestCaseCount(last, intentDirs)
    }

    /** `get_test_case_intent_phrase_pair`. */
    static method GetTestCaseIntentPhrasePair(tc: TestCase) returns (pairs: seq<IntentPair>)
      requires Truthy(tc.conversationTurns) ==> TurnsReady(tc.conversationTurns.value)
      ensures pairs == if Truthy(tc.conversationTurns) then PairsOf(tc.conversationTurns.value) else []
    {
      pairs := [];
      if Truthy(tc.conversationTurns) {
        var turns := tc.conversationTurns.value;
        for i := 0 to |turns|
          invariant pairs == PairsOf(turns[..i])
        {
          assert turns[..i + 1][..i] == turns[..i];
          assert TurnReady(turns[i]);
          var turn := turns[i];
          var intent := turn.virtualAgentOutput.triggeredIntent;
          var text := turn.userInput.input.value.text;
          if intent.Some? && text.Some? && text.value.text != "" {
            pairs := pairs + [IntentPair(text.value.text, intent.value, "valid", [])];
          }
        }
        assert turns[..|turns|] == turns;
      }
    }

    /** `except`: the pair and the test case are marked invalid. */
    static method MarkInvalid(tc: TestCase, i: int)
      requires 0 <= i < |tc.intentData|
      modifies tc`intentData, tc`hasInvalidIntent
      ensures tc.intentData == old(tc.intentData)[i := old(tc.intentData[i]).(status := "invalid_intent")]
      ensures tc.hasInvalidIntent
    {
      tc.intentData := tc.intentData[i := tc.intentData[i].(status := "invalid_intent")];
      tc.hasInvalidIntent := true;
    }

    /** The readable file `j`: its phrases extend the pair's and become the intent's entry. */
    static method AddFile(tc: TestCase, i: int, p: IntentPair, files: seq<TpFile>, j: int)
      requires 0 <= i < |tc.intentData| && 0 <= j < |files|
      requires forall l | 0 <= l <= j :: TpFileReady(files[l])
      requires tc.intentData[i] == WithFiles(p, files, j)
      modifies tc`intentData, tc`associatedIntentData
      ensures tc.intentData == old(tc.intentData)[i := WithFiles(p, files, j + 1)]
      ensures tc.associatedIntentData == old(tc.associatedIntentData)[p.intent := FlattenTpData(files[j])]
    {
      var cleaned := FlattenTpData(files[j]);
      assert p.trainingPhrases + FlatFiles(files, j + 1) == p.trainingPhrases + FlatFiles(files, j) + cleaned;
      tc.intentData := tc.intentData[i := tc.intentData[i].(trainingPhrases := tc.intentData[i].trainingPhrases + cleaned)];
      tc.associatedIntentData := tc.associatedIntentData[p.intent := cleaned];
    }

    /**
     * The loop over the language files of one pair's intent: each readable
     * file extends the pair's phrases and becomes the intent's entry; the
     * first file that cannot be read marks the pair and the test case
     * invalid and ends the loop.
     */
    static method LoadIntentFiles(tc: TestCase, i: int, files: seq<TpFile>)
      requires 0 <= i < |tc.intentData|
      modifies tc`intentData, tc`associatedIntentData, tc`hasInvalidIntent
      ensures tc.intentData == old(tc.intentData)[i := FilesOutcome(old(tc.intentData[i]), files)]
      ensures var k := FirstUnready(files);
        tc.associatedIntentData == if k > 0 then old(tc.associatedIntentData)[old(tc.intentData[i]).intent := FlattenTpData(files[k - 1])] else old(tc.associatedIntentData)
      ensures tc.hasInvalidIntent == (old(tc.hasInvalidIntent) || FirstUnready(files) < |files|)
    {
      ghost var d0, a0 := tc.intentData, tc.associatedIntentData;
      var p := tc.intentData[i];
      assert WithFiles(p, files, 0) == p;
      assert d0[i := p] == d0;
      for j := 0 to |files|
        invariant forall l | 0 <= l < j :: TpFileReady(files[l])
        invariant tc.intentData == d0[i := WithFiles(p, files, j)]
        invariant tc.associatedIntentData == if j > 0 then a0[p.intent := FlattenTpData(files[j - 1])] else a0
        invariant tc.hasInvalidIntent == old(tc.hasInvalidIntent)
      {
        if !TpFileReady(files[j]) {
          FirstUnreadyIs(files, j);
          MarkInvalid(tc, i);
          return;
        }
        AddFile(tc, i, p, files, j);
      }
      FirstUnreadyIs(files, |files|);
    }

    /** One pair of `gather_intent_tps`: a missing intent directory marks it invalid; otherwise its files are read. */
    static method GatherPair(tc: TestCase, i: int, intentDirs: map<string, Option<seq<TpFile>>>)
      requires 0 <= i < |tc.intentData|
      modifies tc`intentData, tc`associatedIntentData, tc`hasInvalidIntent
      ensures tc.intentData == old(tc.intentData)[i := GatheredPair(old(tc.intentData[i]), intentDirs)]
      ensures tc.associatedIntentData == AssocStep(old(tc.associatedIntentData), old(tc.intentData[i]), intentDirs)
      ensures tc.hasInvalidIntent == (old(tc.hasInvalidIntent) || BadIntent(old(tc.intentData[i]), intentDirs))
    {
      var pair := tc.intentData[i];
      if pair.intent !in intentDirs {
        tc.intentData := tc.intentData[i := pair.(status := "invalid_intent")];
        tc.hasInvalidIntent := true;
      } else if intentDirs[pair.intent].Some? {
        LoadIntentFiles(tc, i, intentDirs[pair.intent].value);
      } else {
        assert tc.intentData[i := pair] == tc.intentData;
      }
    }

    /** `gather_intent_tps`: every pair is gathered on its own; a bad intent marks only its pair. */
    static method GatherIntentTps(tc: TestCase, intentDirs: map<string, Option<seq<TpFile>>>)
      modifies tc`intentData, tc`associatedIntentData, tc`hasInvalidIntent
      ensures tc.intentData == Gathered(old(tc.intentData), intentDirs)
      ensures tc.associatedIntentData == AssocAfter(map[], old(tc.intentData), intentDirs)
      ensures tc.hasInvalidIntent == (old(tc.hasInvalidIntent) || SomeBad(old(tc.intentData), intentDirs))
    {
      tc.associatedIntentData := map[];
      ghost var p0, h0 := tc.intentData, tc.hasInvalidIntent;
      var n := |tc.intentData|;
      for i := 0 to n
        invariant |tc.intentData| == |p0|
        invariant forall j | 0 <= j < i :: tc.intentData[j] == GatheredPair(p0[j], intentDirs)
        invariant forall j | i <= j < |p0| :: tc.intentData[j] == p0[j]
        invariant tc.associatedIntentData == AssocAfter(map[], p0[..i], intentDirs)
        invariant tc.hasInvalidIntent == (h0 || AnyBad(p0, i, intentDirs))
      {
        assert tc.intentData[i] == p0[i] && p0[..i + 1][..i] == p0[..i];
        GatherPair(tc, i, intentDirs);
        assert tc.associatedIntentData == AssocAfter(map[], p0[..i + 1], intentDirs);
      }
      assert p0[..|p0|] == p0;
      assert tc.intentData == Gathered(p0, intentDirs);
      AnyBadAll(p0, intentDirs);
    }

    /**
     * `qualify_test_case`: a test case that passes both filters gets its
     * pairs with their phrases, and is qualified unless it has an invalid
     * intent; one that does not pass changes nothing.
     */
    method QualifyTestCase(tc: TestCase, intentDirs: map<string, Option<seq<TpFile>>>)
      requires tc.displayName.Some?
      requires TagMatch(tc.tags, tagFilter) && Contains(tc.displayName.value, displayNameFilter) && Truthy(tc.conversationTurns)
        ==> TurnsReady(tc.conversationTurns.value)
      modifies tc`intentData, tc`associatedIntentData, tc`hasInvalidIntent, tc`qualified
      ensures TagMatch(tc.tags, tagFilter) && Contains(tc.displayName.value, displayNameFilter) ==>
          var pairs := if Truthy(tc.conversationTurns) then PairsOf(tc.conversationTurns.value) else [];
          (tc.intentData == Gathered(pairs, intentDirs)
           && tc.associatedIntentData == AssocAfter(map[], pairs, intentDirs)
           && tc.hasInvalidIntent == (old(tc.hasInvalidIntent) || SomeBad(pairs, intentDirs))
           && tc.qualified == (old(tc.qualified) || !tc.hasInvalidIntent))
      ensures !(TagMatch(tc.tags, tagFilter) && Contains(tc.displayName.value, displayNameFilter)) ==>
        tc.intentData == old(tc.intentData) && tc.associatedIntentData == old(tc.associatedIntentData)
        && tc.hasInvalidIntent == old(tc.hasInvalidIntent) && tc.qualified == old(tc.qualified)
      ensures tc.agentPath == old(tc.agentPath) && tc.resourceId == old(tc.resourceId) && tc.displayName == old(tc.displayName)
      ensures tc.tags == old(tc.tags) && tc.conversationTurns == old(tc.conversationTurns)
    {
      var tagMatch := true;
      var displayNameMatch := false;
      if Truthy(tc.tags) && Truthy(tagFilter) {
        tagMatch := (set t | t in tc.tags.value) * (set t | t in tagFilter.value) != {};
      }
      if Contains(tc.displayName.value, displayNameFilter) {
        displayNameMatch := true;
      }
      if tagMatch && displayNameMatch {
        var pairs := GetTestCaseIntentPhrasePair(tc);
        tc.intentData := pairs;
        GatherIntentTps(tc, intentDirs);
        if !tc.hasInvalidIntent {
          tc.qualified := true;
        }
      }
    }

    /** The pairs a test case ends with: gathered when it passes the filters, none otherwise. */
    function FinalPairs(file: TestCaseFile, intentDirs: map<string, Option<seq<TpFile>>>): seq<IntentPair>
      requires TestCaseReady(file)
    {
      if Matches(file) then Gathered(PairsFor(file), intentDirs) else []
    }

    predicate R007Runs(file: TestCaseFile, intentDirs: map<string, Option<seq<TpFile>>>)
      requires TestCaseReady(file)
    {
      QualifiedFor(file, intentDirs) && Enabled(rules.disableMap, "explicit-tps-in-test-cases")
    }

    predicate R008Runs(file: TestCaseFile, intentDirs: map<string, Option<seq<TpFile>>>)
      requires TestCaseReady(file)
    {
      InvalidFor(file, intentDirs) && Enabled(rules.disableMap, "invalid-intent-in-test-cases")
    }

    /** The inspections a test case adds: its pairs under R007, its invalid pairs under R008. */
    function TestCaseInspected(file: TestCaseFile, intentDirs: map<string, Option<seq<TpFile>>>): nat
      requires TestCaseReady(file)
    {
      (if R007Runs(file, intentDirs) then |FinalPairs(file, intentDirs)| else 0)
      + (if R008Runs(file, intentDirs) then |InvalidIntents(FinalPairs(file, intentDirs))| else 0)
    }

    /** The issues a test case adds: its unmatched pairs under R007, its invalid pairs under R008. */
    function TestCaseIssues(file: TestCaseFile, intentDirs: map<string, Option<seq<TpFile>>>): nat
      requires TestCaseReady(file)
    {
      (if R007Runs(file, intentDirs) then |Unmatched(FinalPairs(file, intentDirs))| else 0)
      + (if R008Runs(file, intentDirs) then |InvalidIntents(FinalPairs(file, intentDirs))| else 0)
    }

    function LintedInspected(files: seq<TestCaseFile>, intentDirs: map<string, Option<seq<TpFile>>>): nat
      requires forall i | 0 <= i < |files| :: TestCaseReady(files[i])
    {
      if |files| == 0 then 0
      else
        var last := files[|files| - 1];
        assert TestCaseReady(last);
        LintedInspected(files[..|files| - 1], intentDirs) + TestCaseInspected(last, intentDirs)
    }

    function LintedIssues(files: seq<TestCaseFile>, intentDirs: map<string, Option<seq<TpFile>>>): nat
      requires forall i | 0 <= i < |files| :: TestCaseReady(files[i])
    {
      if |files| == 0 then 0
      else
        var last := files[|files| - 1];
        assert TestCaseReady(last);
        LintedIssues(files[..|files| - 1], intentDirs) + TestCaseIssues(last, intentDirs)
    }

    /** What a test case logs: one R007 line per unmatched pair, then one R008 line when R008 runs. */
    function TestCaseLog(file: TestCaseFile, intentDirs: map<string, Option<seq<TpFile>>>): (r: seq<Diagnostic>)
      requires TestCaseReady(file)
    {
      var res := TestCaseResource(file.displayName, file.name);
      UtteranceDiagnostics(res, if R007Runs(file, intentDirs) then Unmatched(FinalPairs(file, intentDirs)) else [])
      + (if R008Runs(file, intentDirs) then [Diagnostic(R008, res, "")] else [])
    }

    /** The lines of a run of test case files, in order. */
    function LintedLog(files: seq<TestCaseFile>, intentDirs: map<string, Option<seq<TpFile>>>): seq<Diagnostic>
      requires forall i | 0 <= i < |files| :: TestCaseReady(files[i])
    {
      if |files| == 0 then []
      else
        var last := files[|files| - 1];
        assert TestCaseReady(last);
        LintedLog(files[..|files| - 1], intentDirs) + TestCaseLog(last, intentDirs)
    }

    /**
     * Every line a test case logs comes with an issue: R007 counts one per
     * line, and R008 logs one line for its one or more invalid pairs.
     */
    lemma TestCaseLogIssues(file: TestCaseFile, intentDirs: map<string, Option<seq<TpFile>>>)
      requires TestCaseReady(file)
      ensures |TestCaseLog(file, intentDirs)| <= TestCaseIssues(file, intentDirs)
    {
      if R008Runs(file, intentDirs) {
        InvalidForIff(file, intentDirs);
      }
    }

    /** Over a run of test case files, no more lines are logged than issues counted. */
    lemma {:induction false} LintedLogIssues(files: seq<TestCaseFile>, intentDirs: map<string, Option<seq<TpFile>>>)
      requires forall i | 0 <= i < |files| :: TestCaseReady(files[i])
      ensures |LintedLog(files, intentDirs)| <= LintedIssues(files, intentDirs)
      decreases |files|
    {
      if |files| > 0 {
        var last := files[|files| - 1];
        assert TestCaseReady(last);
        LintedLogIssues(files[..|files| - 1], intentDirs);
        TestCaseLogIssues(last, intentDirs);
      }
    }

    /**
     * A test case has an invalid intent exactly when it passes the filters
     * and R008 finds an invalid pair among its gathered pairs.
     */
    lemma InvalidForIff(file: TestCaseFile, intentDirs: map<string, Option<seq<TpFile>>>)
      requires TestCaseReady(file)
      ensures InvalidFor(file, intentDirs) <==> Matches(file) && InvalidIntents(FinalPairs(file, intentDirs)) != []
    {
      if Matches(file) {
        GatheredInvalid(PairsFor(file), intentDirs);
      }
    }

    /**
     * In a qualified test case every pair is valid and carries exactly the
     * lowercased training phrases of its expected intent's language files
     * (none when the intent has no training phrase directory).
     */
    lemma QualifiedPairs(file: TestCaseFile, intentDirs: map<string, Option<seq<TpFile>>>)
      requires TestCaseReady(file) && QualifiedFor(file, intentDirs)
      ensures forall p | p in FinalPairs(file, intentDirs) ::
        p.status == "valid" && p.intent in intentDirs
        && p.trainingPhrases == match intentDirs[p.intent] case None => [] case Some(files) => FlatFiles(files, |files|)
    {
      var pairs := PairsFor(file);
      forall p | p in FinalPairs(file, intentDirs)
        ensures p.status == "valid" && p.intent in intentDirs
        ensures p.trainingPhrases == match intentDirs[p.intent] case None => [] case Some(files) => FlatFiles(files, |files|)
      {
        var i :| 0 <= i < |pairs| && FinalPairs(file, intentDirs)[i] == p;
        assert !BadIntent(pairs[i], intentDirs);
        assert pairs[i].trainingPhrases == [];
        if intentDirs[pairs[i].intent].Some? {
          FirstUnreadyIs(intentDirs[pairs[i].intent].value, |intentDirs[pairs[i].intent].value|);
        }
      }
    }

    /**
     * `lint_test_case`: the test case takes its name, display name, tags and
     * turns from the file, is qualified, and the two test case rules run on
     * it unless disabled.
     */
    method LintTestCase(tc: TestCase, file: TestCaseFile, intentDirs: map<string, Option<seq<TpFile>>>, stats: LintStats)
      requires TestCaseReady(file)
      modifies tc, stats`totalTestCases, stats`totalInspected, stats`totalIssues, rules.log
      ensures tc.agentPath == old(tc.agentPath)
      ensures tc.resourceId == file.name && tc.displayName == file.displayName && tc.tags == file.tags
      ensures tc.conversationTurns == file.testCaseConversationTurns
      ensures tc.hasInvalidIntent == (old(tc.hasInvalidIntent) || InvalidFor(file, intentDirs))
      ensures tc.qualified == (old(tc.qualified) || (Matches(file) && !tc.hasInvalidIntent))
      ensures Matches(file) ==>
        tc.intentData == FinalPairs(file, intentDirs) && tc.associatedIntentData == AssocAfter(map[], PairsFor(file), intentDirs)
      ensures !Matches(file) ==> tc.intentData == old(tc.intentData) && tc.associatedIntentData == old(tc.associatedIntentData)
      ensures var r007 := tc.qualified && Enabled(rules.disableMap, "explicit-tps-in-test-cases");
              var r008 := tc.hasInvalidIntent && Enabled(rules.disableMap, "invalid-intent-in-test-cases");
              var invalid := |if r008 then InvalidIntents(tc.intentData) else []|;
              stats.totalTestCases == old(stats.totalTestCases) + (if r007 then 1 else 0) + (if r008 then 1 else 0)
              && stats.totalInspected == old(stats.totalInspected) + (if r007 then |tc.intentData| else 0) + invalid
              && stats.totalIssues == old(stats.totalIssues) + |if r007 then Unmatched(tc.intentData) else []| + invalid
      ensures var r007 := tc.qualified && Enabled(rules.disableMap, "explicit-tps-in-test-cases");
              var r008 := tc.hasInvalidIntent && Enabled(rules.disableMap, "invalid-intent-in-test-cases");
              var res := TestCaseResource(file.displayName, file.name);
              rules.log.lines == old(rules.log.lines) + UtteranceDiagnostics(res, if r007 then Unmatched(tc.intentData) else [])
                + (if r008 then [Diagnostic(R008, res, "")] else [])
    {
      tc.resourceId := file.name;
      tc.displayName := file.displayName;
      tc.tags := file.tags;
      tc.conversationTurns := file.testCaseConversationTurns;
      QualifyTestCase(tc, intentDirs);
      if Matches(file) {
        ghost var pairs := PairsFor(file);
        assert pairs == if Truthy(tc.conversationTurns) then PairsOf(tc.conversationTurns.value) else [];
      }
      rules.RunTestCaseRules(tc, stats);
    }

    /** One test case file linted as a new test case of the agent. */
    method LintTestCaseFile(file: TestCaseFile, agentPath: string, intentDirs: map<string, Option<seq<TpFile>>>, stats: LintStats)
      requires TestCaseReady(file)
      modifies stats`totalTestCases, stats`totalInspected, stats`totalIssues, rules.log
      ensures stats.totalTestCases == old(stats.totalTestCases) + TestCaseCount(file, intentDirs)
      ensures stats.totalInspected == old(stats.totalInspected) + TestCaseInspected(file, intentDirs)
      ensures stats.totalIssues == old(stats.totalIssues) + TestCaseIssues(file, intentDirs)
      ensures rules.log.lines == old(rules.log.lines) + TestCaseLog(file, intentDirs)
    {
      var tc := new TestCase(agentPath);
      LintTestCase(tc, file, intentDirs, stats);
      assert tc.qualified == QualifiedFor(file, intentDirs) && tc.hasInvalidIntent == InvalidFor(file, intentDirs);
      assert tc.intentData == FinalPairs(file, intentDirs);
    }

    /** One more test case file adds its own counts to the sums. */
    lemma LintedStep(files: seq<TestCaseFile>, intentDirs: map<string, Option<seq<TpFile>>>, i: int)
      requires forall i | 0 <= i < |files| :: TestCaseReady(files[i])
      requires 0 <= i < |files|
      ensures LintedTestCases(files[..i + 1], intentDirs) == LintedTestCases(files[..i], intentDirs) + TestCaseCount(files[i], intentDirs)
      ensures LintedInspected(files[..i + 1], intentDirs) == LintedInspected(files[..i], intentDirs) + TestCaseInspected(files[i], intentDirs)
      ensures LintedIssues(files[..i + 1], intentDirs) == LintedIssues(files[..i], intentDirs) + TestCaseIssues(files[i], intentDirs)
      ensures LintedLog(files[..i + 1], intentDirs) == LintedLog(files[..i], intentDirs) + TestCaseLog(files[i], intentDirs)
    {
      assert files[..i + 1][..i] == files[..i];
    }

    /**
     * `lint_test_cases_directory`: every test case file is linted as a new
     * test case; the counters are the sums over the files and the rating is
     * computed from them.
     */
    method LintTestCasesDirectory(files: seq<TestCaseFile>, agentPath: string, intentDirs: map<string, Option<seq<TpFile>>>)
      returns (stats: LintStats, rating: real)
      requires forall i | 0 <= i < |files| :: TestCaseReady(files[i])
      modifies rules.log
      ensures fresh(stats) && stats.totalTestCases == LintedTestCases(files, intentDirs)
      ensures stats.totalInspected == LintedInspected(files, intentDirs) && stats.totalIssues == LintedIssues(files, intentDirs)
      ensures rules.log.lines == old(rules.log.lines) + LintedLog(files, intentDirs)
      ensures rating == CalculateRating(stats.totalIssues, stats.totalInspected)
    {
      stats := new LintStats();
      ghost var l0 := rules.log.lines;
      for i := 0 to |files|
        invariant fresh(stats)
        invariant stats.totalTestCases == LintedTestCases(files[..i], intentDirs)
        invariant stats.totalInspected == LintedInspected(files[..i], intentDirs)
        invariant stats.totalIssues == LintedIssues(files[..i], intentDirs)
        invariant rules.log.lines == l0 + LintedLog(files[..i], intentDirs)
      {
        ghost var front := LintedLog(files[..i], intentDirs);
        LintTestCaseFile(files[i], agentPath, intentDirs, stats);
        LintedStep(files, intentDirs, i);
        AppendAssoc(l0, front, TestCaseLog(files[i], intentDirs));
      }
      assert files[..|files|] == files;
      rating := CalculateRating(stats.totalIssues, stats.totalInspected);
    }
  }
}
