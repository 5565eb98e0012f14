/**
 * Helpers of `src/common.py`: rule enable/disable map, resource filter,
 * rating, file path parsing, display name cleaning, language code filter
 * and the resource pre-check. Configuration values are passed as the strings
 * the configuration file holds.
 */
module Common {
  import opened Wrappers
  import opened Text

  // ---------------------------------------------------------------------
  // Message controls

  /** Python `s.replace("\n", "")`. */
  function StripNewlines(s: string): string {
    ReplaceAll(s, "\n", "")
  }

  /** The names listed in the `disable` configuration value. */
  function DisabledNames(disable: string): seq<string> {
    Split(StripNewlines(disable), ',')
  }

  /** `load_message_controls`: every listed name maps to `False`. */
  function LoadMessageControls(disable: string): (m: map<string, bool>)
    ensures forall name :: name in m <==> name in DisabledNames(disable)
    ensures forall name | name in m :: !m[name]
  {
    map name | name in DisabledNames(disable) :: false
  }

  /** `disable_map.get(rule, True)`: the test that gates every rule. */
  predicate Enabled(disableMap: map<string, bool>, rule: string) {
    rule !in disableMap || disableMap[rule]
  }

  /** A rule is enabled exactly when the configuration does not list it. */
  lemma EnabledIffNotListed(disable: string, rule: string)
    ensures Enabled(LoadMessageControls(disable), rule) <==> rule !in DisabledNames(disable)
  {
  }

  /** Newlines inside the `disable` value do not split names. */
  lemma {:induction false} StripNewlinesRemovesAll(s: string)
    ensures '\n' !in StripNewlines(s)
    ensures |StripNewlines(s)| <= |s|
    decreases |s|
  {
    if |s| >= 1 {
      if s[..1] == "\n" {
        StripNewlinesRemovesAll(s[1..]);
      } else {
        StripNewlinesRemovesAll(s[1..]);
        assert StripNewlines(s) == [s[0]] + StripNewlines(s[1..]);
      }
    }
  }

  // ---------------------------------------------------------------------
  // Resource filter and pre-check

  /** The snake_case resource names of the filter, in the source's order. */
  const ResourceNames: seq<string> := ["entity_types", "flows", "intents", "test_cases", "webhooks"]

  /** The list of the `include` value of `AGENT RESOURCES`; a blank value means no filter. */
  function ResourceFilterList(includeValue: string): (r: Option<seq<string>>)
    ensures r.Some? ==> |r.value| >= 1
  {
    var names := Split(StripNewlines(includeValue), ',');
    if |names| == 1 && names[0] == "" then None else Some(names)
  }

  /**
   * `load_resource_filter`: all five resources start enabled; a non-empty
   * filter disables every resource it does not name.
   */
  method LoadResourceFilter(includeValue: string) returns (r: map<string, bool>)
    ensures forall k :: k in r <==> k in ResourceNames
    ensures forall k | k in r :: r[k] == (ResourceFilterList(includeValue).None? || k in ResourceFilterList(includeValue).value)
  {
    var names := Split(StripNewlines(includeValue), ',');
    r := map["entity_types" := true, "flows" := true, "intents" := true, "test_cases" := true, "webhooks" := true];
    var filter: Option<seq<string>> := if |names| == 1 && names[0] == "" then None else Some(names);
    if filter.Some? {
      var i := 0;
      while i < |ResourceNames|
        invariant 0 <= i <= |ResourceNames|
        invariant forall k :: k in r <==> k in ResourceNames
        invariant forall j | 0 <= j < i :: r[ResourceNames[j]] == (ResourceNames[j] in filter.value)
        invariant forall j | i <= j < |ResourceNames| :: r[ResourceNames[j]]
      {
        var resource := ResourceNames[i];
        if resource !in filter.value {
          r := r[resource := false];
        }
        i := i + 1;
      }
    }
  }

  /** The directory names of the export that `resource_precheck` looks for, and their snake_case keys. */
  const DirNames: seq<string> := ["flows", "entityTypes", "intents", "testCases", "webhooks"]
  const DirKeys: seq<string> := ["flows", "entity_types", "intents", "test_cases", "webhooks"]

  /**
   * `resource_precheck`: a resource is enabled iff its directory is in the
   * agent's listing and the filter does not turn it off; keys are snake_case.
   * A filter entry that is off and names no resource is added as `False`.
   */
  method ResourcePrecheck(listing: seq<string>, resourceFilter: map<string, bool>) returns (r: map<string, bool>)
    ensures forall k :: k in r <==> k in DirKeys || (k in resourceFilter && !resourceFilter[k])
    ensures forall i | 0 <= i < |DirKeys| :: DirKeys[i] in r
    ensures forall i | 0 <= i < |DirKeys| ::
      r[DirKeys[i]] == (DirNames[i] in listing && (DirKeys[i] in resourceFilter ==> resourceFilter[DirKeys[i]]))
    ensures forall k | k in r && k !in DirKeys :: !r[k]
  {
    var found := FindResourceDirectories(listing);
    var resources := found;
    var keys := resourceFilter.Keys;
    while keys != {}
      invariant keys <= resourceFilter.Keys
      invariant forall k :: k in resources <==> k in found || (k in resourceFilter && k !in keys && !resourceFilter[k])
      invariant forall k | k in resources ::
        resources[k] == (k in found && found[k] && !(k in resourceFilter && k !in keys && !resourceFilter[k]))
      decreases |keys|
    {
      var resource :| resource in keys;
      if !resourceFilter[resource] {
        resources := resources[resource := false];
      }
      keys := keys - {resource};
    }
    r := resources;
  }

  /** The first half of `resource_precheck`: which resource directories exist, under snake_case keys. */
  method FindResourceDirectories(listing: seq<string>) returns (found: map<string, bool>)
    ensures forall k :: k in found <==> k in DirKeys
    ensures forall i | 0 <= i < |DirKeys| :: found[DirKeys[i]] == (DirNames[i] in listing)
  {
    var resources := map["flows" := false, "entityTypes" := false, "intents" := false, "testCases" := false, "webhooks" := false];
    var i := 0;
    while i < |DirNames|
      invariant 0 <= i <= |DirNames|
      invariant resources.Keys == {"flows", "entityTypes", "intents", "testCases", "webhooks"}
      invariant forall j | 0 <= j < |DirNames| :: resources[DirNames[j]] == (j < i && DirNames[j] in listing)
    {
      if DirNames[i] in listing {
        resources := resources[DirNames[i] := true];
      }
      i := i + 1;
    }
    found := map["flows" := resources["flows"], "entity_types" := resources["entityTypes"], "intents" := resources["intents"],
                 "test_cases" := resources["testCases"], "webhooks" := resources["webhooks"]];
  }

  // ---------------------------------------------------------------------
  // Rating

  /** `calculate_rating`: ten times the share of inspections without an issue; 10 when nothing was inspected. */
  function CalculateRating(totalIssues: int, totalInspected: int): (r: real)
    ensures totalInspected <= 0 ==> r == 10.0
    ensures 0 <= totalIssues <= totalInspected ==> 0.0 <= r <= 10.0
    ensures totalIssues == 0 ==> r == 10.0
    ensures totalInspected > 0 && totalIssues == totalInspected ==> r == 0.0
  {
    if totalInspected > 0 then (1.0 - (totalIssues as real) / (totalInspected as real)) * 10.0 else 10.0
  }

  /** More issues out of the same inspections never raise the rating. */
  lemma RatingMonotone(a: int, b: int, inspected: int)
    requires a <= b
    ensures CalculateRating(b, inspected) <= CalculateRating(a, inspected)
  {
    if inspected > 0 {
      var n := inspected as real;
      assert (b as real) / n - (a as real) / n == ((b - a) as real) / n;
    }
  }

  // ---------------------------------------------------------------------
  // parse_filepath

  datatype PathKind = FlowPath | PagePath | EntityTypePath | IntentPath | RouteGroupPath

  /** The directory marker of each pattern of `regex_map`. */
  function Marker(kind: PathKind): (m: string)
    ensures |m| >= 2 && m[0] == '/' && m[|m| - 1] == '/'
    ensures forall j | 0 < j < |m| - 1 :: m[j] != '/'
  {
    match kind
    case FlowPath => "/flows/"
    case PagePath => "/pages/"
    case EntityTypePath => "/entityTypes/"
    case IntentPath => "/intents/"
    case RouteGroupPath => "/transitionRouteGroups/"
  }

  /** The longest prefix of `s` without '/' (what `([^\/]*)` takes first). */
  function NonSlashRun(s: string): (r: string)
    ensures r == s[..IndexOf(s, '/')] && '/' !in r
  {
    s[..IndexOf(s, '/')]
  }

  /** Index of the last `c` in `s`, or -1. */
  function LastIndexOf(s: string, c: char): (i: int)
    ensures -1 <= i < |s|
    ensures i >= 0 ==> s[i] == c
    ensures forall j | i < j < |s| :: s[j] != c
    ensures i == -1 <==> c !in s
  {
    if s == [] then -1
    else if s[|s| - 1] == c then |s| - 1
    else LastIndexOf(s[..|s| - 1], c)
  }

  /**
   * The match of the pattern when its `.*` takes exactly `s[..i]`: the marker
   * must start at `i`; the group is the non-'/' run after it, which for pages
   * must be followed by a '.', so it ends at the run's last '.'.
   */
  function MatchAt(s: string, kind: PathKind, i: int): Option<string>
    requires 0 <= i <= |s|
  {
    var m := Marker(kind);
    if !OccursAt(s, m, i) then None
    else
      var run := NonSlashRun(s[i + |m|..]);
      if kind != PagePath then Some(run)
      else if '.' !in run then None
      else Some(run[..LastIndexOf(run, '.')])
  }

  /**
   * Backtracking of the greedy `.*`: the candidates `i < n` are tried from the
   * largest down; `.*` cannot cross a '\n', so `s[..i]` must have none.
   */
  function MatchBefore(s: string, kind: PathKind, n: int): Option<string>
    requires 0 <= n <= |s| + 1
    decreases n
  {
    if n == 0 then None
    else if '\n' !in s[..n - 1] && MatchAt(s, kind, n - 1).Some? then MatchAt(s, kind, n - 1)
    else MatchBefore(s, kind, n - 1)
  }

  /** `re.match(regex_map[kind], path).groups()[0]`; `None` stands for the failed match, which raises. */
  function ParseFilepath(path: string, kind: PathKind): Option<string> {
    MatchBefore(path, kind, |path| + 1)
  }

  /** Candidates in `[m, n)` that do not match are skipped. */
  lemma {:induction false} MatchBeforeSkip(s: string, kind: PathKind, m: int, n: int)
    requires 0 <= m <= n <= |s| + 1
    requires forall i | m <= i < n :: MatchAt(s, kind, i).None?
    ensures MatchBefore(s, kind, n) == MatchBefore(s, kind, m)
    decreases n
  {
    if n > m {
      MatchBeforeSkip(s, kind, m, n - 1);
    }
  }

  /** In `s == prefix + m + tail` with no '/' in `tail`, the marker `m` occurs at no position after `prefix`. */
  lemma NoLaterMarker(s: string, prefix: string, kind: PathKind, tail: string, i: int)
    requires s == prefix + Marker(kind) + tail && '/' !in tail
    requires |prefix| < i <= |s|
    ensures !OccursAt(s, Marker(kind), i)
  {
  }

  /** When the marker directly after `prefix` matches, no later candidate does, so the parse takes it. */
  lemma ParseAtMarker(s: string, prefix: string, kind: PathKind, tail: string)
    requires s == prefix + Marker(kind) + tail
    requires '\n' !in prefix && '/' !in tail
    requires MatchAt(s, kind, |prefix|).Some?
    ensures ParseFilepath(s, kind) == MatchAt(s, kind, |prefix|)
  {
    var p := |prefix|;
    forall i | p + 1 <= i < |s| + 1 ensures MatchAt(s, kind, i).None? {
      NoLaterMarker(s, prefix, kind, tail, i);
    }
    MatchBeforeSkip(s, kind, p + 1, |s| + 1);
    assert s[..p] == prefix;
  }

  /** A flow, entity type, intent or route group path yields its last segment. */
  lemma ParseDirName(prefix: string, kind: PathKind, name: string)
    requires kind != PagePath
    requires '\n' !in prefix && '/' !in name
    ensures ParseFilepath(prefix + Marker(kind) + name, kind) == Some(name)
  {
    var s := prefix + Marker(kind) + name;
    var p, m := |prefix|, Marker(kind);
    assert s[p..p + |m|] == m;
    assert s[p + |m|..] == name;
    assert IndexOf(name, '/') == |name|;
    assert OccursAt(s, m, p);
    assert NonSlashRun(s[p + |m|..]) == name;
    assert MatchAt(s, kind, p) == Some(name);
    ParseAtMarker(s, prefix, kind, name);
  }

  /** A page file path `…/pages/<name>.json` yields `name`, even when `name` has dots of its own. */
  lemma ParsePageName(prefix: string, name: string)
    requires '\n' !in prefix && '/' !in name
    ensures ParseFilepath(prefix + "/pages/" + name + ".json", PagePath) == Some(name)
  {
    var tail := name + ".json";
    assert '/' !in tail by {
      assert forall j | 0 <= j < |tail| :: tail[j] == (if j < |name| then name[j] else ".json"[j - |name|]);
    }
    var s := prefix + Marker(PagePath) + tail;
    assert s == prefix + "/pages/" + name + ".json";
    var p := |prefix|;
    assert s[p..p + 7] == Marker(PagePath);
    assert s[p + 7..] == tail;
    assert IndexOf(tail, '/') == |tail|;
    assert NonSlashRun(tail) == tail;
    assert tail[|name|] == '.';
    assert LastIndexOf(tail, '.') == |name| by {
      assert forall j | |name| < j < |tail| :: tail[j] != '.';
    }
    assert tail[..|name|] == name;
    assert MatchAt(s, PagePath, p) == Some(name);
    ParseAtMarker(s, prefix, PagePath, tail);
  }

  /** A match at `i` is a '/'-free segment that directly follows the marker starting at `i`. */
  lemma MatchAtSound(s: string, kind: PathKind, i: int)
    requires 0 <= i <= |s| && MatchAt(s, kind, i).Some?
    ensures '/' !in MatchAt(s, kind, i).value
    ensures OccursAt(s, Marker(kind) + MatchAt(s, kind, i).value, i)
  {
    var m := Marker(kind);
    var rest := s[i + |m|..];
    var run := NonSlashRun(rest);
    var r := MatchAt(s, kind, i).value;
    assert r == run[..|r|];
    assert run == rest[..|run|];
    assert s[i..i + |m|] == m;
    assert s[i..i + |m| + |r|] == m + r;
  }

  /** Whatever parses is a '/'-free segment that directly follows the marker in the path. */
  lemma {:induction false} ParseSound(s: string, kind: PathKind, n: int)
    requires 0 <= n <= |s| + 1
    requires MatchBefore(s, kind, n).Some?
    ensures '/' !in MatchBefore(s, kind, n).value
    ensures Contains(s, Marker(kind) + MatchBefore(s, kind, n).value)
    decreases n
  {
    if '\n' !in s[..n - 1] && MatchAt(s, kind, n - 1).Some? {
      MatchAtSound(s, kind, n - 1);
    } else {
      ParseSound(s, kind, n - 1);
    }
  }

  // ---------------------------------------------------------------------
  // clean_display_name

  /** The escapes of `clean_display_name`, in dictionary order, and their replacements. */
  const EscapeKeys: seq<string> := ["%22", "%23", "%24", "%26", "%27", "%28", "%29", "%2c", "%2f",
                                    "%3a", "%3c", "%3d", "%3e", "%3f", "%5b", "%5d", "%e2%80%9c", "%e2%80%9d"]
  const EscapeValues: seq<char> := ['"', '#', '$', '&', '\'', '(', ')', ',', '/',
                                    ':', '<', '=', '>', '?', '[', ']', '“', '”']

  lemma EscapeTable()
    ensures |EscapeKeys| == |EscapeValues| == 18
    ensures forall j | 0 <= j < 18 :: |EscapeKeys[j]| >= 3 && EscapeKeys[j][0] == '%'
  {
  }

  /** The name after the first `k` replacements. */
  function CleanedUpTo(s: string, k: nat): string
    requires k <= 18
  {
    EscapeTable();
    if k == 0 then s else ReplaceAll(CleanedUpTo(s, k - 1), EscapeKeys[k - 1], [EscapeValues[k - 1]])
  }

  /** The display name with every listed escape replaced, one escape after another. */
  function Cleaned(s: string): string {
    CleanedUpTo(s, 18)
  }

  /**
   * `clean_display_name`: for each escape in turn, if it occurs, replace
   * every occurrence.
   */
  method CleanDisplayName(displayName: string) returns (r: string)
    ensures r == Cleaned(displayName)
    ensures |r| <= |displayName|
  {
    EscapeTable();
    r := displayName;
    var k := 0;
    while k < |EscapeKeys|
      invariant 0 <= k <= 18
      invariant r == CleanedUpTo(displayName, k)
      invariant |r| <= |displayName|
    {
      var key, value := EscapeKeys[k], [EscapeValues[k]];
      ReplaceAllShorter(r, key, value);
      if Contains(r, key) {
        r := ReplaceAll(r, key, value);
      } else {
        ReplaceAllAbsent(r, key, value);
      }
      k := k + 1;
    }
  }

  /** Without any '%' there is no escape to replace. */
  lemma {:induction false} CleanWithoutPercent(s: string, k: nat)
    requires k <= 18 && '%' !in s
    ensures CleanedUpTo(s, k) == s
  {
    EscapeTable();
    if k > 0 {
      CleanWithoutPercent(s, k - 1);
      ReplaceAllAbsent(s, EscapeKeys[k - 1], [EscapeValues[k - 1]]);
    }
  }

  /** Cleaning never lengthens a name. */
  lemma {:induction false} CleanShorter(s: string, k: nat)
    requires k <= 18
    ensures |CleanedUpTo(s, k)| <= |s|
  {
    EscapeTable();
    if k > 0 {
      CleanShorter(s, k - 1);
      ReplaceAllShorter(CleanedUpTo(s, k - 1), EscapeKeys[k - 1], [EscapeValues[k - 1]]);
    }
  }

  // ---------------------------------------------------------------------
  // Language code filter

  /** `load_lang_code_filter`: the comma-separated codes, or `None` for an empty value. */
  function LoadLangCodeFilter(langCodes: string): (r: Option<seq<string>>)
    ensures r.Some? ==> r.value == Split(langCodes, ',')
  {
    var codes := Split(langCodes, ',');
    if |codes| == 1 && codes[0] == "" then None else Some(codes)
  }

  /** The filter is absent exactly for the empty configuration value; otherwise it lists the codes back. */
  lemma LangCodeFilterNone(langCodes: string)
    ensures LoadLangCodeFilter(langCodes).None? <==> langCodes == ""
    ensures LoadLangCodeFilter(langCodes).Some? ==> Join(LoadLangCodeFilter(langCodes).value, ",") == langCodes
  {
    JoinSplit(langCodes, ',');
  }

  /**
   * `get_file_based_on_lang_code_filter`: the file path of `langCode` when it
   * passes the filter (always, without a filter), `None` otherwise. The path
   * lookup raises `KeyError` for an unknown code, hence the precondition.
   */
  function GetFileBasedOnLangCodeFilter(files: map<string, string>, langCode: string, filter: Option<seq<string>>): (r: Option<string>)
    requires (filter.None? || |filter.value| == 0 || langCode in filter.value) ==> langCode in files
    ensures r.Some? <==> (filter.None? || |filter.value| == 0 || langCode in filter.value)
    ensures r.Some? ==> r.value == files[langCode]
  {
    if Truthy(filter) then
      if langCode in filter.value then Some(files[langCode]) else None
    else Some(files[langCode])
  }

  // ---------------------------------------------------------------------
  // Naming conventions

  /**
   * `re.search(pattern, text)` finds a match. The naming conventions are
   * regular expressions supplied by the user; the regex engine that decides
   * them is a parameter of the model.
   */
  type Search = (string, string) -> bool
}
