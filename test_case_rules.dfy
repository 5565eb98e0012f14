/**
 * The test case rules of `src/rules/test_cases.py`: R007, a user utterance
 * that is not a training phrase of the intent it expects, and R008, a test
 * case that expects an intent the agent does not have.
 */
module TestCaseRules {
  import opened Wrappers
  import opened Types
  import opened Logger
  import opened Common
  import opened Collections

  const R007 := "R007: Explicit Training Phrase Not in Test Case"
  const R008 := "R008: Invalid Intent in Test Case"

  function TestCaseResource(displayName: Option<string>, resourceId: Option<string>): (r: Resource)
    ensures r.resourceType == "test_case" && r.testCaseDisplayName == displayName && r.testCaseId == resourceId
  {
    NewResource("test_case").(testCaseDisplayName := displayName, testCaseId := resourceId)
  }

  /** The pairs R007 reports, in order: those whose utterance is no training phrase of the intent. */
  function Unmatched(pairs: seq<IntentPair>): (u: seq<IntentPair>)
    ensures |u| <= |pairs|
    ensures forall p | p in u :: p in pairs && p.userUtterance !in p.trainingPhrases
  {
    if |pairs| == 0 then []
    else
      var last := pairs[|pairs| - 1];
      Unmatched(pairs[..|pairs| - 1]) + (if last.userUtterance in last.trainingPhrases then [] else [last])
  }

  /** Every pair whose utterance is no training phrase is reported. */
  lemma {:induction false} UnmatchedComplete(pairs: seq<IntentPair>, p: IntentPair)
    requires p in pairs && p.userUtterance !in p.trainingPhrases
    ensures p in Unmatched(pairs)
    decreases |pairs|
  {
    var front := pairs[..|pairs| - 1];
    if p != pairs[|pairs| - 1] {
      assert pairs == front + [pairs[|pairs| - 1]];
      assert p in front;
      UnmatchedComplete(front, p);
    }
  }

  /** The pairs R008 counts: those whose intent does not exist in the agent. */
  function InvalidIntents(pairs: seq<IntentPair>): (u: seq<IntentPair>)
    ensures |u| <= |pairs|
    ensures forall p | p in u :: p in pairs && p.status == "invalid_intent"
  {
    if |pairs| == 0 then []
    else
      var last := pairs[|pairs| - 1];
      InvalidIntents(pairs[..|pairs| - 1]) + (if last.status == "invalid_intent" then [last] else [])
  }

  lemma {:induction false} InvalidIntentsComplete(pairs: seq<IntentPair>, p: IntentPair)
    requires p in pairs && p.status == "invalid_intent"
    ensures p in InvalidIntents(pairs)
    decreases |pairs|
  {
    var front := pairs[..|pairs| - 1];
    if p != pairs[|pairs| - 1] {
      assert pairs == front + [pairs[|pairs| - 1]];
      assert p in front;
      InvalidIntentsComplete(front, p);
    }
  }

  lemma UnmatchedStep(pairs: seq<IntentPair>, i: int)
    requires 0 <= i < |pairs|
    ensures Unmatched(pairs[..i + 1])
      == Unmatched(pairs[..i]) + (if pairs[i].userUtterance in pairs[i].trainingPhrases then [] else [pairs[i]])
  {
    assert pairs[..i + 1][..i] == pairs[..i];
  }

  lemma InvalidIntentsStep(pairs: seq<IntentPair>, i: int)
    requires 0 <= i < |pairs|
    ensures InvalidIntents(pairs[..i + 1])
      == InvalidIntents(pairs[..i]) + (if pairs[i].status == "invalid_intent" then [pairs[i]] else [])
  {
    assert pairs[..i + 1][..i] == pairs[..i];
  }

  function UtteranceMessage(p: IntentPair): string {
    ": [Utterance: " + p.userUtterance + " | Intent: " + p.intent + "]"
  }

  /** The lines R007 logs for the reported pairs, one each, in order. */
  function UtteranceDiagnostics(resource: Resource, u: seq<IntentPair>): (r: seq<Diagnostic>)
    ensures |r| == |u|
  {
    seq(|u|, i requires 0 <= i < |u| => Diagnostic(R007, resource, UtteranceMessage(u[i])))
  }

  /** What R007 logs for one pair: a line iff its utterance is no training phrase of the intent. */
  function PairDiagnostics(resource: Resource, p: IntentPair): (r: seq<Diagnostic>)
    ensures |r| <= 1
  {
    if p.userUtterance in p.trainingPhrases then [] else [Diagnostic(R007, resource, UtteranceMessage(p))]
  }

  /** R007 reports nothing exactly when every utterance is a training phrase of its intent. */
  lemma NoUnmatchedIff(pairs: seq<IntentPair>)
    ensures Unmatched(pairs) == [] <==> forall p | p in pairs :: p.userUtterance in p.trainingPhrases
  {
    forall p | p in pairs && p.userUtterance !in p.trainingPhrases ensures Unmatched(pairs) != [] {
      UnmatchedComplete(pairs, p);
    }
  }

  lemma UtteranceDiagnosticsSnoc(resource: Resource, u: seq<IntentPair>, p: IntentPair)
    ensures UtteranceDiagnostics(resource, u + [p]) == UtteranceDiagnostics(resource, u) + [Diagnostic(R007, resource, UtteranceMessage(p))]
  {
  }

  lemma UtteranceDiagnosticsStep(resource: Resource, pairs: seq<IntentPair>, i: int)
    requires 0 <= i < |pairs|
    ensures UtteranceDiagnostics(resource, Unmatched(pairs[..i + 1]))
      == UtteranceDiagnostics(resource, Unmatched(pairs[..i])) + PairDiagnostics(resource, pairs[i])
  {
    var u := Unmatched(pairs[..i]);
    UnmatchedStep(pairs, i);
    if pairs[i].userUtterance in pairs[i].trainingPhrases {
      assert u + [] == u;
    } else {
      UtteranceDiagnosticsSnoc(resource, u, pairs[i]);
    }
  }

  class TestCaseRules {
    const disableMap: map<string, bool>
    const log: RulesLogger

    constructor (disableMap: map<string, bool>)
      ensures this.disableMap == disableMap && fresh(log) && log.lines == []
    {
      this.disableMap := disableMap;
      log := new RulesLogger();
    }

    /** `explicit_tps_in_tcs`: every pair is one inspection; every unmatched pair one issue and one line. */
    method ExplicitTpsInTcs(tc: TestCase, stats: LintStats)
      modifies stats`totalInspected, stats`totalIssues, log
      ensures stats.Bumped(|tc.intentData|, |Unmatched(tc.intentData)|)
      ensures log.lines == old(log.lines) + UtteranceDiagnostics(TestCaseResource(tc.displayName, tc.resourceId), Unmatched(tc.intentData))
    {
      var pairs := tc.intentData;
      var resource := TestCaseResource(tc.displayName, tc.resourceId);
      ghost var l0 := log.lines;
      for i := 0 to |pairs|
        invariant log.lines == l0 + UtteranceDiagnostics(resource, Unmatched(pairs[..i]))
        invariant stats.Bumped(i, |log.lines| - |l0|)
      {
        var pair := pairs[i];
        ghost var front := UtteranceDiagnostics(resource, Unmatched(pairs[..i]));
        UtteranceDiagnosticsStep(resource, pairs, i);
        if pair.userUtterance !in pair.trainingPhrases {
          stats.Bump(1, 1);
          log.GenericLogger(resource, R007, UtteranceMessage(pair));
        } else {
          stats.Bump(1, 0);
        }
        AppendAssoc(l0, front, PairDiagnostics(resource, pair));
      }
      assert pairs[..|pairs|] == pairs;
    }

    /**
     * `invalid_intent_in_tcs`: every invalid pair is one inspection and one
     * issue; one line for the test case is logged in every case.
     */
    method InvalidIntentInTcs(tc: TestCase, stats: LintStats)
      modifies stats`totalInspected, stats`totalIssues, log
      ensures var n := |InvalidIntents(tc.intentData)|; stats.Bumped(n, n)
      ensures log.lines == old(log.lines) + [Diagnostic(R008, TestCaseResource(tc.displayName, tc.resourceId), "")]
    {
      var pairs := tc.intentData;
      ghost var l0 := log.lines;
      for i := 0 to |pairs|
        invariant stats.Bumped(|InvalidIntents(pairs[..i])|, |InvalidIntents(pairs[..i])|)
        invariant log.lines == l0
      {
        InvalidIntentsStep(pairs, i);
        if pairs[i].status == "invalid_intent" {
          stats.Bump(1, 1);
        }
      }
      assert pairs[..|pairs|] == pairs;
      log.GenericLogger(TestCaseResource(tc.displayName, tc.resourceId), R008, "");
    }

    /**
     * `run_test_case_rules`: R007 for a qualified test case and R008 for one
     * with an invalid intent, each unless disabled; each rule that runs counts
     * the test case once more.
     */
    method RunTestCaseRules(tc: TestCase, stats: LintStats)
      modifies stats`totalTestCases, stats`totalInspected, stats`totalIssues, log
      ensures var r007 := tc.qualified && Enabled(disableMap, "explicit-tps-in-test-cases");
              var r008 := tc.hasInvalidIntent && Enabled(disableMap, "invalid-intent-in-test-cases");
              var unmatched := |if r007 then Unmatched(tc.intentData) else []|;
              var invalid := |if r008 then InvalidIntents(tc.intentData) else []|;
              stats.totalTestCases == old(stats.totalTestCases) + (if r007 then 1 else 0) + (if r008 then 1 else 0)
              && stats.totalInspected == old(stats.totalInspected) + (if r007 then |tc.intentData| else 0) + invalid
              && stats.totalIssues == old(stats.totalIssues) + unmatched + invalid
      ensures var r007 := tc.qualified && Enabled(disableMap, "explicit-tps-in-test-cases");
              var r008 := tc.hasInvalidIntent && Enabled(disableMap, "invalid-intent-in-test-cases");
              var res := TestCaseResource(tc.displayName, tc.resourceId);
              log.lines == old(log.lines) + UtteranceDiagnostics(res, if r007 then Unmatched(tc.intentData) else [])
                 + (if r008 then [Diagnostic(R008, res, "")] else [])
      ensures unchanged(tc)
    {
      ghost var res := TestCaseResource(tc.displayName, tc.resourceId);
      ghost var l0 := log.lines;
      var r007 := tc.qualified && Get(disableMap, "explicit-tps-in-test-cases").GetOr(true);
      if r007 {
        stats.AddTestCase();
        ExplicitTpsInTcs(tc, stats);
      } else {
        assert UtteranceDiagnostics(res, []) == [];
      }
      assert log.lines == l0 + UtteranceDiagnostics(res, if r007 then Unmatched(tc.intentData) else []);
      ghost var l1 := log.lines;
      if tc.hasInvalidIntent && Get(disableMap, "invalid-intent-in-test-cases").GetOr(true) {
        stats.AddTestCase();
        InvalidIntentInTcs(tc, stats);
      } else {
        AppendNil(l1);
      }
    }
  }
}
