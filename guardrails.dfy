/** The guardrails of the security engine: an ordered list of rules, each a
    regular expression with a risk level, and the classification of a
    command by the rules it matches. */
module Guardrails {
  import opened Common

  // ---------------------------------------------------------------- rules

  /** A compiled regular expression, known by its source text. */
  datatype Regex = Regex(source: string)

  /** The regex engine: whether the expression matches somewhere in the text.
      The matching itself belongs to the `regex` crate and is not modelled. */
  type Matcher = (Regex, string) -> bool

  datatype GuardrailRule = GuardrailRule(
    name: string,
    pattern: Regex,
    riskLevel: RiskLevel,
    description: string)

  /** `default_rules`, in their order. */
  const DefaultRules: seq<GuardrailRule> := [
    GuardrailRule("dangerous_rm", Regex(@"rm\s+(-rf?|--recursive|--force).*(/|\*|\$HOME)"),
      Critical, "Dangerous recursive file deletion detected"),
    GuardrailRule("sudo_usage", Regex(@"\bsudo\b"),
      High, "Elevated privileges requested"),
    GuardrailRule("disk_operations", Regex(@"\b(dd|mkfs|fdisk)\b"),
      Critical, "Low-level disk operations detected"),
    GuardrailRule("network_exposure", Regex(@"\b(nc|netcat|ncat)\b.*-l"),
      Medium, "Network port listening detected"),
    GuardrailRule("system_modification", Regex(@"\b(chmod\s+777|chown\s+root)"),
      High, "Dangerous permission changes detected"),
    GuardrailRule("data_exfiltration", Regex(@"\b(curl|wget|scp|rsync)\b.*\|.*\b(nc|netcat|bash)\b"),
      Critical, "Potential data exfiltration pattern detected"),
    GuardrailRule("shell_injection", Regex(@"[;&|`$]\s*\("),
      High, "Potential shell injection detected"),
    GuardrailRule("password_exposure", Regex(@"(password|passwd|secret|api[_-]?key)\s*=\s*['""]?\w+"),
      High, "Hardcoded credentials detected")
  ]

  /** The issue text reported for a matched rule: "name: description". */
  function IssueText(g: GuardrailRule): string
  {
    g.name + ": " + g.description
  }

  /** The advice added when a rule matches; only three rules carry any. */
  function SuggestionsFor(name: string): seq<string>
  {
    if name == "dangerous_rm" then
      ["Use specific paths instead of wildcards", "Consider using 'trash' or 'safe-rm' instead"]
    else if name == "sudo_usage" then ["Explain why elevated privileges are needed"]
    else if name == "disk_operations" then ["Use file-level operations instead"]
    else []
  }

  // ---------------------------------------------------------------- classification

  predicate Matches(isMatch: Matcher, g: GuardrailRule, command: string)
  {
    isMatch(g.pattern, command)
  }

  /** The rules that match the command, in rule order. */
  function Matched(isMatch: Matcher, rules: seq<GuardrailRule>, command: string): seq<GuardrailRule>
  {
    if rules == [] then []
    else
      var last := rules[|rules| - 1];
      Matched(isMatch, rules[..|rules| - 1], command) + (if Matches(isMatch, last, command) then [last] else [])
  }

  /** The running maximum of the matched rules' risks, starting from Low and
      replaced only by a strictly higher rank. It is at least every matched
      risk, and it is Low or the risk of some matched rule. */
  function MaxRisk(isMatch: Matcher, rules: seq<GuardrailRule>, command: string): (r: RiskLevel)
    ensures forall i :: 0 <= i < |rules| && Matches(isMatch, rules[i], command) ==> Rank(rules[i].riskLevel) <= Rank(r)
    ensures r == Low || exists i :: 0 <= i < |rules| && Matches(isMatch, rules[i], command) && rules[i].riskLevel == r
  {
    if rules == [] then Low
    else
      var init := rules[..|rules| - 1];
      var last := rules[|rules| - 1];
      var r := MaxRisk(isMatch, init, command);
      assert forall i :: 0 <= i < |init| ==> init[i] == rules[i];
      if Matches(isMatch, last, command) && Rank(last.riskLevel) > Rank(r) then last.riskLevel else r
  }

  /** One issue per matched rule, in rule order. */
  function Issues(isMatch: Matcher, rules: seq<GuardrailRule>, command: string): seq<string>
  {
    if rules == [] then []
    else
      var last := rules[|rules| - 1];
      Issues(isMatch, rules[..|rules| - 1], command) + (if Matches(isMatch, last, command) then [IssueText(last)] else [])
  }

  /** The matched rules' advice, concatenated in rule order. */
  function Suggestions(isMatch: Matcher, rules: seq<GuardrailRule>, command: string): seq<string>
  {
    if rules == [] then []
    else
      var last := rules[|rules| - 1];
      Suggestions(isMatch, rules[..|rules| - 1], command) + (if Matches(isMatch, last, command) then SuggestionsFor(last.name) else [])
  }

  /** The analysis `analyze_command` returns: safe exactly when the risk is at
      most Medium. */
  function Classify(isMatch: Matcher, rules: seq<GuardrailRule>, command: string): (a: SecurityAnalysis)
    ensures a.safe <==> Rank(a.riskLevel) <= Rank(Medium)
    ensures forall i :: 0 <= i < |rules| && Matches(isMatch, rules[i], command) ==> Rank(rules[i].riskLevel) <= Rank(a.riskLevel)
  {
    var risk := MaxRisk(isMatch, rules, command);
    SecurityAnalysis(Rank(risk) <= Rank(Medium), risk, Issues(isMatch, rules, command), Suggestions(isMatch, rules, command))
  }

  // ---------------------------------------------------------------- properties

  lemma InitIsPrefix(rules: seq<GuardrailRule>)
    requires rules != []
    ensures forall i :: 0 <= i < |rules| - 1 ==> rules[..|rules| - 1][i] == rules[i]
  {
  }

  /** When no rule matches, the command is safe at risk Low with no issues
      and no suggestions. */
  lemma {:induction false} NoMatchIsSafe(isMatch: Matcher, rules: seq<GuardrailRule>, command: string)
    requires forall i :: 0 <= i < |rules| ==> !Matches(isMatch, rules[i], command)
    ensures Classify(isMatch, rules, command) == SecurityAnalysis(true, Low, [], [])
    decreases |rules|
  {
    if rules != [] {
      InitIsPrefix(rules);
      NoMatchIsSafe(isMatch, rules[..|rules| - 1], command);
    }
  }

  /** The issues are the matched rules' texts, one each, in rule order. */
  lemma {:induction false} IssuesPerMatchedRule(isMatch: Matcher, rules: seq<GuardrailRule>, command: string)
    ensures |Issues(isMatch, rules, command)| == |Matched(isMatch, rules, command)|
    ensures forall k :: 0 <= k < |Matched(isMatch, rules, command)| ==>
      Issues(isMatch, rules, command)[k] == IssueText(Matched(isMatch, rules, command)[k])
    decreases |rules|
  {
    if rules != [] {
      IssuesPerMatchedRule(isMatch, rules[..|rules| - 1], command);
    }
  }

  /** Every matched rule is one of the rules, and every rule that matches is
      among them. */
  lemma {:induction false} MatchedAreTheMatchingRules(isMatch: Matcher, rules: seq<GuardrailRule>, command: string, g: GuardrailRule)
    ensures g in Matched(isMatch, rules, command) <==> g in rules && Matches(isMatch, g, command)
    decreases |rules|
  {
    if rules != [] {
      var init := rules[..|rules| - 1];
      MatchedAreTheMatchingRules(isMatch, init, command, g);
      assert rules == init + [rules[|rules| - 1]];
    }
  }

  /** The risk depends on the set of rules only: reordering the rules leaves
      it unchanged. */
  lemma RiskIndependentOfOrder(isMatch: Matcher, rules1: seq<GuardrailRule>, rules2: seq<GuardrailRule>, command: string)
    requires multiset(rules1) == multiset(rules2)
    ensures MaxRisk(isMatch, rules1, command) == MaxRisk(isMatch, rules2, command)
  {
    var r1 := MaxRisk(isMatch, rules1, command);
    var r2 := MaxRisk(isMatch, rules2, command);
    RiskBoundedBy(isMatch, rules2, rules1, command);
    RiskBoundedBy(isMatch, rules1, rules2, command);
    RankInjective(r1, r2);
  }

  /** When every rule of `small` is a rule of `big`, the risk over `small` is
      at most the risk over `big`. */
  lemma RiskBoundedBy(isMatch: Matcher, small: seq<GuardrailRule>, big: seq<GuardrailRule>, command: string)
    requires multiset(small) == multiset(big)
    ensures Rank(MaxRisk(isMatch, small, command)) <= Rank(MaxRisk(isMatch, big, command))
  {
    var r := MaxRisk(isMatch, small, command);
    if r != Low {
      var i :| 0 <= i < |small| && Matches(isMatch, small[i], command) && small[i].riskLevel == r;
      assert small[i] in multiset(big);
      var j :| 0 <= j < |big| && big[j] == small[i];
    }
  }

  /** A matching Critical rule makes the command Critical and unsafe. */
  lemma CriticalDominates(isMatch: Matcher, rules: seq<GuardrailRule>, command: string, i: nat)
    requires i < |rules| && rules[i].riskLevel == Critical && Matches(isMatch, rules[i], command)
    ensures Classify(isMatch, rules, command).riskLevel == Critical
    ensures !Classify(isMatch, rules, command).safe
  {
  }

  /** A further rule appends its issue and advice after the existing ones and
      never lowers the risk. */
  lemma AppendedRuleExtends(isMatch: Matcher, rules: seq<GuardrailRule>, g: GuardrailRule, command: string)
    ensures Issues(isMatch, rules + [g], command)
         == Issues(isMatch, rules, command) + (if Matches(isMatch, g, command) then [IssueText(g)] else [])
    ensures Suggestions(isMatch, rules + [g], command)
         == Suggestions(isMatch, rules, command) + (if Matches(isMatch, g, command) then SuggestionsFor(g.name) else [])
    ensures Rank(MaxRisk(isMatch, rules, command)) <= Rank(MaxRisk(isMatch, rules + [g], command))
  {
    assert (rules + [g])[..|rules|] == rules;
  }

  /** A rule other than the three advising ones adds no suggestion. */
  lemma SuggestionCounts(name: string)
    ensures |SuggestionsFor(name)| == if name == "dangerous_rm" then 2
      else if name == "sudo_usage" || name == "disk_operations" then 1 else 0
  {
  }

  /** "rm -rf /": the dangerous_rm rule matches, so the result is Critical,
      unsafe, with an issue. */
  lemma DangerousRmIsCritical(isMatch: Matcher)
    requires Matches(isMatch, DefaultRules[0], "rm -rf /")
    ensures Classify(isMatch, DefaultRules, "rm -rf /").riskLevel == Critical
    ensures !Classify(isMatch, DefaultRules, "rm -rf /").safe
    ensures Classify(isMatch, DefaultRules, "rm -rf /").issues != []
  {
    CriticalDominates(isMatch, DefaultRules, "rm -rf /", 0);
    IssuesPerMatchedRule(isMatch, DefaultRules, "rm -rf /");
    MatchedAreTheMatchingRules(isMatch, DefaultRules, "rm -rf /", DefaultRules[0]);
  }

  /** "sudo apt update": sudo_usage matches and no Critical rule does, so the
      result is High and unsafe. */
  lemma SudoIsHigh(isMatch: Matcher)
    requires Matches(isMatch, DefaultRules[1], "sudo apt update")
    requires !Matches(isMatch, DefaultRules[0], "sudo apt update")
    requires !Matches(isMatch, DefaultRules[2], "sudo apt update")
    requires !Matches(isMatch, DefaultRules[5], "sudo apt update")
    ensures Classify(isMatch, DefaultRules, "sudo apt update").riskLevel == High
    ensures !Classify(isMatch, DefaultRules, "sudo apt update").safe
  {
    var c := "sudo apt update";
    var r := MaxRisk(isMatch, DefaultRules, c);
    assert Rank(r) >= 2;
  }

  // ---------------------------------------------------------------- the rule set

  /** `Guardrails`: the ordered rule list. */
  class Guardrails {
    var rules: seq<GuardrailRule>

    /** `new`: the default rules. */
    constructor ()
      ensures rules == DefaultRules
    {
      rules := DefaultRules;
    }

    /** `analyze_command`: one pass over the rules in order. */
    method AnalyzeCommand(isMatch: Matcher, command: string) returns (a: SecurityAnalysis)
      ensures a == Classify(isMatch, rules, command)
    {
      var issues: seq<string> := [];
      var suggestions: seq<string> := [];
      var maxRisk := Low;
      for i := 0 to |rules|
        invariant issues == Issues(isMatch, rules[..i], command)
        invariant suggestions == Suggestions(isMatch, rules[..i], command)
        invariant maxRisk == MaxRisk(isMatch, rules[..i], command)
      {
        assert rules[..i + 1][..i] == rules[..i];
        var rule := rules[i];
        if isMatch(rule.pattern, command) {
          issues := issues + [IssueText(rule)];
          if Rank(rule.riskLevel) > Rank(maxRisk) {
            maxRisk := rule.riskLevel;
          }
          suggestions := suggestions + SuggestionsFor(rule.name);
        }
      }
      assert rules[..|rules|] == rules;
      var safe := Rank(maxRisk) <= Rank(Medium);
      a := SecurityAnalysis(safe, maxRisk, issues, suggestions);
    }

    /** `add_rule`: the rule goes last, the others stay as they were. */
    method AddRule(rule: GuardrailRule)
      modifies this
      ensures rules == old(rules) + [rule]
    {
      rules := rules + [rule];
    }
  }
}
