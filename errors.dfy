/** The error classifier (App.tsx:15-39): the lower-cased error message is
    tested against a fixed list of patterns, in order, and the first one
    found decides the message shown to the learner. */
module Errors {
  import opened Strings

  const DeviceNotFound := "Microphone not found. Please make sure your microphone is connected and try again."
  const AccessDenied := "Microphone access denied. Please enable microphone permissions in your browser settings for this site."
  const KeyMissing := "Gemini API key is missing. Please add your key in the AI Settings section."
  const KeyInvalid := "Invalid API Key. Please check your API key configuration."
  const QuotaExceeded := "You have exceeded your API quota. Please check your usage limits."
  const NetworkError := "Network error. Please check your internet connection and try again."
  const Overloaded := "The AI model is temporarily overloaded. Please try again in a few moments."
  const Unexpected := "An unexpected error occurred. Please try again."

  /** getFriendlyErrorMessage, as the chain of tests App.tsx writes. */
  function FriendlyErrorMessage(error: string): string
  {
    var message := ToLower(error);
    if Contains(message, "requested device not found") then DeviceNotFound
    else if Contains(message, "permission denied") then AccessDenied
    else if Contains(message, "api key not provided") then KeyMissing
    else if Contains(message, "api_key_invalid") || Contains(message, "api key not valid") then KeyInvalid
    else if Contains(message, "resource_exhausted") || Contains(message, "quota") then QuotaExceeded
    else if Contains(message, "failed to fetch") then NetworkError
    else if Contains(message, "model is overloaded") then Overloaded
    else Unexpected
  }

  // A reference definition: the same classifier as a table of rules.

  /** A rule applies when any of its patterns occurs in the message. */
  datatype Rule = Rule(patterns: seq<string>, text: string)

  const Rules: seq<Rule> := [
    Rule(["requested device not found"], DeviceNotFound),
    Rule(["permission denied"], AccessDenied),
    Rule(["api key not provided"], KeyMissing),
    Rule(["api_key_invalid", "api key not valid"], KeyInvalid),
    Rule(["resource_exhausted", "quota"], QuotaExceeded),
    Rule(["failed to fetch"], NetworkError),
    Rule(["model is overloaded"], Overloaded)
  ]

  predicate Applies(rule: Rule, message: string)
  {
    exists k :: 0 <= k < |rule.patterns| && Contains(message, rule.patterns[k])
  }

  /** The index of the first rule at or after `from` that applies, or -1. */
  function FirstRule(rules: seq<Rule>, message: string, from: nat): (i: int)
    requires from <= |rules|
    ensures i == -1 || (from <= i < |rules| && Applies(rules[i], message))
    ensures forall j :: from <= j < |rules| && (i == -1 || j < i) ==> !Applies(rules[j], message)
    decreases |rules| - from
  {
    if from == |rules| then -1
    else if Applies(rules[from], message) then from
    else FirstRule(rules, message, from + 1)
  }

  /** The text of the first applicable rule, or the generic text. */
  function Classify(error: string): string
  {
    var i := FirstRule(Rules, ToLower(error), 0);
    if i < 0 then Unexpected else Rules[i].text
  }

  lemma {:induction false} AppliesOne(p: string, text: string, message: string)
    ensures Applies(Rule([p], text), message) <==> Contains(message, p)
  {
    if Contains(message, p) {
      assert [p][0] == p;
    }
  }

  lemma {:induction false} AppliesTwo(p: string, q: string, text: string, message: string)
    ensures Applies(Rule([p, q], text), message) <==> Contains(message, p) || Contains(message, q)
  {
    var ps := [p, q];
    if Contains(message, p) {
      assert ps[0] == p;
    }
    if Contains(message, q) {
      assert ps[1] == q;
    }
  }

  /** Each of the first four rules of the table applies exactly when the
      test of the chain for it succeeds. */
  lemma {:induction false} FirstRulesMatchTests(message: string)
    ensures Applies(Rules[0], message) <==> Contains(message, "requested device not found")
    ensures Applies(Rules[1], message) <==> Contains(message, "permission denied")
    ensures Applies(Rules[2], message) <==> Contains(message, "api key not provided")
    ensures Applies(Rules[3], message) <==>
      Contains(message, "api_key_invalid") || Contains(message, "api key not valid")
  {
    AppliesOne("requested device not found", DeviceNotFound, message);
    AppliesOne("permission denied", AccessDenied, message);
    AppliesOne("api key not provided", KeyMissing, message);
    AppliesTwo("api_key_invalid", "api key not valid", KeyInvalid, message);
  }

  /** Each of the last three rules of the table applies exactly when the test
      of the chain for it succeeds. */
  lemma {:induction false} LastRulesMatchTests(message: string)
    ensures Applies(Rules[4], message) <==> Contains(message, "resource_exhausted") || Contains(message, "quota")
    ensures Applies(Rules[5], message) <==> Contains(message, "failed to fetch")
    ensures Applies(Rules[6], message) <==> Contains(message, "model is overloaded")
  {
    AppliesTwo("resource_exhausted", "quota", QuotaExceeded, message);
    AppliesOne("failed to fetch", NetworkError, message);
    AppliesOne("model is overloaded", Overloaded, message);
  }

  /** The chain of tests is the first-match table lookup, on every message. */
  lemma {:induction false} ChainIsTable(error: string)
    ensures FriendlyErrorMessage(error) == Classify(error)
  {
    var m := ToLower(error);
    FirstRulesMatchTests(m);
    LastRulesMatchTests(m);
    if Applies(Rules[0], m) {
      assert FirstRule(Rules, m, 0) == 0;
    } else if Applies(Rules[1], m) {
      assert FirstRule(Rules, m, 0) == 1;
    } else if Applies(Rules[2], m) {
      assert FirstRule(Rules, m, 0) == FirstRule(Rules, m, 2) == 2;
    } else if Applies(Rules[3], m) {
      assert FirstRule(Rules, m, 0) == FirstRule(Rules, m, 2) == 3;
    } else if Applies(Rules[4], m) {
      assert FirstRule(Rules, m, 0) == FirstRule(Rules, m, 2) == FirstRule(Rules, m, 4) == 4;
    } else if Applies(Rules[5], m) {
      assert FirstRule(Rules, m, 0) == FirstRule(Rules, m, 2) == FirstRule(Rules, m, 4) == 5;
    } else {
      assert FirstRule(Rules, m, 0) == FirstRule(Rules, m, 2) == FirstRule(Rules, m, 4) ==
        FirstRule(Rules, m, 6);
    }
  }

  /** The first applicable rule decides, whatever later rules say: the text
      is that of a rule that applies and no earlier rule applies. */
  lemma {:induction false} FirstMatchWins(error: string)
    requires Classify(error) != Unexpected
    ensures exists i :: (0 <= i < |Rules| && Applies(Rules[i], ToLower(error)) &&
      Classify(error) == Rules[i].text &&
      (forall j :: 0 <= j < i ==> !Applies(Rules[j], ToLower(error))))
  {
    var i := FirstRule(Rules, ToLower(error), 0);
    assert i >= 0;
  }

  /** A denied permission is reported as such even when the message also
      speaks of a quota. */
  lemma {:induction false} PermissionBeatsQuota(error: string)
    requires Contains(ToLower(error), "permission denied") && Contains(ToLower(error), "quota")
    requires !Contains(ToLower(error), "requested device not found")
    ensures FriendlyErrorMessage(error) == AccessDenied
  {
  }

  /** Both spellings of an invalid key give the same text. */
  lemma {:induction false} InvalidKeyEitherSpelling(error: string)
    requires Contains(ToLower(error), "api_key_invalid") || Contains(ToLower(error), "api key not valid")
    requires !Contains(ToLower(error), "requested device not found")
    requires !Contains(ToLower(error), "permission denied")
    requires !Contains(ToLower(error), "api key not provided")
    ensures FriendlyErrorMessage(error) == KeyInvalid
  {
  }

  /** The generic text is given exactly when no rule applies. */
  lemma {:induction false} GenericIffNoRule(error: string)
    ensures FriendlyErrorMessage(error) == Unexpected <==>
      forall j :: 0 <= j < |Rules| ==> !Applies(Rules[j], ToLower(error))
  {
    ChainIsTable(error);
    var i := FirstRule(Rules, ToLower(error), 0);
    if i >= 0 {
      assert Rules[i].text != Unexpected;
    }
  }

  /** Classification ignores the case of ASCII letters. */
  lemma {:induction false} CaseInsensitive(error: string)
    ensures FriendlyErrorMessage(ToLower(error)) == FriendlyErrorMessage(error)
  {
    ToLowerIdempotent(error);
  }
}
