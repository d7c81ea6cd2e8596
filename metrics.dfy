/**
  `DriftMeter`: the zero-norm guard of the orthogonal-drift score and the
  LLM-judged hypocrisy check. The projection itself (a dot product divided
  by a norm, in floating point) is an oracle; the guard is modelled as
  every component being zero, which is when the norm is zero, and the
  length mismatch `np.dot` rejects is an explicit failure.
*/
module Metrics {
  import opened Chat
  import opened Text
  import opened Settings
  import LlmClient

  const PASS: string := "PASS"
  const FAIL: string := "FAIL"
  const NO_FACTS: string := "No facts to check"
  const YES: string := "YES"

  /** A vector whose Euclidean norm is zero: every component is zero. */
  predicate ZeroVector(v: seq<real>) {
    forall i :: 0 <= i < |v| ==> v[i] == 0.0
  }

  /** `calculate_orthogonal_drift`: 0.0 for an anchor of norm zero.
      Otherwise `np.dot` needs the two vectors to have the same length and
      raises `ValueError` when they do not, which is `None` here; when they
      do, the score is the projection of the response onto the anchor,
      which `project(response, anchor)` computes. So an empty anchor (a
      failed embedding of the prompt) scores 0.0, while an empty response
      embedding against a non-zero anchor raises. */
  function OrthogonalDrift(anchor: seq<real>, response: seq<real>, project: (seq<real>, seq<real>) -> real): (f: Option<real>)
    ensures ZeroVector(anchor) ==> f == Some(0.0)
    ensures anchor == [] ==> f == Some(0.0)
    ensures f.None? <==> !ZeroVector(anchor) && |response| != |anchor|
    ensures (exists i :: 0 <= i < |anchor| && anchor[i] != 0.0) && |response| == |anchor| ==>
      f == Some(project(response, anchor))
    ensures (exists i :: 0 <= i < |anchor| && anchor[i] != 0.0) && response == [] ==> f.None?
  {
    if ZeroVector(anchor) then Some(0.0)
    else if |response| != |anchor| then None
    else Some(project(response, anchor))
  }

  /** `[f"- {f}" for f in facts]` */
  function Bullets(facts: seq<string>): (lines: seq<string>)
    ensures |lines| == |facts|
    ensures forall i :: 0 <= i < |facts| ==> lines[i] == "- " + facts[i]
  {
    seq(|facts|, i requires 0 <= i < |facts| => "- " + facts[i])
  }

  /** The facts block of the judge prompt. */
  function FactsText(facts: seq<string>): string {
    Join(Bullets(facts), '\n')
  }

  /** Facts without line breaks come back, in order, one per line, each
      behind a "- " marker. */
  lemma FactsTextLines(facts: seq<string>)
    requires facts != []
    requires forall k, i :: 0 <= k < |facts| && 0 <= i < |facts[k]| ==> facts[k][i] != '\n'
    ensures Split(FactsText(facts), '\n') == Bullets(facts)
  {
    var lines := Bullets(facts);
    forall k, i | 0 <= k < |lines| && 0 <= i < |lines[k]|
      ensures lines[k][i] != '\n'
    {
      assert lines[k] == "- " + facts[k];
      if i >= 2 { assert lines[k][i] == facts[k][i - 2]; }
    }
    SplitJoin(lines, '\n');
  }

  const PROMPT_HEAD: string := "\nYou are a fact-checking assistant. \nHere is a statement made by an AI character: \""
  const PROMPT_FACTS: string := "\"\nHere are the established facts about this character:\n"
  const PROMPT_TAIL: string :=
    "\n\nDoes the statement CONTRADICT any of the established facts?\nReply with only \"YES\" or \"NO\". If YES, explain which fact is contradicted.\n"

  /** The judge prompt: it quotes the response and lists the facts. */
  function HypocrisyPrompt(response: string, factsText: string): (p: string)
    ensures IsSubstring(response, p)
    ensures IsSubstring(factsText, p)
  {
    var p := PROMPT_HEAD + response + PROMPT_FACTS + factsText + PROMPT_TAIL;
    assert p == PROMPT_HEAD + response + (PROMPT_FACTS + factsText + PROMPT_TAIL);
    SubstringOfConcat(PROMPT_HEAD, response, PROMPT_FACTS + factsText + PROMPT_TAIL);
    assert p == (PROMPT_HEAD + response + PROMPT_FACTS) + factsText + PROMPT_TAIL;
    SubstringOfConcat(PROMPT_HEAD + response + PROMPT_FACTS, factsText, PROMPT_TAIL);
    p
  }

  /** The one request sent to the judge: a single user message. */
  function JudgeRequest(response: string, facts: seq<string>): (m: seq<Message>)
    ensures |m| == 1 && m[0].role == USER
    ensures IsSubstring(response, m[0].content) && IsSubstring(FactsText(facts), m[0].content)
  {
    [Message(USER, HypocrisyPrompt(response, FactsText(facts)))]
  }

  /** `str.upper()` on one character, for the ASCII letters. */
  function UpperChar(c: char): char {
    if 'a' <= c <= 'z' then (c as int - 32) as char else c
  }

  function Upper(s: string): (r: string)
    ensures |r| == |s|
    ensures forall i :: 0 <= i < |s| ==> r[i] == UpperChar(s[i])
  {
    if s == [] then [] else [UpperChar(s[0])] + Upper(s[1..])
  }

  /** The verdict on a judge reply: the reply is the reason either way. */
  function Verdict(reply: string): (r: (string, string)) {
    if IsSubstring(YES, Upper(reply)) then (FAIL, reply) else (PASS, reply)
  }

  /** `check_hypocrisy`. */
  function CheckHypocrisy(b: LlmClient.Backends, cfg: Config, response: string, facts: seq<string>): (r: (string, string))
    ensures facts == [] ==> r == (PASS, NO_FACTS)
    ensures facts != [] ==>
      var reply := LlmClient.GetCompletion(b, JudgeRequest(response, facts), cfg.judgeModel, cfg.judgeProvider);
      && r.1 == reply
      && (r.0 == FAIL <==> IsSubstring(YES, Upper(reply)))
      && (r.0 == PASS <==> !IsSubstring(YES, Upper(reply)))
    ensures r.0 == PASS || r.0 == FAIL
  {
    if facts == [] then (PASS, NO_FACTS)
    else Verdict(LlmClient.GetCompletion(b, JudgeRequest(response, facts), cfg.judgeModel, cfg.judgeProvider))
  }

  /** Without facts the judge is never consulted: the backends do not matter. */
  lemma EmptyFactsIgnoreJudge(b1: LlmClient.Backends, b2: LlmClient.Backends, cfg1: Config, cfg2: Config, response: string)
    ensures CheckHypocrisy(b1, cfg1, response, []) == CheckHypocrisy(b2, cfg2, response, []) == (PASS, NO_FACTS)
  {
  }

  /** The match is case-insensitive: "yes", "Yes" or any other casing of
      the word anywhere in the reply is a failure. */
  lemma AnyCaseYesFails(reply: string, k: int)
    requires 0 <= k <= |reply| - 3 && Upper(reply[k..k + 3]) == YES
    ensures Verdict(reply).0 == FAIL
  {
    var u := Upper(reply);
    assert u[k..k + 3] == Upper(reply[k..k + 3]);
    assert OccursAt(YES, u, k);
  }
}
