/**
  `IGRCGuardrail`: the two-stage drift decision (an NLI contradiction
  first, then a similarity floor) and the bounded generate, check and
  rewrite loop. The guardrail's two local models are oracles; the loop is
  a method proved against the recursive function `Attempts`.
*/
module Igrc {
  import opened Chat
  import opened Text
  import opened Nli
  import LlmClient

  /** What the guardrail was built with. `nli(premise, hypothesis)` is the
      cross-encoder's label scores for one pair; `similarity(a, b)` is the
      cosine similarity of the two sentence embeddings; `showScore` renders
      a similarity with two decimals. */
  datatype Guardrail = Guardrail(
    nli: (string, string) -> Scores,
    similarity: (string, string) -> real,
    showScore: real -> string)

  const SIM_THRESHOLD: real := 0.4
  const CONTRADICTION_REASON: string := "Factual Contradiction detected against persona profile."
  const STYLE_REASON: string := "Stylistic Drift detected (Similarity: "
  const PASS_REASON: string := "Pass"

  /** `check_drift(draft, anchor)`: whether the draft drifts, and why. */
  function CheckDrift(g: Guardrail, draft: string, anchor: string): (r: (bool, string))
    ensures Argmax(g.nli(anchor, draft)) == CONTRADICTION ==> r == (true, CONTRADICTION_REASON)
    ensures Argmax(g.nli(anchor, draft)) != CONTRADICTION && g.similarity(anchor, draft) < SIM_THRESHOLD ==>
      r.0 && StartsWith(r.1, STYLE_REASON)
    ensures Argmax(g.nli(anchor, draft)) != CONTRADICTION && g.similarity(anchor, draft) >= SIM_THRESHOLD ==>
      r == (false, PASS_REASON)
  {
    if Argmax(g.nli(anchor, draft)) == CONTRADICTION then (true, CONTRADICTION_REASON)
    else
      var sim := g.similarity(anchor, draft);
      if sim < SIM_THRESHOLD then (true, STYLE_REASON + g.showScore(sim) + " < 0.4)")
      else (false, PASS_REASON)
  }

  /** A draft drifts exactly when the NLI model calls it a contradiction or
      its similarity is under the floor, and "Pass" is the reason exactly
      when it does not drift. */
  lemma DriftIff(g: Guardrail, draft: string, anchor: string)
    ensures CheckDrift(g, draft, anchor).0 <==>
      Argmax(g.nli(anchor, draft)) == CONTRADICTION || g.similarity(anchor, draft) < SIM_THRESHOLD
    ensures CheckDrift(g, draft, anchor).1 == PASS_REASON <==> !CheckDrift(g, draft, anchor).0
  {
    var r := CheckDrift(g, draft, anchor);
    if r.0 && r.1 != CONTRADICTION_REASON {
      assert r.1[0] == 'S';
    }
  }

  const CRITIQUE_HEAD: string :=
    "You are a Persona Consistency Auditor.\nYour previous response failed a consistency check.\nReason: "
  const DRAFT_LABEL: string := "\nOriginal Draft: "
  const TRUTH_LABEL: string := "\n\nCore Persona Truth: "
  const CRITIQUE_TASK: string :=
    "\n\nTask: Rewrite the response to be consistent with the Core Persona Truth. "
    + "Maintain the conversation flow but fix the error."

  /** The critique prompt: it carries the failure reason, the rejected
      draft and the anchor profile. */
  function Critique(reason: string, draft: string, anchor: string): (p: string)
    ensures IsSubstring(reason, p) && IsSubstring(draft, p) && IsSubstring(anchor, p)
  {
    FillMentions(CRITIQUE_HEAD, reason, DRAFT_LABEL, draft, TRUTH_LABEL, anchor, CRITIQUE_TASK);
    Fill(CRITIQUE_HEAD, reason, DRAFT_LABEL, draft, TRUTH_LABEL, anchor, CRITIQUE_TASK)
  }

  /** A correction request: the critique as the only message, with none of
      the conversation. */
  function Correction(reason: string, draft: string, anchor: string): (m: seq<Message>)
    ensures |m| == 1 && m[0].role == SYSTEM
  {
    [Message(SYSTEM, Critique(reason, draft, anchor))]
  }

  /** The returned information. `failedToFix` stands for the key that is
      only present, and `True`, when every check failed. */
  datatype Info = Info(corrected: bool, retries: int, failedToFix: bool)

  /** What the loop does from attempt `attempt` on, with `draft` not yet
      checked: the text and information it returns, the drafts it checks
      and the correction requests it sends, in order. */
  datatype Trace = Trace(text: string, info: Info, checked: seq<string>, corrections: seq<seq<Message>>)

  /** The loop for any drift check `check` (a verdict and a reason per
      draft), any way `fix(reason, draft)` of writing the correction
      request, and any completion function. */
  function Attempts(check: string -> (bool, string), fix: (string, string) -> seq<Message>,
                    complete: seq<Message> -> string, maxRetries: int, draft: string, attempt: nat): Trace
    decreases maxRetries + 1 - attempt
  {
    if attempt > maxRetries then Trace(draft, Info(true, maxRetries, true), [], [])
    else
      var verdict := check(draft);
      if !verdict.0 then Trace(draft, Info(attempt > 0, attempt, false), [draft], [])
      else
        var c := fix(verdict.1, draft);
        var rest := Attempts(check, fix, complete, maxRetries, complete(c), attempt + 1);
        Trace(rest.text, rest.info, [draft] + rest.checked, [c] + rest.corrections)
  }

  /** The guardrail's own check and correction request, against `anchor`. */
  function Check(g: Guardrail, anchor: string): string -> (bool, string) {
    draft => CheckDrift(g, draft, anchor)
  }

  function Fix(anchor: string): (string, string) -> seq<Message> {
    (reason, draft) => Correction(reason, draft, anchor)
  }

  /** `recursive_generate` as a value: the first draft answers the whole
      history, then the loop. */
  function Generate(g: Guardrail, complete: seq<Message> -> string, history: seq<Message>, anchor: string,
                    maxRetries: int): Trace
  {
    Attempts(Check(g, anchor), Fix(anchor), complete, maxRetries, complete(history), 0)
  }

  /** At most one check per remaining attempt, and one correction request
      per failed check; when the fix fails, every remaining attempt was
      checked. */
  lemma {:induction false} AttemptsCount(check: string -> (bool, string), fix: (string, string) -> seq<Message>,
                                        complete: seq<Message> -> string, maxRetries: int, draft: string, attempt: nat)
    ensures var t := Attempts(check, fix, complete, maxRetries, draft, attempt);
      && |t.checked| <= (if maxRetries + 1 - attempt >= 0 then maxRetries + 1 - attempt else 0)
      && |t.corrections| == |t.checked| - (if t.info.failedToFix then 0 else 1)
      && (t.info.failedToFix && attempt <= maxRetries + 1 ==> |t.checked| == maxRetries + 1 - attempt)
    decreases maxRetries + 1 - attempt
  {
    if attempt <= maxRetries {
      var verdict := check(draft);
      if verdict.0 {
        AttemptsCount(check, fix, complete, maxRetries, complete(fix(verdict.1, draft)), attempt + 1);
      }
    }
  }

  /** Every check but a passing last one failed; each failed check sent the
      correction request for that draft and its reason, and the answer to it
      is the next draft. */
  lemma {:induction false} AttemptsChain(check: string -> (bool, string), fix: (string, string) -> seq<Message>,
                                        complete: seq<Message> -> string, maxRetries: int, draft: string, attempt: nat)
    ensures var t := Attempts(check, fix, complete, maxRetries, draft, attempt);
      && (t.checked != [] ==> t.checked[0] == draft)
      && |t.corrections| <= |t.checked|
      && (forall i :: 0 <= i < |t.corrections| ==>
            check(t.checked[i]).0 && t.corrections[i] == fix(check(t.checked[i]).1, t.checked[i]))
      && (forall i :: 0 <= i < |t.corrections| && i + 1 < |t.checked| ==>
            t.checked[i + 1] == complete(t.corrections[i]))
    decreases maxRetries + 1 - attempt
  {
    if attempt <= maxRetries {
      var verdict := check(draft);
      if verdict.0 {
        var c := fix(verdict.1, draft);
        var rest := Attempts(check, fix, complete, maxRetries, complete(c), attempt + 1);
        AttemptsChain(check, fix, complete, maxRetries, complete(c), attempt + 1);
        var t := Attempts(check, fix, complete, maxRetries, draft, attempt);
        assert t.checked == [draft] + rest.checked && t.corrections == [c] + rest.corrections;
        forall i | 0 <= i < |t.corrections|
          ensures check(t.checked[i]).0 && t.corrections[i] == fix(check(t.checked[i]).1, t.checked[i])
        {
          if i > 0 {
            assert t.checked[i] == rest.checked[i - 1] && t.corrections[i] == rest.corrections[i - 1];
          }
        }
        forall i | 0 <= i < |t.corrections| && i + 1 < |t.checked|
          ensures t.checked[i + 1] == complete(t.corrections[i])
        {
          if i > 0 {
            assert t.checked[i + 1] == rest.checked[i] && t.corrections[i] == rest.corrections[i - 1];
          }
        }
      }
    }
  }

  /** What the loop can return: either a text that passed its check, with
      `corrected` saying whether a rewrite was needed and `retries` how many
      (one fewer than the drafts checked from this attempt on), or, once the checks are used up, whatever the last rewrite produced,
      which no check has seen. */
  lemma {:induction false} AttemptsOutcome(check: string -> (bool, string), fix: (string, string) -> seq<Message>,
                                          complete: seq<Message> -> string, maxRetries: int, draft: string, attempt: nat)
    ensures var t := Attempts(check, fix, complete, maxRetries, draft, attempt);
      && (t.info.failedToFix ==>
            && t.info.corrected && t.info.retries == maxRetries
            && t.text == (if t.corrections == [] then draft else complete(t.corrections[|t.corrections| - 1])))
      && (!t.info.failedToFix ==>
            && attempt <= t.info.retries <= maxRetries
            && t.info.retries == attempt + |t.checked| - 1
            && t.info.corrected == (t.info.retries > 0)
            && t.checked != [] && t.text == t.checked[|t.checked| - 1]
            && !check(t.text).0)
    decreases maxRetries + 1 - attempt
  {
    if attempt <= maxRetries {
      var verdict := check(draft);
      if verdict.0 {
        AttemptsOutcome(check, fix, complete, maxRetries, complete(fix(verdict.1, draft)), attempt + 1);
      }
    }
  }

  /** One failed check of the guardrail, seen through `Check` and `Fix`. */
  lemma GuardrailStep(g: Guardrail, anchor: string, draft: string)
    ensures Check(g, anchor)(draft) == CheckDrift(g, draft, anchor)
    ensures Fix(anchor)(Check(g, anchor)(draft).1, draft) ==
            [Message(SYSTEM, Critique(CheckDrift(g, draft, anchor).1, draft, anchor))]
  {
  }

  /** For the guardrail itself: every correction request is the critique of
      a drifting draft (which carries its reason, the draft and the anchor)
      as the only message, and a text returned as fixed passed `check_drift`. */
  lemma GenerateChain(g: Guardrail, complete: seq<Message> -> string, history: seq<Message>, anchor: string,
                      maxRetries: int)
    ensures var t := Generate(g, complete, history, anchor, maxRetries);
      && (t.checked != [] ==> t.checked[0] == complete(history))
      && |t.corrections| <= |t.checked|
      && (forall i :: 0 <= i < |t.corrections| ==>
            && CheckDrift(g, t.checked[i], anchor).0
            && t.corrections[i] == [Message(SYSTEM, Critique(CheckDrift(g, t.checked[i], anchor).1, t.checked[i], anchor))])
      && (!t.info.failedToFix ==> !CheckDrift(g, t.text, anchor).0)
  {
    var t := Generate(g, complete, history, anchor, maxRetries);
    AttemptsChain(Check(g, anchor), Fix(anchor), complete, maxRetries, complete(history), 0);
    AttemptsOutcome(Check(g, anchor), Fix(anchor), complete, maxRetries, complete(history), 0);
    forall i | 0 <= i < |t.corrections|
      ensures && CheckDrift(g, t.checked[i], anchor).0
              && t.corrections[i] == [Message(SYSTEM, Critique(CheckDrift(g, t.checked[i], anchor).1, t.checked[i], anchor))]
    {
      GuardrailStep(g, anchor, t.checked[i]);
    }
    if !t.info.failedToFix {
      assert Check(g, anchor)(t.text) == CheckDrift(g, t.text, anchor);
    }
  }

  /** A first draft that passes is returned as it is, uncorrected, after
      one check and no correction. */
  lemma FirstDraftPasses(g: Guardrail, complete: seq<Message> -> string, history: seq<Message>, anchor: string,
                         maxRetries: int)
    requires maxRetries >= 0
    requires !CheckDrift(g, complete(history), anchor).0
    ensures Generate(g, complete, history, anchor, maxRetries) ==
            Trace(complete(history), Info(false, 0, false), [complete(history)], [])
  {
  }

  /** A negative retry budget runs no check at all: the first draft comes
      back marked as a failed fix. */
  lemma NoBudgetNoCheck(g: Guardrail, complete: seq<Message> -> string, history: seq<Message>, anchor: string,
                        maxRetries: int)
    requires maxRetries < 0
    ensures Generate(g, complete, history, anchor, maxRetries) ==
            Trace(complete(history), Info(true, maxRetries, true), [], [])
  {
  }

  /** `recursive_generate`. `checked` lists the drafts that went through
      `check_drift`, in order; `requests` lists the message lists sent for
      completion, in order: the history first, then one critique per failed
      check. What these traces satisfy is stated by `AttemptsCount`,
      `AttemptsChain`, `AttemptsOutcome` and `GenerateChain` about
      `Generate`. */
  method RecursiveGenerate(g: Guardrail, b: LlmClient.Backends, history: seq<Message>, anchor: string,
                           model: string, provider: string, maxRetries: int)
    returns (text: string, info: Info, ghost checked: seq<string>, ghost requests: seq<seq<Message>>)
    ensures |requests| >= 1 && requests[0] == history
    ensures Generate(g, LlmClient.Completer(b, model, provider), history, anchor, maxRetries) ==
            Trace(text, info, checked, requests[1..])
    ensures |checked| <= (if maxRetries >= 0 then maxRetries + 1 else 0)
    ensures |requests| == |checked| + (if info.failedToFix then 1 else 0)
    ensures info.failedToFix ==> info.corrected && info.retries == maxRetries
    ensures info.failedToFix && maxRetries >= 0 ==> |checked| == maxRetries + 1
    ensures !info.failedToFix ==>
      && checked != [] && text == checked[|checked| - 1] && !CheckDrift(g, text, anchor).0
      && info.retries == |checked| - 1 && info.corrected == (info.retries > 0)
  {
    var complete := LlmClient.Completer(b, model, provider);
    var first := complete(history);
    ghost var corrections;
    text, info, checked, corrections := RefineLoop(Check(g, anchor), Fix(anchor), complete, first, maxRetries);
    requests := [history] + corrections;
    assert requests[1..] == corrections;
    AttemptsCount(Check(g, anchor), Fix(anchor), complete, maxRetries, first, 0);
    AttemptsOutcome(Check(g, anchor), Fix(anchor), complete, maxRetries, first, 0);
    if !info.failedToFix {
      assert Check(g, anchor)(text) == CheckDrift(g, text, anchor);
    }
  }

  /** The `for attempt` loop, for any check, correction request and
      completion function. */
  method RefineLoop(check: string -> (bool, string), fix: (string, string) -> seq<Message>,
                    complete: seq<Message> -> string, first: string, maxRetries: int)
    returns (text: string, info: Info, ghost checked: seq<string>, ghost corrections: seq<seq<Message>>)
    ensures Attempts(check, fix, complete, maxRetries, first, 0) == Trace(text, info, checked, corrections)
  {
    ghost var goal := Attempts(check, fix, complete, maxRetries, first, 0);
    var draft := first;
    checked, corrections := [], [];
    var attempt: nat := 0;
    while attempt <= maxRetries
      invariant maxRetries >= 0 ==> attempt <= maxRetries + 1
      invariant maxRetries < 0 ==> attempt == 0
      invariant var t := Attempts(check, fix, complete, maxRetries, draft, attempt);
        t.text == goal.text && t.info == goal.info &&
        checked + t.checked == goal.checked && corrections + t.corrections == goal.corrections
      decreases maxRetries + 1 - attempt
    {
      ghost var t := Attempts(check, fix, complete, maxRetries, draft, attempt);
      var verdict := check(draft);
      if !verdict.0 {
        text, info := draft, Info(attempt > 0, attempt, false);
        checked := checked + [draft];
        return;
      }
      var correction := fix(verdict.1, draft);
      ghost var rest := Attempts(check, fix, complete, maxRetries, complete(correction), attempt + 1);
      assert checked + t.checked == (checked + [draft]) + rest.checked;
      assert corrections + t.corrections == (corrections + [correction]) + rest.corrections;
      checked := checked + [draft];
      corrections := corrections + [correction];
      draft := complete(correction);
      attempt := attempt + 1;
    }
    text, info := draft, Info(true, maxRetries, true);
  }
}
