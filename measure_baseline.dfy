/**
  The offline drift evaluator: it reads generated conversations, one JSON
  record per non-blank line, and scores every persona reply against the
  record's system prompt with a similarity model and an NLI model. The two
  models and the JSON decoder are oracles.
*/
module MeasureBaseline {
  import opened Chat
  import opened Text
  import opened Nli
  import opened Dialogue

  /** The fields of a generated record the evaluator reads; the system
      prompt is absent for records that do not carry one. */
  datatype ConversationRecord = ConversationRecord(id: string, role: string, systemPrompt: Option<string>, turns: seq<Message>)

  /** The evaluation models: cosine similarity of the two texts' sentence
      embeddings, and the NLI label scores of the (prompt, reply) pair. */
  datatype Evaluator = Evaluator(similarity: (string, string) -> real, nli: (string, string) -> Scores)

  datatype TurnMetric = TurnMetric(conversationId: string, role: string, turn: nat, fidelity: real, isContradiction: nat)

  /** The lines of the file that hold something besides whitespace. */
  function NonBlank(lines: seq<string>): seq<string> {
    if lines == [] then []
    else
      var last := lines[|lines| - 1];
      NonBlank(lines[..|lines| - 1]) + (if Strip(last) != "" then [last] else [])
  }

  /** The kept lines are exactly the lines that are not blank. */
  lemma {:induction false} NonBlankShape(lines: seq<string>)
    ensures |NonBlank(lines)| <= |lines|
    ensures forall i :: 0 <= i < |NonBlank(lines)| ==> Strip(NonBlank(lines)[i]) != ""
    ensures forall s :: s in NonBlank(lines) <==> s in lines && Strip(s) != ""
  {
    if lines != [] {
      var last := lines[|lines| - 1];
      NonBlankShape(lines[..|lines| - 1]);
      assert lines == lines[..|lines| - 1] + [last];
    }
  }

  /** Blank lines are dropped where they stand: the kept lines stay in
      file order. */
  lemma {:induction false} NonBlankAppend(a: seq<string>, b: seq<string>)
    ensures NonBlank(a + b) == NonBlank(a) + NonBlank(b)
  {
    if b == [] {
      assert a + b == a;
    } else {
      var init := b[..|b| - 1];
      assert (a + b)[..|a + b| - 1] == a + init;
      assert b[..|b| - 1] == init;
      NonBlankAppend(a, init);
    }
  }

  /** A file without blank lines is read line for line. */
  lemma {:induction false} NonBlankIdentity(lines: seq<string>)
    requires forall i :: 0 <= i < |lines| ==> Strip(lines[i]) != ""
    ensures NonBlank(lines) == lines
  {
    if lines != [] {
      NonBlankIdentity(lines[..|lines| - 1]);
      assert lines == lines[..|lines| - 1] + [lines[|lines| - 1]];
    }
  }

  function Parsed(parse: string -> ConversationRecord, lines: seq<string>): (r: seq<ConversationRecord>)
    ensures |r| == |lines| && forall i :: 0 <= i < |lines| ==> r[i] == parse(lines[i])
  {
    seq(|lines|, i requires 0 <= i < |lines| => parse(lines[i]))
  }

  /** Reading one more line adds its record exactly when it is not blank. */
  lemma LoadStep(parse: string -> ConversationRecord, lines: seq<string>, i: nat)
    requires i < |lines|
    ensures Parsed(parse, NonBlank(lines[..i + 1])) ==
            Parsed(parse, NonBlank(lines[..i])) + (if Strip(lines[i]) != "" then [parse(lines[i])] else [])
  {
    assert lines[..i + 1][..i] == lines[..i];
    var before := NonBlank(lines[..i]);
    if Strip(lines[i]) != "" {
      assert NonBlank(lines[..i + 1]) == before + [lines[i]];
      assert Parsed(parse, before + [lines[i]]) == Parsed(parse, before) + [parse(lines[i])];
    } else {
      assert NonBlank(lines[..i + 1]) == before + [];
      assert before + [] == before;
    }
  }

  /** `load_conversations`: one decoded record per non-blank line, in order. */
  method LoadConversations(parse: string -> ConversationRecord, lines: seq<string>) returns (data: seq<ConversationRecord>)
    ensures data == Parsed(parse, NonBlank(lines))
  {
    data := [];
    for i := 0 to |lines|
      invariant data == Parsed(parse, NonBlank(lines[..i]))
    {
      var line := lines[i];
      LoadStep(parse, lines, i);
      if Strip(line) != "" {
        data := data + [parse(line)];
      }
    }
    assert lines[..|lines|] == lines;
  }

  /** `1 if pred_label == LABEL_CONTRADICTION else 0` */
  function IsContradiction(scores: Scores): (flag: nat)
    ensures flag == 0 || flag == 1
  {
    if Argmax(scores) == CONTRADICTION then 1 else 0
  }

  /** The flag is set exactly when the contradiction score is not beaten by
      any other label's. */
  lemma IsContradictionIff(scores: Scores)
    ensures IsContradiction(scores) == 1 <==> forall j :: 0 <= j < |scores| ==> scores[j] <= scores[0]
    ensures IsContradiction(scores) == 0 <==> exists j :: 0 <= j < |scores| && scores[j] > scores[0]
  {
    ContradictionIff(scores);
  }

  /** The metric of the reply numbered `turn`. */
  function MetricOf(ev: Evaluator, rec: ConversationRecord, prompt: string, response: string, turn: nat): TurnMetric {
    TurnMetric(rec.id, rec.role, turn, ev.similarity(prompt, response), IsContradiction(ev.nli(prompt, response)))
  }

  /** The metrics of the replies, numbered from 1. */
  function Scored(ev: Evaluator, rec: ConversationRecord, prompt: string, responses: seq<string>): seq<TurnMetric> {
    if responses == [] then []
    else Scored(ev, rec, prompt, responses[..|responses| - 1]) +
         [MetricOf(ev, rec, prompt, responses[|responses| - 1], |responses|)]
  }

  /** One metric per reply, in order; metric `t` is turn `t + 1`, carries the
      record's id and role, and scores reply `t` against the prompt. */
  lemma {:induction false} ScoredShape(ev: Evaluator, rec: ConversationRecord, prompt: string, responses: seq<string>)
    ensures |Scored(ev, rec, prompt, responses)| == |responses|
    ensures forall t :: 0 <= t < |responses| ==>
      && Scored(ev, rec, prompt, responses)[t].turn == t + 1
      && Scored(ev, rec, prompt, responses)[t].conversationId == rec.id
      && Scored(ev, rec, prompt, responses)[t].role == rec.role
      && Scored(ev, rec, prompt, responses)[t].fidelity == ev.similarity(prompt, responses[t])
      && Scored(ev, rec, prompt, responses)[t].isContradiction == IsContradiction(ev.nli(prompt, responses[t]))
  {
    if responses != [] {
      ScoredShape(ev, rec, prompt, responses[..|responses| - 1]);
    }
  }

  /** `if not system_prompt`: an absent or empty prompt. */
  predicate HasPrompt(rec: ConversationRecord) {
    rec.systemPrompt.Some? && rec.systemPrompt.value != ""
  }

  /** What `evaluate_conversation` returns for a record. */
  function Evaluation(ev: Evaluator, rec: ConversationRecord): Option<seq<TurnMetric>> {
    if !HasPrompt(rec) then None
    else Some(Scored(ev, rec, rec.systemPrompt.value, AssistantContents(rec.turns)))
  }

  /** A record without a prompt has no result; one with a prompt has one
      metric per assistant message of its log. */
  lemma EvaluationShape(ev: Evaluator, rec: ConversationRecord)
    ensures Evaluation(ev, rec).None? <==> rec.systemPrompt == None || rec.systemPrompt == Some("")
    ensures Evaluation(ev, rec).Some? ==>
      |Evaluation(ev, rec).value| == |AssistantContents(rec.turns)| &&
      forall t :: 0 <= t < |AssistantContents(rec.turns)| ==>
        Evaluation(ev, rec).value[t] ==
        MetricOf(ev, rec, rec.systemPrompt.value, AssistantContents(rec.turns)[t], t + 1)
  {
    if HasPrompt(rec) {
      ScoredShape(ev, rec, rec.systemPrompt.value, AssistantContents(rec.turns));
    }
  }

  /** `evaluate_conversation` with its `turn_idx` counter. */
  method EvaluateConversation(ev: Evaluator, rec: ConversationRecord) returns (r: Option<seq<TurnMetric>>)
    ensures r == Evaluation(ev, rec)
  {
    if rec.systemPrompt.None? || rec.systemPrompt.value == "" {
      return None;
    }
    var systemPrompt := rec.systemPrompt.value;
    var metrics := [];
    var turnIdx := 1;
    var assistantTurns := AssistantContents(rec.turns);
    for i := 0 to |assistantTurns|
      invariant turnIdx == i + 1
      invariant metrics == Scored(ev, rec, systemPrompt, assistantTurns[..i])
    {
      var response := assistantTurns[i];
      var similarity := ev.similarity(systemPrompt, response);
      var nliScores := ev.nli(systemPrompt, response);
      var isContradiction := if Argmax(nliScores) == CONTRADICTION then 1 else 0;
      assert assistantTurns[..i + 1][..i] == assistantTurns[..i];
      metrics := metrics + [TurnMetric(rec.id, rec.role, turnIdx, similarity, isContradiction)];
      turnIdx := turnIdx + 1;
    }
    assert assistantTurns[..|assistantTurns|] == assistantTurns;
    r := Some(metrics);
  }

  /** The persona's replies after `k` iterations of the generation loop. */
  function Replies(persona: seq<Message> -> string, followup: seq<Message> -> string,
                   conv: seq<Message>, turns: int, k: nat): (r: seq<string>)
    ensures |r| == k
  {
    if k == 0 then [] else Replies(persona, followup, conv, turns, k - 1) + [persona(Run(persona, followup, conv, turns, k - 1))]
  }

  /** The assistant messages of a generated log are the persona's replies,
      in the order they were given. */
  lemma {:induction false} RunReplies(persona: seq<Message> -> string, followup: seq<Message> -> string,
                                      conv: seq<Message>, turns: int, k: nat)
    ensures AssistantContents(Run(persona, followup, conv, turns, k)) ==
            AssistantContents(conv) + Replies(persona, followup, conv, turns, k)
  {
    if k > 0 {
      RunReplies(persona, followup, conv, turns, k - 1);
      RepliesStep(persona, followup, conv, turns, k);
    } else {
      assert Run(persona, followup, conv, turns, 0) == conv;
      assert AssistantContents(conv) + [] == AssistantContents(conv);
    }
  }

  lemma RepliesStep(persona: seq<Message> -> string, followup: seq<Message> -> string,
                    conv: seq<Message>, turns: int, k: nat)
    requires k > 0
    requires AssistantContents(Run(persona, followup, conv, turns, k - 1)) ==
             AssistantContents(conv) + Replies(persona, followup, conv, turns, k - 1)
    ensures AssistantContents(Run(persona, followup, conv, turns, k)) ==
            AssistantContents(conv) + Replies(persona, followup, conv, turns, k)
  {
    var c := Run(persona, followup, conv, turns, k - 1);
    var before := Replies(persona, followup, conv, turns, k - 1);
    assert Replies(persona, followup, conv, turns, k) == before + [persona(c)];
    assert Run(persona, followup, conv, turns, k) == Turn(persona, followup, c, k - 1, turns);
    TurnReply(persona, followup, c, k - 1, turns);
    assert AssistantContents(conv) + before + [persona(c)] == AssistantContents(conv) + (before + [persona(c)]);
  }

  /** One iteration adds exactly the persona's reply to the assistant
      messages: the follow-up is a user message. */
  lemma TurnReply(persona: seq<Message> -> string, followup: seq<Message> -> string,
                  c: seq<Message>, turn: nat, turns: int)
    ensures AssistantContents(Turn(persona, followup, c, turn, turns)) == AssistantContents(c) + [persona(c)]
  {
    var answered := c + [Message(ASSISTANT, persona(c))];
    AssistantContentsSnoc(c, Message(ASSISTANT, persona(c)));
    if turn < turns - 1 {
      AssistantContentsSnoc(answered, Message(USER, followup(answered)));
    }
  }

  /** A baseline record, whose opening holds no assistant message, is
      scored once per turn of the run that produced it: metric `t` is turn
      `t + 1` and scores the reply given on that turn. */
  lemma OneMetricPerTurn(ev: Evaluator, rec: ConversationRecord, persona: seq<Message> -> string,
                         followup: seq<Message> -> string, start: seq<Message>, turns: int)
    requires HasPrompt(rec)
    requires AssistantContents(start) == []
    requires rec.turns == Conversation(persona, followup, start, turns)
    ensures Evaluation(ev, rec).Some?
    ensures |Evaluation(ev, rec).value| == TurnCount(turns)
    ensures forall t :: 0 <= t < TurnCount(turns) ==>
      Evaluation(ev, rec).value[t] ==
      MetricOf(ev, rec, rec.systemPrompt.value, persona(Run(persona, followup, start, turns, t)), t + 1)
  {
    RunReplies(persona, followup, start, turns, TurnCount(turns));
    EvaluationShape(ev, rec);
    assert AssistantContents(rec.turns) == Replies(persona, followup, start, turns, TurnCount(turns));
    forall t | 0 <= t < TurnCount(turns)
      ensures Replies(persona, followup, start, turns, TurnCount(turns))[t] == persona(Run(persona, followup, start, turns, t))
    {
      ReplyListed(persona, followup, start, turns, t, TurnCount(turns));
    }
  }

  lemma {:induction false} ReplyListed(persona: seq<Message> -> string, followup: seq<Message> -> string,
                                       conv: seq<Message>, turns: int, t: nat, k: nat)
    requires t < k
    ensures Replies(persona, followup, conv, turns, k)[t] == persona(Run(persona, followup, conv, turns, t))
  {
    if t < k - 1 {
      ReplyListed(persona, followup, conv, turns, t, k - 1);
    }
  }

  /** What `run` collects: the results of the conversations in file order,
      where a conversation without a result adds nothing. */
  function AllResults(ev: Evaluator, convs: seq<ConversationRecord>): seq<TurnMetric> {
    if convs == [] then []
    else
      var results := Evaluation(ev, convs[|convs| - 1]);
      AllResults(ev, convs[..|convs| - 1]) + (if results.Some? then results.value else [])
  }

  /** The collection is a concatenation: splitting the input splits the
      output. */
  lemma {:induction false} AllResultsAppend(ev: Evaluator, a: seq<ConversationRecord>, b: seq<ConversationRecord>)
    ensures AllResults(ev, a + b) == AllResults(ev, a) + AllResults(ev, b)
  {
    if b == [] {
      assert a + b == a;
    } else {
      assert (a + b)[..|a + b| - 1] == a + b[..|b| - 1];
      AllResultsAppend(ev, a, b[..|b| - 1]);
    }
  }

  /** A record without a system prompt contributes nothing, wherever it
      stands, and one with a prompt contributes its metrics in place. */
  lemma AllResultsOneRecord(ev: Evaluator, a: seq<ConversationRecord>, c: ConversationRecord, b: seq<ConversationRecord>)
    ensures !HasPrompt(c) ==> AllResults(ev, a + [c] + b) == AllResults(ev, a + b)
    ensures HasPrompt(c) ==>
      AllResults(ev, a + [c] + b) == AllResults(ev, a) + Evaluation(ev, c).value + AllResults(ev, b)
  {
    AllResultsAppend(ev, a + [c], b);
    AllResultsAppend(ev, a, [c]);
    AllResultsAppend(ev, a, b);
    assert [c][..0] == [];
  }

  /** `run`: load the file, evaluate every conversation, and gather the
      metrics; the table written out is this list. */
  method RunEvaluation(ev: Evaluator, parse: string -> ConversationRecord, lines: seq<string>)
    returns (allResults: seq<TurnMetric>)
    ensures allResults == AllResults(ev, Parsed(parse, NonBlank(lines)))
  {
    var conversations := LoadConversations(parse, lines);
    allResults := [];
    for i := 0 to |conversations|
      invariant allResults == AllResults(ev, conversations[..i])
    {
      var results := EvaluateConversation(ev, conversations[i]);
      assert conversations[..i + 1][..i] == conversations[..i];
      if results.Some? && results.value != [] {
        allResults := allResults + results.value;
      } else if results.Some? {
        assert allResults + results.value == allResults;
      }
    }
    assert conversations[..|conversations|] == conversations;
  }
}
