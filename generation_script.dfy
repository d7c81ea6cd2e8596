/**
  The original multi-turn generation script: its own completion wrapper
  (the chat endpoint with a fixed model, no context window), its own user
  simulator, and a fixed run of 20 turns over the first ten dataset rows.
*/
module GenerationScript {
  import opened Chat
  import opened Text
  import opened Dialogue

  const MODEL_PERSONA: string := "gpt-4o"
  const MODEL_SIMULATOR: string := "gpt-4o-mini"
  const MAX_TURNS: int := 20
  const MAX_SAMPLES: nat := 10
  const ID_PREFIX: string := "rb_multi_"

  const INTRO: string := "You are a curious, skeptical user chatting with an AI playing the character '"
  const TOPIC_LABEL: string := "'. The topic is: "
  const GOAL: string := ". Your goal is to keep the conversation going for 20 turns. " +
    "Ask follow-up questions that challenge their persona or ask for specific details. " +
    "Do NOT be repetitive. React naturally to what they just said."

  /** The chat endpoint: model and messages to the reply's content. */
  type Endpoint = (string, seq<Message>) -> string

  /** The simulator's system prompt. */
  function Instruction(roleName: string, topic: string): string {
    Fill(INTRO, roleName, TOPIC_LABEL, topic, GOAL, "", "")
  }

  /** The prompt names the character and the topic. */
  lemma InstructionMentions(roleName: string, topic: string)
    ensures IsSubstring(roleName, Instruction(roleName, topic))
    ensures IsSubstring(topic, Instruction(roleName, topic))
  {
    FillMentions(INTRO, roleName, TOPIC_LABEL, topic, GOAL, "", "");
  }

  /** The simulator's request: its own system message, then the whole
      history, system message included. */
  function FollowupRequest(instruction: string, history: seq<Message>): (m: seq<Message>)
    ensures |m| == |history| + 1
    ensures m[0] == Message(SYSTEM, instruction)
    ensures m[1..] == history
  {
    [Message(SYSTEM, instruction)] + history
  }

  /** Unlike the package's simulator, nothing is filtered: a history that
      opens with the persona's prompt is sent with two system messages, the
      persona's prompt second. */
  lemma RequestKeepsPersonaPrompt(instruction: string, history: seq<Message>)
    requires history != [] && history[0].role == SYSTEM
    ensures FollowupRequest(instruction, history)[0].role == SYSTEM
    ensures FollowupRequest(instruction, history)[1] == history[0]
    ensures |NonSystem(FollowupRequest(instruction, history))| == |NonSystem(history)|
  {
    NonSystemAppend([Message(SYSTEM, instruction)], history);
    assert NonSystem([Message(SYSTEM, instruction)]) == [];
  }

  function Followup(chat: Endpoint, roleName: string, topic: string, history: seq<Message>): string {
    chat(MODEL_SIMULATOR, FollowupRequest(Instruction(roleName, topic), history))
  }

  /** The simulator of one row, as a function of the history. */
  function Asker(chat: Endpoint, roleName: string, topic: string): seq<Message> -> string {
    history => Followup(chat, roleName, topic, history)
  }

  /** The persona: the chat endpoint with the persona model. */
  function Persona(chat: Endpoint): seq<Message> -> string {
    conv => chat(MODEL_PERSONA, conv)
  }

  class UserSimulator {
    const roleName: string
    const topic: string

    constructor(roleName: string, topic: string)
      ensures this.roleName == roleName && this.topic == topic
    {
      this.roleName := roleName;
      this.topic := topic;
    }

    /** `generate_followup`: reads the last message (an empty history
        raises there), then asks the simulator model. */
    method GenerateFollowup(chat: Endpoint, history: seq<Message>) returns (reply: string)
      requires history != []
      ensures reply == Asker(chat, roleName, topic)(history)
    {
      var lastResponse := history[|history| - 1].content;
      var systemPrompt := Instruction(roleName, topic);
      var messages := [Message(SYSTEM, systemPrompt)] + history;
      reply := chat(MODEL_SIMULATOR, messages);
    }
  }

  method PersonaReply(chat: Endpoint, conversation: seq<Message>) returns (reply: string)
    ensures reply == Persona(chat)(conversation)
  {
    reply := chat(MODEL_PERSONA, conversation);
  }

  /** The turn loop of one row. */
  method Converse(chat: Endpoint, sim: UserSimulator, start: seq<Message>) returns (conversation: seq<Message>)
    ensures conversation == Conversation(Persona(chat), Asker(chat, sim.roleName, sim.topic), start, MAX_TURNS)
  {
    conversation := start;
    for turn := 0 to MAX_TURNS
      invariant conversation == Run(Persona(chat), Asker(chat, sim.roleName, sim.topic), start, MAX_TURNS, turn)
    {
      var personaResponse := PersonaReply(chat, conversation);
      conversation := conversation + [Message(ASSISTANT, personaResponse)];
      if turn < MAX_TURNS - 1 {
        var userFollowup := sim.GenerateFollowup(chat, conversation);
        conversation := conversation + [Message(USER, userFollowup)];
      }
    }
  }

  datatype Record = Record(id: string, role: string, baseInstruction: string, turns: seq<Message>)

  function RecordFor(chat: Endpoint, sample: Sample, i: nat): Record {
    Record(ID_PREFIX + NatToString(i), sample.role, sample.question,
           Conversation(Persona(chat), Asker(chat, sample.role, sample.question),
                        Start(SystemPrompt(sample), sample.question), MAX_TURNS))
  }

  /** The records of the first `n` rows. */
  function Records(chat: Endpoint, samples: seq<Sample>, n: nat): (recs: seq<Record>)
    requires n <= |samples|
    ensures |recs| == n
    ensures forall i :: 0 <= i < n ==> recs[i] == RecordFor(chat, samples[i], i)
  {
    if n == 0 then [] else Records(chat, samples, n - 1) + [RecordFor(chat, samples[n - 1], n - 1)]
  }

  /** `if i >= 10: break`: the rows the run reaches. */
  function Processed(n: nat): (k: nat)
    ensures k <= n && k <= MAX_SAMPLES
    ensures k == n || k == MAX_SAMPLES
  {
    if n < MAX_SAMPLES then n else MAX_SAMPLES
  }

  /** Every record is a 41-message log: the persona prompt and the row's
      question, then assistant and user in turn, ending with the persona. */
  lemma RecordShape(chat: Endpoint, sample: Sample, i: nat)
    ensures var rec := RecordFor(chat, sample, i);
      && |rec.turns| == 41
      && Alternating(rec.turns)
      && rec.turns[0] == Message(SYSTEM, SystemPrompt(sample))
      && rec.turns[1] == Message(USER, sample.question)
      && rec.turns[40].role == ASSISTANT
  {
    var start := Start(SystemPrompt(sample), sample.question);
    ConversationShape(Persona(chat), Asker(chat, sample.role, sample.question), start, MAX_TURNS);
    RunExtends(Persona(chat), Asker(chat, sample.role, sample.question), start, MAX_TURNS, 0, MAX_TURNS);
  }

  /** Different rows get different ids. */
  lemma RecordIdsDistinct(chat: Endpoint, samples: seq<Sample>, n: nat)
    requires n <= |samples|
    ensures forall j, k :: 0 <= j < k < n ==> Records(chat, samples, n)[j].id != Records(chat, samples, n)[k].id
  {
    forall j, k | 0 <= j < k < n
      ensures Records(chat, samples, n)[j].id != Records(chat, samples, n)[k].id
    {
      NumberedDistinct(ID_PREFIX, j, k);
    }
  }

  /** `process_rolebench`: one record for each of the first ten rows. */
  method ProcessRolebench(chat: Endpoint, dataset: seq<Sample>) returns (records: seq<Record>)
    ensures |records| <= MAX_SAMPLES
    ensures records == Records(chat, dataset, Processed(|dataset|))
  {
    records := [];
    var i := 0;
    while i < |dataset|
      invariant i <= Processed(|dataset|)
      invariant records == Records(chat, dataset, i)
    {
      if i >= 10 {
        break;
      }
      var sample := dataset[i];
      var systemPrompt := BuildPrompt(sample);
      var conversation := Start(systemPrompt, sample.question);
      var simulator := new UserSimulator(sample.role, sample.question);
      conversation := Converse(chat, simulator, conversation);
      records := records + [Record(ID_PREFIX + NatToString(i), sample.role, sample.question, conversation)];
      i := i + 1;
    }
  }
}
