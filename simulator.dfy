/**
  `UserSimulator`: the model that plays the user. It keeps its role, topic,
  model and provider as set at construction; a follow-up is one completion
  over its own instruction and the history without system messages. The
  last-response scan and the relabelled history it also builds are
  computed and then discarded.
*/
module Simulator {
  import opened Chat
  import opened Text
  import opened Settings
  import LlmClient

  const INTRO: string := "You are a curious, skeptical user chatting with an AI playing the character '"
  const TOPIC_LABEL: string := "'. The topic is: "
  const GOAL: string :=
    ". Your goal is to keep the conversation going for 20 turns. "
    + "Ask follow-up questions that challenge their persona or ask for specific details. "
    + "Do NOT be repetitive. React naturally to what they just said. "
    + "\n\n"
    + "IMPORTANT: If the persona tries to end the conversation early (e.g., with goodbyes, closings, or 'it's been a pleasure'), "
  const NO_RECIPROCATE: string := "DO NOT simply reciprocate"
  const REENGAGE: string := ". Instead, ask them a new question specifically related to their role as '"
  const OUTRO: string :=
    "'. Bring up a new aspect of their character, background, or expertise to re-engage them. "
    + "Keep the conversation flowing naturally by being genuinely curious about their persona."

  /** The simulator's system prompt: it names the role and the topic and
      tells the simulator not to accept a goodbye. */
  function Instruction(roleName: string, topic: string): string {
    Fill(INTRO, roleName, TOPIC_LABEL, topic, GOAL, NO_RECIPROCATE, REENGAGE + roleName + OUTRO)
  }

  lemma InstructionMentions(roleName: string, topic: string)
    ensures IsSubstring(roleName, Instruction(roleName, topic))
    ensures IsSubstring(topic, Instruction(roleName, topic))
    ensures IsSubstring(NO_RECIPROCATE, Instruction(roleName, topic))
  {
    FillMentions(INTRO, roleName, TOPIC_LABEL, topic, GOAL, NO_RECIPROCATE, REENGAGE + roleName + OUTRO);
  }

  /** What `generate_followup` sends: its own instruction, then the history
      with every system message left out. */
  function FollowupRequest(instruction: string, history: seq<Message>): seq<Message> {
    [Message(SYSTEM, instruction)] + NonSystem(history)
  }

  /** The request opens with the instruction, and the rest is the history's
      messages that are not system messages: every one of them, and no
      other. */
  lemma FollowupRequestShape(instruction: string, history: seq<Message>)
    ensures |FollowupRequest(instruction, history)| == 1 + |NonSystem(history)|
    ensures FollowupRequest(instruction, history)[0] == Message(SYSTEM, instruction)
    ensures forall i :: 1 <= i < |FollowupRequest(instruction, history)| ==>
      FollowupRequest(instruction, history)[i].role != SYSTEM
    ensures forall msg :: msg in FollowupRequest(instruction, history)[1..] <==> msg in history && msg.role != SYSTEM
  {
    var m := FollowupRequest(instruction, history);
    NonSystemShape(history);
    assert m[1..] == NonSystem(history);
  }

  /** The speaker tag of the relabelled history. */
  function Label(role: string): string {
    if role == ASSISTANT then "The Persona" else "You"
  }

  /** A history message as the simulator is shown it: a user message
      tagged with its speaker. */
  function Tagged(m: Message): Message {
    Message(USER, "[" + Label(m.role) + "]: " + m.content)
  }

  /** The relabelled history, built in order. */
  function Relabelled(history: seq<Message>): seq<Message> {
    if history == [] then []
    else
      var last := history[|history| - 1];
      Relabelled(history[..|history| - 1]) + (if last.role == SYSTEM then [] else [Tagged(last)])
  }

  /** Every non-system message becomes a user message tagged with its
      speaker, in order, and nothing else is there. */
  lemma {:induction false} RelabelledShape(history: seq<Message>)
    ensures |Relabelled(history)| == |NonSystem(history)|
    ensures forall i :: 0 <= i < |Relabelled(history)| ==> Relabelled(history)[i] == Tagged(NonSystem(history)[i])
  {
    if history != [] {
      var init := history[..|history| - 1];
      var last := history[|history| - 1];
      RelabelledShape(init);
      assert history == init + [last];
      NonSystemAppend(init, [last]);
      var kept := if last.role == SYSTEM then [] else [last];
      assert NonSystem([last]) == kept by {
        assert [last][1..] == [];
      }
      var r, f := Relabelled(init), NonSystem(init);
      assert Relabelled(history) == r + (if last.role == SYSTEM then [] else [Tagged(last)]);
      assert NonSystem(history) == f + kept;
      forall i | 0 <= i < |Relabelled(history)|
        ensures Relabelled(history)[i] == Tagged(NonSystem(history)[i])
      {
        if i < |r| {
          assert Relabelled(history)[i] == r[i] && NonSystem(history)[i] == f[i];
        }
      }
    }
  }

  /** The follow-up a simulator with these settings asks after a history. */
  function Asker(b: LlmClient.Backends, roleName: string, topic: string, model: string, provider: string):
    seq<Message> -> string
  {
    history => Followup(b, roleName, topic, model, provider, history)
  }

  function Followup(b: LlmClient.Backends, roleName: string, topic: string, model: string, provider: string,
                    history: seq<Message>): string
  {
    LlmClient.GetCompletion(b, FollowupRequest(Instruction(roleName, topic), history), model, provider)
  }

  /** The persona's system prompt, and every other system message, is
      invisible to the simulator: histories that agree once system messages
      are removed get the same follow-up. */
  lemma FollowupIgnoresSystemMessages(b: LlmClient.Backends, roleName: string, topic: string, model: string,
                                      provider: string, h1: seq<Message>, h2: seq<Message>)
    requires NonSystem(h1) == NonSystem(h2)
    ensures Asker(b, roleName, topic, model, provider)(h1) == Asker(b, roleName, topic, model, provider)(h2)
  {
  }

  class UserSimulator {
    const roleName: string
    const topic: string
    const modelName: string
    const provider: string

    /** `__init__`: a missing or empty model name or provider falls back to
        the configured simulator defaults. */
    constructor (roleName: string, topic: string, modelName: Option<string>, provider: Option<string>, cfg: Config)
      ensures this.roleName == roleName && this.topic == topic
      ensures modelName.Some? && modelName.value != "" ==> this.modelName == modelName.value
      ensures modelName == None || modelName == Some("") ==> this.modelName == cfg.simulatorModel
      ensures provider.Some? && provider.value != "" ==> this.provider == provider.value
      ensures provider == None || provider == Some("") ==> this.provider == cfg.simulatorProvider
    {
      this.roleName := roleName;
      this.topic := topic;
      this.modelName := Or(modelName, cfg.simulatorModel);
      this.provider := Or(provider, cfg.simulatorProvider);
    }

    /** The scan for the content of the most recent assistant message, or ""
        when there is none. */
    method LastResponse(history: seq<Message>) returns (last: string)
      ensures (forall i :: 0 <= i < |history| ==> history[i].role != ASSISTANT) ==> last == ""
      ensures forall i :: 0 <= i < |history| ==>
        (history[i].role == ASSISTANT && (forall j :: i < j < |history| ==> history[j].role != ASSISTANT)) ==>
        last == history[i].content
    {
      last := "";
      var k := |history|;
      while k > 0
        invariant 0 <= k <= |history|
        invariant forall j :: k <= j < |history| ==> history[j].role != ASSISTANT
        invariant last == ""
      {
        k := k - 1;
        if history[k].role == ASSISTANT {
          last := history[k].content;
          return;
        }
      }
    }

    /** The loop that builds the relabelled message list. */
    method RelabelHistory(systemPrompt: string, history: seq<Message>) returns (simulatorMessages: seq<Message>)
      ensures simulatorMessages == [Message(SYSTEM, systemPrompt)] + Relabelled(history)
    {
      simulatorMessages := [Message(SYSTEM, systemPrompt)];
      for i := 0 to |history|
        invariant simulatorMessages == [Message(SYSTEM, systemPrompt)] + Relabelled(history[..i])
      {
        var msg := history[i];
        assert history[..i + 1][..i] == history[..i];
        if msg.role != SYSTEM {
          simulatorMessages := simulatorMessages + [Message(USER, "[" + Label(msg.role) + "]: " + msg.content)];
          assert simulatorMessages[|simulatorMessages| - 1] == Tagged(msg);
        }
      }
      assert history[..|history|] == history;
    }

    /** `generate_followup`: the reply to the instruction and the history
        without system messages. The scan and the relabelled list do not
        reach the request. */
    method GenerateFollowup(b: LlmClient.Backends, history: seq<Message>) returns (reply: string)
      ensures reply == Asker(b, roleName, topic, modelName, provider)(history)
    {
      var lastResponse := LastResponse(history);
      var systemPrompt := Instruction(roleName, topic);
      var simulatorMessages := RelabelHistory(systemPrompt, history);
      var messages := FollowupRequest(systemPrompt, history);
      reply := LlmClient.GetCompletion(b, messages, modelName, provider);
    }
  }
}
