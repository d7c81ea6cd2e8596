/**
  The turn loop every orchestrator shares: start from a system prompt and a
  first user message; on each of `turns` iterations the persona answers,
  and on every iteration but the last the simulated user follows up. The
  persona and the simulator are functions of the conversation so far.
*/
module Dialogue {
  import opened Chat
  import opened Text
  import opened Settings
  import LlmClient
  import Simulator

  /** How many times `for turn in range(turns)` runs: none for a negative
      count. */
  function TurnCount(turns: int): (n: nat)
    ensures turns >= 0 ==> n == turns
    ensures turns < 0 ==> n == 0
  {
    if turns < 0 then 0 else turns
  }

  /** One iteration: the persona's reply is appended, then, unless this is
      the last iteration, the simulator's follow-up to the extended log. */
  function Turn(persona: seq<Message> -> string, followup: seq<Message> -> string,
                conv: seq<Message>, turn: nat, turns: int): seq<Message>
  {
    var answered := conv + [Message(ASSISTANT, persona(conv))];
    if turn < turns - 1 then answered + [Message(USER, followup(answered))] else answered
  }

  /** The conversation after the first `k` iterations. */
  function Run(persona: seq<Message> -> string, followup: seq<Message> -> string,
               conv: seq<Message>, turns: int, k: nat): seq<Message>
  {
    if k == 0 then conv
    else Turn(persona, followup, Run(persona, followup, conv, turns, k - 1), k - 1, turns)
  }

  /** The conversation once the loop is over. */
  function Conversation(persona: seq<Message> -> string, followup: seq<Message> -> string,
                        conv: seq<Message>, turns: int): seq<Message>
  {
    Run(persona, followup, conv, turns, TurnCount(turns))
  }

  /** The log every orchestrator starts from. */
  predicate Opening(conv: seq<Message>) {
    |conv| == 2 && conv[0].role == SYSTEM && conv[1].role == USER
  }

  /** System, user, then assistant and user in turn. */
  predicate Alternating(c: seq<Message>) {
    && |c| >= 2
    && c[0].role == SYSTEM
    && forall i :: 1 <= i < |c| ==> c[i].role == (if i % 2 == 1 then USER else ASSISTANT)
  }

  /** Everything after `conv` in `c` was produced by the oracles, each
      message from exactly the messages before it: persona replies and
      follow-ups in turn. */
  predicate Produced(persona: seq<Message> -> string, followup: seq<Message> -> string,
                     conv: seq<Message>, c: seq<Message>)
  {
    && |conv| <= |c|
    && c[..|conv|] == conv
    && forall i :: |conv| <= i < |c| ==>
         c[i] == (if (i - |conv|) % 2 == 0 then Message(ASSISTANT, persona(c[..i]))
                  else Message(USER, followup(c[..i])))
  }

  /** Before the last iteration every iteration adds two messages; the last
      one adds only the reply. */
  lemma {:induction false} RunLength(persona: seq<Message> -> string, followup: seq<Message> -> string,
                                     conv: seq<Message>, turns: int, k: nat)
    requires k <= TurnCount(turns)
    ensures k < turns ==> |Run(persona, followup, conv, turns, k)| == |conv| + 2 * k
    ensures 0 < k == turns ==> |Run(persona, followup, conv, turns, k)| == |conv| + 2 * k - 1
  {
    if k > 0 {
      RunLength(persona, followup, conv, turns, k - 1);
    }
  }

  /** Appending the message due next keeps the log produced. */
  lemma ProducedSnoc(persona: seq<Message> -> string, followup: seq<Message> -> string,
                     conv: seq<Message>, c: seq<Message>, m: Message)
    requires Produced(persona, followup, conv, c)
    requires m == (if (|c| - |conv|) % 2 == 0 then Message(ASSISTANT, persona(c)) else Message(USER, followup(c)))
    ensures Produced(persona, followup, conv, c + [m])
  {
    var d := c + [m];
    assert d[..|c|] == c;
    forall i | |conv| <= i < |d|
      ensures d[i] == (if (i - |conv|) % 2 == 0 then Message(ASSISTANT, persona(d[..i]))
                       else Message(USER, followup(d[..i])))
    {
      if i < |c| {
        assert d[..i] == c[..i];
      }
    }
    assert d[..|conv|] == c[..|conv|];
  }

  /** Every message after the opening comes from the oracles, in the order
      the loop calls them. */
  lemma {:induction false} RunProduced(persona: seq<Message> -> string, followup: seq<Message> -> string,
                                       conv: seq<Message>, turns: int, k: nat)
    requires k <= TurnCount(turns)
    ensures Produced(persona, followup, conv, Run(persona, followup, conv, turns, k))
  {
    if k > 0 {
      var c := Run(persona, followup, conv, turns, k - 1);
      RunProduced(persona, followup, conv, turns, k - 1);
      RunLength(persona, followup, conv, turns, k - 1);
      assert (|c| - |conv|) % 2 == 0;
      var answered := c + [Message(ASSISTANT, persona(c))];
      ProducedSnoc(persona, followup, conv, c, Message(ASSISTANT, persona(c)));
      if k - 1 < turns - 1 {
        assert (|answered| - |conv|) % 2 == 1;
        ProducedSnoc(persona, followup, conv, answered, Message(USER, followup(answered)));
      }
    }
  }

  /** Earlier states of the log are prefixes of later ones: nothing is ever
      removed or rewritten. */
  lemma {:induction false} RunExtends(persona: seq<Message> -> string, followup: seq<Message> -> string,
                                      conv: seq<Message>, turns: int, j: nat, k: nat)
    requires j <= k
    ensures Run(persona, followup, conv, turns, j) <= Run(persona, followup, conv, turns, k)
  {
    if j < k {
      RunExtends(persona, followup, conv, turns, j, k - 1);
    }
  }

  /** From the usual opening, the log alternates; it ends with a user
      message while iterations remain, and with the persona's reply once
      they are done. */
  lemma {:induction false} RunAlternates(persona: seq<Message> -> string, followup: seq<Message> -> string,
                                         conv: seq<Message>, turns: int, k: nat)
    requires Opening(conv)
    requires k <= TurnCount(turns)
    ensures Alternating(Run(persona, followup, conv, turns, k))
    ensures k < turns ==> Run(persona, followup, conv, turns, k)[|Run(persona, followup, conv, turns, k)| - 1].role == USER
    ensures 0 < k == turns ==> Run(persona, followup, conv, turns, k)[|Run(persona, followup, conv, turns, k)| - 1].role == ASSISTANT
  {
    RunLength(persona, followup, conv, turns, k);
    if k > 0 {
      RunAlternates(persona, followup, conv, turns, k - 1);
      RunLength(persona, followup, conv, turns, k - 1);
    }
  }

  /** After `turns >= 1` iterations from the usual opening: `2 * turns + 1`
      messages, alternating, the last one the persona's. */
  lemma ConversationShape(persona: seq<Message> -> string, followup: seq<Message> -> string,
                          conv: seq<Message>, turns: int)
    requires Opening(conv)
    requires turns >= 1
    ensures |Conversation(persona, followup, conv, turns)| == 2 * turns + 1
    ensures Alternating(Conversation(persona, followup, conv, turns))
    ensures Conversation(persona, followup, conv, turns)[2 * turns].role == ASSISTANT
  {
    RunLength(persona, followup, conv, turns, turns);
    RunAlternates(persona, followup, conv, turns, turns);
  }

  /** From a two-message opening, the reply of iteration `t` sits at index
      `2 * t + 2` of every later log, computed from the log as it was when
      that iteration began. */
  lemma ReplyAt(persona: seq<Message> -> string, followup: seq<Message> -> string,
                conv: seq<Message>, turns: int, t: nat, k: nat)
    requires |conv| == 2
    requires t < k <= TurnCount(turns)
    ensures 2 * t + 2 < |Run(persona, followup, conv, turns, k)|
    ensures Run(persona, followup, conv, turns, k)[2 * t + 2] ==
            Message(ASSISTANT, persona(Run(persona, followup, conv, turns, t)))
  {
    RunLength(persona, followup, conv, turns, t);
    RunExtends(persona, followup, conv, turns, t + 1, k);
    var c := Run(persona, followup, conv, turns, t);
    assert Run(persona, followup, conv, turns, t + 1)[|c|] == Message(ASSISTANT, persona(c));
  }

  /** With no iterations the opening is returned as it is. */
  lemma NoTurns(persona: seq<Message> -> string, followup: seq<Message> -> string,
                conv: seq<Message>, turns: int)
    requires turns <= 0
    ensures Conversation(persona, followup, conv, turns) == conv
  {
  }

  /** A dataset row: the role, the opening question and the optional
      columns some orchestrators read with `sample.get(key, '')`. */
  datatype Sample = Sample(role: string, question: string,
                           desc: Option<string>, profile: Option<string>, knowledge: Option<string>)

  /** `sample.get(key, '')` */
  function Column(value: Option<string>): string {
    if value.Some? then value.value else ""
  }

  /** `if limit and i >= limit: break`: a limit of `None` or `0` is falsy. */
  predicate Stops(limit: Option<int>, i: nat) {
    limit.Some? && limit.value != 0 && i >= limit.value
  }

  /** How many rows of a dataset of `n` rows the enumeration reaches. */
  function Reached(limit: Option<int>, n: nat): nat {
    if Stops(limit, 0) then 0
    else if limit.Some? && limit.value != 0 && limit.value < n then limit.value
    else n
  }

  /** `Reached` is the index of the first row at which the loop breaks, or
      the whole dataset when it never does. */
  lemma ReachedIsFirstStop(limit: Option<int>, n: nat)
    ensures Reached(limit, n) <= n
    ensures forall i: nat :: i < Reached(limit, n) ==> !Stops(limit, i)
    ensures Reached(limit, n) < n ==> Stops(limit, Reached(limit, n))
    ensures limit == None || limit == Some(0) ==> Reached(limit, n) == n
    ensures limit.Some? && limit.value < 0 ==> Reached(limit, n) == 0
  {
  }

  /** The log a conversation starts from. */
  function Start(prompt: string, question: string): seq<Message> {
    [Message(SYSTEM, prompt), Message(USER, question)]
  }

  /** The plain persona prompt of the monitored and multi-turn runs:
      `f"You are {role_name}. {desc} {profile}"`. */
  function SystemPrompt(sample: Sample): string {
    "You are " + sample.role + ". " + Column(sample.desc) + " " + Column(sample.profile)
  }

  /** The prompt names the role and holds both columns. */
  lemma SystemPromptMentions(sample: Sample)
    ensures IsSubstring(sample.role, SystemPrompt(sample))
    ensures IsSubstring(Column(sample.desc), SystemPrompt(sample))
    ensures IsSubstring(Column(sample.profile), SystemPrompt(sample))
  {
    FillMentions("You are ", sample.role, ". ", Column(sample.desc), " ", Column(sample.profile), "");
    assert Fill("You are ", sample.role, ". ", Column(sample.desc), " ", Column(sample.profile), "") == SystemPrompt(sample);
  }

  /** The system prompt as the loop builds it. */
  method BuildPrompt(sample: Sample) returns (prompt: string)
    ensures prompt == SystemPrompt(sample)
  {
    prompt := "You are " + sample.role + ". " + Column(sample.desc) + " " + Column(sample.profile);
  }

  /** The model names and providers of one run. */
  datatype Models = Models(persona: string, personaProvider: string, simulator: string, simulatorProvider: string)

  /** `model_persona or CONFIG[...]` and the configured providers. */
  function RunModels(cfg: Config, modelPersona: Option<string>, modelSimulator: Option<string>): Models {
    Models(Or(modelPersona, cfg.personaModel), cfg.personaProvider, Or(modelSimulator, cfg.simulatorModel), cfg.simulatorProvider)
  }

  /** The persona's completion function, and the simulator's follow-up
      function for a role and a topic. */
  datatype Agents = Agents(persona: seq<Message> -> string, asker: (string, string) -> (seq<Message> -> string))

  /** The agents of a run with these models, over these backends. */
  function RunAgents(b: LlmClient.Backends, models: Models): Agents {
    Agents(LlmClient.Completer(b, models.persona, models.personaProvider),
           (role, topic) => Simulator.Asker(b, role, topic, models.simulator, models.simulatorProvider))
  }

}
