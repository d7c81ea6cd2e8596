/**
  The system-prompt-repetition (SPR) run: like the baseline, except for
  its own prompt format and that before every persona completion the last
  user message of a copy of the log is rewritten to repeat the whole
  system prompt. Only the copy is sent; the stored log keeps the
  messages as they were said.
*/
module SprBaseline {
  import opened Chat
  import opened Text
  import opened Settings
  import opened Profiles
  import opened Dialogue
  import LlmClient
  import Simulator
  import Baseline

  const EXAMPLES_HEADER: string := "\nHere are some examples of how you speak:\n"
  const CLOSING: string := "\nStay in character. Do not reveal you are an AI."
  const REMINDER: string := "SYSTEM REMINDER: "
  /** A newline, a rule of 50 dashes, a newline and the query label. */
  const RULE: string := "\n--------------------------------------------------\nUSER QUERY: "
  const ID_PREFIX: string := "rb_spr_"
  const METHOD: string := "SPR (System Prompt Repetition)"

  /** `f"- {p}\n"`: unlike the baseline, empty phrases are not skipped. */
  function Bullet(p: string): string {
    "- " + p + "\n"
  }

  function Bullets(phrases: seq<string>): string {
    Lines(Bullet, phrases)
  }

  /** Each phrase adds its own length and three characters: the dash,
      the space and the newline. */
  lemma {:induction false} BulletsLength(phrases: seq<string>)
    ensures |Bullets(phrases)| == 3 * |phrases| + SumLengths(phrases)
  {
    if phrases != [] {
      BulletsLength(phrases[..|phrases| - 1]);
    }
  }

  function SumLengths(phrases: seq<string>): nat {
    if phrases == [] then 0 else SumLengths(phrases[..|phrases| - 1]) + |phrases[|phrases| - 1]|
  }

  /** Every shown phrase has a bullet of its own, empty ones included. */
  lemma BulletsListed(phrases: seq<string>)
    ensures forall i :: 0 <= i < |phrases| ==> IsSubstring(Bullet(phrases[i]), Bullets(phrases))
  {
    LinesListed(Bullet, phrases);
  }

  function Intro(role: string, desc: string): string {
    "You are " + role + ". " + desc + "\n"
  }

  /** This file's `construct_authentic_prompt`. */
  function SprPrompt(role: string, meta: Profile): string {
    Intro(role, meta.desc)
      + (if meta.catchphrases != [] then EXAMPLES_HEADER + Bullets(Baseline.FirstExamples(meta.catchphrases)) else "")
      + CLOSING
  }

  /** The prompt opens with the role line and closes with the short
      stay-in-character line; without phrases nothing else is there. */
  lemma SprPromptFrame(role: string, meta: Profile)
    ensures StartsWith(SprPrompt(role, meta), Intro(role, meta.desc))
    ensures EndsWith(SprPrompt(role, meta), CLOSING)
    ensures meta.catchphrases == [] ==> SprPrompt(role, meta) == Intro(role, meta.desc) + CLOSING
  {
    var intro := Intro(role, meta.desc);
    var list := if meta.catchphrases != [] then EXAMPLES_HEADER + Bullets(Baseline.FirstExamples(meta.catchphrases)) else "";
    assert SprPrompt(role, meta) == intro + list + CLOSING;
    ConcatFrame(intro, list, CLOSING);
  }

  /** Each of the first five phrases is listed. */
  lemma SprPromptLists(role: string, meta: Profile)
    ensures forall i :: 0 <= i < |meta.catchphrases| && i < Baseline.MAX_EXAMPLES ==>
      IsSubstring(Bullet(meta.catchphrases[i]), SprPrompt(role, meta))
  {
    if meta.catchphrases != [] {
      var first := Baseline.FirstExamples(meta.catchphrases);
      var p := SprPrompt(role, meta);
      var head := Intro(role, meta.desc) + EXAMPLES_HEADER;
      assert p == head + Bullets(first) + CLOSING;
      SubstringOfConcat(head, Bullets(first), CLOSING);
      BulletsListed(first);
      forall i | 0 <= i < |meta.catchphrases| && i < Baseline.MAX_EXAMPLES
        ensures IsSubstring(Bullet(meta.catchphrases[i]), p)
      {
        assert first[i] == meta.catchphrases[i];
        SubstringOfSubstring(Bullet(first[i]), Bullets(first), p);
      }
    }
  }

  /** The prompt-building part of this file's `construct_authentic_prompt`. */
  method BuildPrompt(role: string, meta: Profile) returns (prompt: string)
    ensures prompt == SprPrompt(role, meta)
  {
    var phrases := meta.catchphrases;
    prompt := "You are " + role + ". " + meta.desc + "\n";
    ghost var shown := "";
    assert prompt == Intro(role, meta.desc) + shown;
    if phrases != [] {
      prompt := prompt + EXAMPLES_HEADER;
      var first := Baseline.FirstExamples(phrases);
      ghost var head := prompt;
      for i := 0 to |first|
        invariant prompt == head + Bullets(first[..i])
      {
        LinesSnoc(Bullet, first, i);
        prompt := prompt + "- " + first[i] + "\n";
      }
      assert first[..|first|] == first;
      shown := EXAMPLES_HEADER + Bullets(first);
      assert prompt == Intro(role, meta.desc) + shown;
    }
    prompt := prompt + CLOSING;
  }

  /** This file's `construct_authentic_prompt`, with its own lazy load. */
  method ConstructAuthenticPrompt(store: ProfileStore, files: ProfileFiles, role: string) returns (r: Result<string>)
    modifies store
    ensures old(store.profiles) != map[] ==> store.profiles == old(store.profiles)
    ensures old(store.profiles) == map[] && !Complete(files) ==> store.profiles == old(store.profiles) && r == Err(Missing(files))
    ensures old(store.profiles) == map[] && Complete(files) ==> store.profiles == Loaded(files)
    ensures old(store.profiles) != map[] || Complete(files) ==> r == Ok(SprPrompt(role, Lookup(store.profiles, role)))
  {
    if store.profiles == map[] {
      var loaded := store.Load(files);
      if loaded.Err? {
        return Err(loaded.error);
      }
      assert store.profiles == map[] + Loaded(files);
    }
    var prompt := BuildPrompt(role, Lookup(store.profiles, role));
    r := Ok(prompt);
  }

  /** The rewritten content of the last user message. */
  function Reinjection(prompt: string, content: string): string {
    REMINDER + prompt + RULE + content
  }

  /** The reinjected text repeats the whole system prompt and ends with the
      original query. */
  lemma ReinjectionMentions(prompt: string, content: string)
    ensures IsSubstring(prompt, Reinjection(prompt, content))
    ensures EndsWith(Reinjection(prompt, content), content)
  {
    SubstringOfConcat(REMINDER, prompt, RULE + content);
    assert REMINDER + prompt + (RULE + content) == Reinjection(prompt, content);
    ConcatFrame(REMINDER + prompt, RULE, content);
  }

  /** What the persona is sent: the log, with its last message's content
      rewritten when that message is the user's. */
  function SprContext(prompt: string, log: seq<Message>): seq<Message> {
    if log != [] && log[|log| - 1].role == USER
    then log[..|log| - 1] + [Message(USER, Reinjection(prompt, log[|log| - 1].content))]
    else log
  }

  /** The context differs from the log in its last message at most, and
      there only in the content of a user message. */
  lemma SprContextOnlyLast(prompt: string, log: seq<Message>)
    requires log != []
    ensures |SprContext(prompt, log)| == |log|
    ensures SprContext(prompt, log)[..|log| - 1] == log[..|log| - 1]
    ensures SprContext(prompt, log)[|log| - 1].role == log[|log| - 1].role
    ensures log[|log| - 1].role == USER ==>
      SprContext(prompt, log)[|log| - 1].content == Reinjection(prompt, log[|log| - 1].content)
    ensures log[|log| - 1].role != USER ==> SprContext(prompt, log) == log
  {
    if log[|log| - 1].role == USER {
      assert SprContext(prompt, log)[..|log| - 1] == log[..|log| - 1];
    }
  }

  /** The persona of the SPR run: a completion over the rewritten copy. */
  function SprPersona(complete: seq<Message> -> string, prompt: string): seq<Message> -> string {
    log => complete(SprContext(prompt, log))
  }

  /** At the start of every iteration the log ends with a user message, so
      every completion is sent a reinjected query. */
  lemma ReinjectedEveryTurn(complete: seq<Message> -> string, followup: seq<Message> -> string,
                            prompt: string, question: string, turns: int, k: nat)
    requires k < turns
    ensures var log := Run(SprPersona(complete, prompt), followup, Start(prompt, question), turns, k);
      && log != []
      && log[|log| - 1].role == USER
      && SprContext(prompt, log)[|log| - 1] == Message(USER, Reinjection(prompt, log[|log| - 1].content))
  {
    RunAlternates(SprPersona(complete, prompt), followup, Start(prompt, question), turns, k);
  }

  /** The stored log holds the messages as said: every user message after
      the opening is the simulator's follow-up, unaltered, and every reply
      was computed from the rewritten copy of the log before it. */
  lemma LogKeepsOriginals(complete: seq<Message> -> string, followup: seq<Message> -> string,
                          prompt: string, question: string, turns: int)
    ensures var log := Conversation(SprPersona(complete, prompt), followup, Start(prompt, question), turns);
      && |log| >= 2
      && log[..2] == Start(prompt, question)
      && forall i :: 2 <= i < |log| ==>
           log[i] == (if i % 2 == 0 then Message(ASSISTANT, complete(SprContext(prompt, log[..i])))
                      else Message(USER, followup(log[..i])))
  {
    RunProduced(SprPersona(complete, prompt), followup, Start(prompt, question), turns, TurnCount(turns));
    RunExtends(SprPersona(complete, prompt), followup, Start(prompt, question), turns, 0, TurnCount(turns));
  }

  datatype Record = Record(id: string, role: string, approach: string, systemPrompt: string, turns: seq<Message>)

  function RecordFor(agents: Agents, profiles: map<string, Profile>, sample: Sample, i: nat, turns: int): Record {
    var prompt := SprPrompt(sample.role, Lookup(profiles, sample.role));
    Record(ID_PREFIX + NatToString(i), sample.role, METHOD, prompt,
           Conversation(SprPersona(agents.persona, prompt), agents.asker(sample.role, sample.question),
                        Start(prompt, sample.question), turns))
  }

  /** The records written for the first `n` rows: one per row whose role
      has a profile, in row order. */
  function Records(agents: Agents, profiles: map<string, Profile>, samples: seq<Sample>, n: nat, turns: int): seq<Record>
    requires n <= |samples|
  {
    if n == 0 then []
    else Records(agents, profiles, samples, n - 1, turns) +
         (if samples[n - 1].role in profiles then [RecordFor(agents, profiles, samples[n - 1], n - 1, turns)] else [])
  }

  /** The records are those of the rows with a profile, in row order. */
  lemma {:induction false} RecordsAreKeptRows(agents: Agents, profiles: map<string, Profile>,
                                              samples: seq<Sample>, n: nat, turns: int)
    requires n <= |samples|
    ensures |Records(agents, profiles, samples, n, turns)| == |Baseline.Kept(profiles, samples, n)|
    ensures forall j :: 0 <= j < |Baseline.Kept(profiles, samples, n)| ==>
      Baseline.Kept(profiles, samples, n)[j] < n &&
      Records(agents, profiles, samples, n, turns)[j] ==
      RecordFor(agents, profiles, samples[Baseline.Kept(profiles, samples, n)[j]], Baseline.Kept(profiles, samples, n)[j], turns)
  {
    if n > 0 {
      RecordsAreKeptRows(agents, profiles, samples, n - 1, turns);
      Baseline.KeptRows(profiles, samples, n - 1);
    }
  }

  /** Every record holds `2 * turns + 1` alternating messages that start
      with the SPR prompt and end with the persona's reply. */
  lemma {:induction false} RecordsShape(agents: Agents, profiles: map<string, Profile>,
                                        samples: seq<Sample>, n: nat, turns: int)
    requires n <= |samples|
    requires turns >= 1
    ensures forall rec :: rec in Records(agents, profiles, samples, n, turns) ==>
      && |rec.turns| == 2 * turns + 1
      && Alternating(rec.turns)
      && rec.turns[2 * turns].role == ASSISTANT
      && rec.turns[0] == Message(SYSTEM, rec.systemPrompt)
      && rec.approach == METHOD
      && rec.role in profiles
  {
    if n > 0 {
      RecordsShape(agents, profiles, samples, n - 1, turns);
      var s := samples[n - 1];
      if s.role in profiles {
        var prompt := SprPrompt(s.role, profiles[s.role]);
        var persona := SprPersona(agents.persona, prompt);
        var followup := agents.asker(s.role, s.question);
        ConversationShape(persona, followup, Start(prompt, s.question), turns);
        RunExtends(persona, followup, Start(prompt, s.question), turns, 0, TurnCount(turns));
      }
    }
  }

  /** One persona completion: a deep copy of the log, whose last message
      is rewritten when it is the user's, is sent instead of the log. The
      copy is a value, so the log is left as it was. */
  method SprReply(b: LlmClient.Backends, corePrompt: string, conversationLog: seq<Message>,
                  model: string, provider: string) returns (personaResponse: string)
    requires conversationLog != []
    ensures personaResponse == SprPersona(LlmClient.Completer(b, model, provider), corePrompt)(conversationLog)
  {
    var sprContext := conversationLog;
    if sprContext[|sprContext| - 1].role == USER {
      var originalUserContent := sprContext[|sprContext| - 1].content;
      var reinjectionText := Reinjection(corePrompt, originalUserContent);
      sprContext := sprContext[|sprContext| - 1 := Message(sprContext[|sprContext| - 1].role, reinjectionText)];
    }
    assert sprContext == SprContext(corePrompt, conversationLog);
    personaResponse := LlmClient.Complete(b, sprContext, model, provider);
    assert SprPersona(LlmClient.Completer(b, model, provider), corePrompt)(conversationLog) ==
           LlmClient.Completer(b, model, provider)(sprContext);
  }

  /** The turn loop of one SPR conversation. */
  method Converse(b: LlmClient.Backends, sim: Simulator.UserSimulator, corePrompt: string, start: seq<Message>,
                  model: string, provider: string, turns: int) returns (conversationLog: seq<Message>)
    requires start != []
    ensures conversationLog == Conversation(SprPersona(LlmClient.Completer(b, model, provider), corePrompt),
                                            Simulator.Asker(b, sim.roleName, sim.topic, sim.modelName, sim.provider),
                                            start, turns)
  {
    conversationLog := start;
    for turn := 0 to TurnCount(turns)
      invariant |conversationLog| >= |start|
      invariant conversationLog == Run(SprPersona(LlmClient.Completer(b, model, provider), corePrompt),
                                       Simulator.Asker(b, sim.roleName, sim.topic, sim.modelName, sim.provider),
                                       start, turns, turn)
    {
      conversationLog := Exchange(b, sim, corePrompt, conversationLog, model, provider, turn, turns);
    }
  }

  /** One iteration of the loop: the reply to the rewritten copy, then,
      unless this is the last iteration, the simulator's follow-up. */
  method Exchange(b: LlmClient.Backends, sim: Simulator.UserSimulator, corePrompt: string,
                  conversationLog: seq<Message>, model: string, provider: string, turn: nat, turns: int)
    returns (next: seq<Message>)
    requires conversationLog != []
    ensures |next| > |conversationLog|
    ensures next == Turn(SprPersona(LlmClient.Completer(b, model, provider), corePrompt),
                         Simulator.Asker(b, sim.roleName, sim.topic, sim.modelName, sim.provider),
                         conversationLog, turn, turns)
  {
    var personaResponse := SprReply(b, corePrompt, conversationLog, model, provider);
    next := conversationLog + [Message(ASSISTANT, personaResponse)];
    if turn < turns - 1 {
      var userFollowup := sim.GenerateFollowup(b, next);
      next := next + [Message(USER, userFollowup)];
    }
  }

  /** `process_rolebench_spr`: load the profiles (a missing file raises),
      then one record for each reached row whose role has a profile. */
  method ProcessRolebenchSpr(store: ProfileStore, files: ProfileFiles, b: LlmClient.Backends, cfg: Config,
                             samples: seq<Sample>, limit: Option<int>, turns: int,
                             modelPersona: Option<string>, modelSimulator: Option<string>)
    returns (r: Result<seq<Record>>)
    modifies store
    ensures !Complete(files) ==> r == Err(Missing(files)) && store.profiles == old(store.profiles)
    ensures Complete(files) ==>
      && store.profiles == old(store.profiles) + Loaded(files)
      && r == Ok(Records(RunAgents(b, RunModels(cfg, modelPersona, modelSimulator)), store.profiles,
                         samples, Reached(limit, |samples|), turns))
  {
    var models := RunModels(cfg, modelPersona, modelSimulator);
    var loaded := store.Load(files);
    if loaded.Err? {
      return Err(loaded.error);
    }
    ghost var profiles := store.profiles;
    ReachedIsFirstStop(limit, |samples|);
    var records := [];
    var i := 0;
    while i < |samples|
      invariant i <= Reached(limit, |samples|)
      invariant store.profiles == profiles
      invariant records == Records(RunAgents(b, models), profiles, samples, i, turns)
    {
      if Stops(limit, i) {
        break;
      }
      var sample := samples[i];
      if sample.role in store.profiles {
        var prompt := ConstructAuthenticPrompt(store, files, sample.role);
        var corePrompt := prompt.value;
        var conversationLog := Start(corePrompt, sample.question);
        var simulator := new Simulator.UserSimulator(sample.role, sample.question, Some(models.simulator),
                                                     Some(models.simulatorProvider), cfg);
        assert simulator.modelName == models.simulator && simulator.provider == models.simulatorProvider;
        conversationLog := Converse(b, simulator, corePrompt, conversationLog, models.persona, models.personaProvider, turns);
        assert RunAgents(b, models).asker(sample.role, sample.question) ==
               Simulator.Asker(b, sample.role, sample.question, models.simulator, models.simulatorProvider);
        records := records + [Record(ID_PREFIX + NatToString(i), sample.role, METHOD, corePrompt, conversationLog)];
      }
      i := i + 1;
    }
    r := Ok(records);
  }
}
