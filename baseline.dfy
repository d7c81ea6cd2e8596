/**
  The baseline generation run: each reached dataset row whose role has a
  profile becomes one conversation between the persona, prompted with its
  RoleBench description and catchphrases, and the user simulator.
*/
module Baseline {
  import opened Chat
  import opened Text
  import opened Settings
  import opened Profiles
  import opened Dialogue
  import LlmClient
  import Simulator

  const MAX_TURNS: int := 20
  /** At most this many catchphrases are shown. */
  const MAX_EXAMPLES: nat := 5
  const EXAMPLES_HEADER: string := "\n\nHere are some examples of how you speak:"
  const CLOSING: string := "\n\nStay in character at all times. Do not reveal you are an AI."
  const ID_PREFIX: string := "rb_base_"

  /** The line one catchphrase adds: none for an empty phrase. */
  function Example(p: string): string {
    if p != "" then "\n- " + p else ""
  }

  function Examples(phrases: seq<string>): string {
    Lines(Example, phrases)
  }

  /** `phrases[:5]` */
  function FirstExamples(phrases: seq<string>): (r: seq<string>)
    ensures |r| <= MAX_EXAMPLES && r <= phrases
    ensures |phrases| <= MAX_EXAMPLES ==> r == phrases
  {
    if |phrases| <= MAX_EXAMPLES then phrases else phrases[..MAX_EXAMPLES]
  }

  function Intro(role: string, desc: string): string {
    "You are " + role + ". " + desc
  }

  /** The prompt `construct_authentic_prompt` builds from a profile. */
  function AuthenticPrompt(role: string, meta: Profile): string {
    Intro(role, meta.desc)
      + (if meta.catchphrases != [] then EXAMPLES_HEADER + Examples(FirstExamples(meta.catchphrases)) else "")
      + CLOSING
  }

  /** The prompt opens with the role and its description and closes with
      the stay-in-character line; the examples header is there exactly when
      the profile has phrases, and without phrases nothing else is. */
  lemma AuthenticPromptFrame(role: string, meta: Profile)
    ensures StartsWith(AuthenticPrompt(role, meta), Intro(role, meta.desc))
    ensures EndsWith(AuthenticPrompt(role, meta), CLOSING)
    ensures meta.catchphrases == [] ==> AuthenticPrompt(role, meta) == Intro(role, meta.desc) + CLOSING
    ensures meta.catchphrases != [] ==> StartsWith(AuthenticPrompt(role, meta), Intro(role, meta.desc) + EXAMPLES_HEADER)
  {
    var intro := Intro(role, meta.desc);
    var examples := if meta.catchphrases != [] then EXAMPLES_HEADER + Examples(FirstExamples(meta.catchphrases)) else "";
    assert AuthenticPrompt(role, meta) == intro + examples + CLOSING;
    ConcatFrame(intro, examples, CLOSING);
    if meta.catchphrases != [] {
      var rest := Examples(FirstExamples(meta.catchphrases));
      assert AuthenticPrompt(role, meta) == (intro + EXAMPLES_HEADER) + rest + CLOSING;
      ConcatFrame(intro + EXAMPLES_HEADER, rest, CLOSING);
    }
  }

  /** Every non-empty phrase is listed on a line of its own, and the list
      is empty exactly when every phrase is. */
  lemma ExamplesListed(phrases: seq<string>)
    ensures forall i :: 0 <= i < |phrases| && phrases[i] != "" ==> IsSubstring("\n- " + phrases[i], Examples(phrases))
    ensures Examples(phrases) == "" <==> forall i :: 0 <= i < |phrases| ==> phrases[i] == ""
  {
    LinesListed(Example, phrases);
    LinesEmptyIff(Example, phrases);
    assert forall i :: 0 <= i < |phrases| ==> (Example(phrases[i]) == "" <==> phrases[i] == "");
  }

  /** The first five phrases, and only they, decide the prompt: each
      non-empty one among them is listed. */
  lemma PromptShowsFirstFive(role: string, meta: Profile, other: seq<string>)
    requires meta.catchphrases != [] && other != []
    requires FirstExamples(other) == FirstExamples(meta.catchphrases)
    ensures AuthenticPrompt(role, Profile(meta.desc, other)) == AuthenticPrompt(role, meta)
    ensures forall i :: 0 <= i < |meta.catchphrases| && i < MAX_EXAMPLES && meta.catchphrases[i] != "" ==>
      IsSubstring("\n- " + meta.catchphrases[i], AuthenticPrompt(role, meta))
  {
    var first := FirstExamples(meta.catchphrases);
    ExamplesListed(first);
    var p := AuthenticPrompt(role, meta);
    var head := Intro(role, meta.desc) + EXAMPLES_HEADER;
    assert p == head + Examples(first) + CLOSING;
    forall i | 0 <= i < |meta.catchphrases| && i < MAX_EXAMPLES && meta.catchphrases[i] != ""
      ensures IsSubstring("\n- " + meta.catchphrases[i], p)
    {
      assert first[i] == meta.catchphrases[i];
      SubstringOfConcat(head, Examples(first), CLOSING);
      SubstringOfSubstring("\n- " + meta.catchphrases[i], Examples(first), p);
    }
  }

  /** The prompt-building part of `construct_authentic_prompt`, with `+=`. */
  method BuildPrompt(role: string, meta: Profile) returns (prompt: string)
    ensures prompt == AuthenticPrompt(role, meta)
  {
    var phrases := meta.catchphrases;
    prompt := "You are " + role + ". " + meta.desc;
    ghost var shown := "";
    assert prompt == Intro(role, meta.desc) + shown;
    if |phrases| > 0 {
      prompt := prompt + EXAMPLES_HEADER;
      var first := FirstExamples(phrases);
      ghost var head := prompt;
      for i := 0 to |first|
        invariant prompt == head + Examples(first[..i])
      {
        LinesSnoc(Example, first, i);
        if first[i] != "" {
          prompt := prompt + "\n- " + first[i];
        }
      }
      assert first[..|first|] == first;
      shown := EXAMPLES_HEADER + Examples(first);
      assert prompt == Intro(role, meta.desc) + shown;
    }
    prompt := prompt + CLOSING;
  }

  /** `construct_authentic_prompt`: load the profiles when the table is
      empty, then build the prompt. A missing file raises only on that
      lazy load. */
  method ConstructAuthenticPrompt(store: ProfileStore, files: ProfileFiles, role: string) returns (r: Result<string>)
    modifies store
    ensures old(store.profiles) != map[] ==> store.profiles == old(store.profiles)
    ensures old(store.profiles) == map[] && !Complete(files) ==> store.profiles == old(store.profiles) && r == Err(Missing(files))
    ensures old(store.profiles) == map[] && Complete(files) ==> store.profiles == Loaded(files)
    ensures old(store.profiles) != map[] || Complete(files) ==> r == Ok(AuthenticPrompt(role, Lookup(store.profiles, role)))
  {
    if store.profiles == map[] {
      var loaded := store.Load(files);
      if loaded.Err? {
        return Err(loaded.error);
      }
      assert store.profiles == map[] + Loaded(files);
    }
    var prompt := BuildPrompt(role, Lookup(store.profiles, role));
    r := Ok(prompt);
  }

  datatype Record = Record(id: string, role: string, systemPrompt: string, baseInstruction: string, turns: seq<Message>)

  function RecordFor(agents: Agents, profiles: map<string, Profile>, sample: Sample, i: nat, turns: int): Record {
    var prompt := AuthenticPrompt(sample.role, Lookup(profiles, sample.role));
    Record(ID_PREFIX + NatToString(i), sample.role, prompt, sample.question,
           Conversation(agents.persona, agents.asker(sample.role, sample.question), Start(prompt, sample.question), turns))
  }

  /** The records written for the first `n` rows: one per row whose role
      has a profile, in row order. */
  function Records(agents: Agents, profiles: map<string, Profile>, samples: seq<Sample>, n: nat, turns: int): seq<Record>
    requires n <= |samples|
  {
    if n == 0 then []
    else Records(agents, profiles, samples, n - 1, turns) +
         (if samples[n - 1].role in profiles then [RecordFor(agents, profiles, samples[n - 1], n - 1, turns)] else [])
  }

  /** The rows among the first `n` whose role has a profile, in order. */
  function Kept(profiles: map<string, Profile>, samples: seq<Sample>, n: nat): seq<nat>
    requires n <= |samples|
  {
    if n == 0 then []
    else Kept(profiles, samples, n - 1) + (if samples[n - 1].role in profiles then [n - 1] else [])
  }

  /** The kept rows are increasing row numbers below `n`, each with a
      profile, and no row with a profile is missing. */
  lemma {:induction false} KeptRows(profiles: map<string, Profile>, samples: seq<Sample>, n: nat)
    requires n <= |samples|
    ensures forall j :: 0 <= j < |Kept(profiles, samples, n)| ==>
      Kept(profiles, samples, n)[j] < n && samples[Kept(profiles, samples, n)[j]].role in profiles
    ensures forall j, k :: 0 <= j < k < |Kept(profiles, samples, n)| ==>
      Kept(profiles, samples, n)[j] < Kept(profiles, samples, n)[k]
    ensures forall i :: 0 <= i < n && samples[i].role in profiles ==> i in Kept(profiles, samples, n)
    ensures |Kept(profiles, samples, n)| <= n
  {
    if n > 0 {
      KeptRows(profiles, samples, n - 1);
    }
  }

  /** The records are those of the kept rows, in row order. */
  lemma {:induction false} RecordsAreKeptRows(agents: Agents, profiles: map<string, Profile>,
                                              samples: seq<Sample>, n: nat, turns: int)
    requires n <= |samples|
    ensures |Records(agents, profiles, samples, n, turns)| == |Kept(profiles, samples, n)|
    ensures forall j :: 0 <= j < |Kept(profiles, samples, n)| ==>
      Kept(profiles, samples, n)[j] < n &&
      Records(agents, profiles, samples, n, turns)[j] ==
      RecordFor(agents, profiles, samples[Kept(profiles, samples, n)[j]], Kept(profiles, samples, n)[j], turns)
  {
    if n > 0 {
      RecordsAreKeptRows(agents, profiles, samples, n - 1, turns);
      KeptRows(profiles, samples, n - 1);
    }
  }

  /** No two records share an identifier. */
  lemma RecordIdsDistinct(agents: Agents, profiles: map<string, Profile>, samples: seq<Sample>, n: nat, turns: int)
    requires n <= |samples|
    ensures forall j, k :: 0 <= j < k < |Records(agents, profiles, samples, n, turns)| ==>
      Records(agents, profiles, samples, n, turns)[j].id != Records(agents, profiles, samples, n, turns)[k].id
  {
    RecordsAreKeptRows(agents, profiles, samples, n, turns);
    KeptRows(profiles, samples, n);
    var kept := Kept(profiles, samples, n);
    forall j, k | 0 <= j < k < |Records(agents, profiles, samples, n, turns)|
      ensures Records(agents, profiles, samples, n, turns)[j].id != Records(agents, profiles, samples, n, turns)[k].id
    {
      NumberedDistinct(ID_PREFIX, kept[j], kept[k]);
    }
  }

  /** Every record holds a complete conversation: the stored prompt and
      question, then `2 * turns - 1` alternating messages ending with the
      persona's reply. */
  lemma {:induction false} RecordsShape(agents: Agents, profiles: map<string, Profile>,
                                        samples: seq<Sample>, n: nat, turns: int)
    requires n <= |samples|
    requires turns >= 1
    ensures forall rec :: rec in Records(agents, profiles, samples, n, turns) ==>
      && |rec.turns| == 2 * turns + 1
      && Alternating(rec.turns)
      && rec.turns[2 * turns].role == ASSISTANT
      && rec.turns[..2] == Start(rec.systemPrompt, rec.baseInstruction)
      && rec.role in profiles
      && rec.systemPrompt == AuthenticPrompt(rec.role, profiles[rec.role])
  {
    if n > 0 {
      RecordsShape(agents, profiles, samples, n - 1, turns);
      var s := samples[n - 1];
      if s.role in profiles {
        var prompt := AuthenticPrompt(s.role, profiles[s.role]);
        var followup := agents.asker(s.role, s.question);
        ConversationShape(agents.persona, followup, Start(prompt, s.question), turns);
        RunExtends(agents.persona, followup, Start(prompt, s.question), turns, 0, TurnCount(turns));
      }
    }
  }

  /** The `for turn in range(turns)` loop of one conversation. */
  method Converse(b: LlmClient.Backends, sim: Simulator.UserSimulator, start: seq<Message>,
                  model: string, provider: string, turns: int) returns (conversation: seq<Message>)
    ensures conversation == Conversation(LlmClient.Completer(b, model, provider),
                                         Simulator.Asker(b, sim.roleName, sim.topic, sim.modelName, sim.provider),
                                         start, turns)
  {
    conversation := start;
    for turn := 0 to TurnCount(turns)
      invariant conversation == Run(LlmClient.Completer(b, model, provider),
                                    Simulator.Asker(b, sim.roleName, sim.topic, sim.modelName, sim.provider),
                                    start, turns, turn)
    {
      conversation := Exchange(b, sim, conversation, model, provider, turn, turns);
    }
  }

  /** One iteration of the loop: the persona's reply, then, unless this is
      the last iteration, the simulator's follow-up. */
  method Exchange(b: LlmClient.Backends, sim: Simulator.UserSimulator, conversation: seq<Message>,
                  model: string, provider: string, turn: nat, turns: int) returns (next: seq<Message>)
    ensures next == Turn(LlmClient.Completer(b, model, provider),
                         Simulator.Asker(b, sim.roleName, sim.topic, sim.modelName, sim.provider),
                         conversation, turn, turns)
  {
    var personaResponse := LlmClient.Complete(b, conversation, model, provider);
    next := conversation + [Message(ASSISTANT, personaResponse)];
    if turn < turns - 1 {
      var userFollowup := sim.GenerateFollowup(b, next);
      next := next + [Message(USER, userFollowup)];
    }
  }

  /** The body of the row loop for a row whose role has a profile: the
      prompt (the profiles are already loaded), a fresh simulator with the
      run's models, and the turns. */
  method ProcessSample(store: ProfileStore, files: ProfileFiles, b: LlmClient.Backends, cfg: Config,
                       modelPersona: Option<string>, modelSimulator: Option<string>,
                       sample: Sample, i: nat, turns: int) returns (rec: Record)
    requires sample.role in store.profiles
    modifies store
    ensures store.profiles == old(store.profiles)
    ensures rec == RecordFor(RunAgents(b, RunModels(cfg, modelPersona, modelSimulator)), store.profiles, sample, i, turns)
  {
    var models := RunModels(cfg, modelPersona, modelSimulator);
    var prompt := ConstructAuthenticPrompt(store, files, sample.role);
    var systemPrompt := prompt.value;
    var conversation := Start(systemPrompt, sample.question);
    var simulator := new Simulator.UserSimulator(sample.role, sample.question, Some(models.simulator),
                                                 Some(models.simulatorProvider), cfg);
    assert simulator.modelName == models.simulator && simulator.provider == models.simulatorProvider;
    conversation := Converse(b, simulator, conversation, models.persona, models.personaProvider, turns);
    assert RunAgents(b, models).asker(sample.role, sample.question) ==
           Simulator.Asker(b, sample.role, sample.question, models.simulator, models.simulatorProvider);
    rec := Record(ID_PREFIX + NatToString(i), sample.role, systemPrompt, sample.question, conversation);
  }

  /** `process_rolebench`: an unavailable dataset ends the run with nothing
      written; the profiles are then loaded (a missing file raises); each
      reached row with a profile gives one record. */
  method ProcessRolebench(store: ProfileStore, files: ProfileFiles, b: LlmClient.Backends, cfg: Config,
                          dataset: Option<seq<Sample>>, limit: Option<int>, turns: int,
                          modelPersona: Option<string>, modelSimulator: Option<string>)
    returns (r: Result<seq<Record>>)
    modifies store
    ensures dataset.None? ==> r == Ok([]) && store.profiles == old(store.profiles)
    ensures dataset.Some? && !Complete(files) ==> r == Err(Missing(files)) && store.profiles == old(store.profiles)
    ensures dataset.Some? && Complete(files) ==>
      && store.profiles == old(store.profiles) + Loaded(files)
      && r == Ok(Records(RunAgents(b, RunModels(cfg, modelPersona, modelSimulator)), store.profiles,
                         dataset.value, Reached(limit, |dataset.value|), turns))
  {
    var models := RunModels(cfg, modelPersona, modelSimulator);
    if dataset.None? {
      return Ok([]);
    }
    var loaded := store.Load(files);
    if loaded.Err? {
      return Err(loaded.error);
    }
    var samples := dataset.value;
    ghost var profiles := store.profiles;
    ReachedIsFirstStop(limit, |samples|);
    var records := [];
    var i := 0;
    while i < |samples|
      invariant i <= Reached(limit, |samples|)
      invariant store.profiles == profiles
      invariant records == Records(RunAgents(b, models), profiles, samples, i, turns)
    {
      if Stops(limit, i) {
        break;
      }
      var sample := samples[i];
      if sample.role in store.profiles {
        var rec := ProcessSample(store, files, b, cfg, modelPersona, modelSimulator, sample, i, turns);
        records := records + [rec];
      }
      i := i + 1;
    }
    r := Ok(records);
  }
}
