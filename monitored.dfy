/**
  The monitored generation run: the baseline turn loop over dataset rows,
  with an orthogonal-drift score for every persona reply against the
  embedding of the system prompt, and the hypocrisy judge on every fifth
  turn and on the last one.
*/
module Monitored {
  import opened Chat
  import opened Text
  import opened Settings
  import opened Dialogue
  import LlmClient
  import Simulator
  import Metrics

  const MAX_TURNS: int := 20
  const SKIPPED: string := "SKIPPED"
  const ID_PREFIX: string := "rb_monitored_"

  /** The facts the judge checks against: the description and the profile,
      and the knowledge column when the row has one. */
  function Facts(sample: Sample): (facts: seq<string>)
    ensures |facts| == (if sample.knowledge.Some? then 3 else 2)
    ensures facts[0] == Column(sample.desc) && facts[1] == Column(sample.profile)
    ensures sample.knowledge.Some? ==> facts[2] == sample.knowledge.value
  {
    [Column(sample.desc), Column(sample.profile)] + (if sample.knowledge.Some? then [sample.knowledge.value] else [])
  }

  /** The facts list as the loop builds it. */
  method GatherFacts(sample: Sample) returns (facts: seq<string>)
    ensures facts == Facts(sample)
  {
    facts := [Column(sample.desc), Column(sample.profile)];
    if sample.knowledge.Some? {
      facts := facts + [sample.knowledge.value];
    }
  }

  /** The judge runs on turns 5, 10, 15, ... and on the last turn. */
  predicate HypocrisyDue(turn: nat, turns: int) {
    (turn + 1) % 5 == 0 || turn == turns - 1
  }

  /** How many of the first `n` turns are judged. */
  function DueCount(n: nat, turns: int): nat {
    if n == 0 then 0 else DueCount(n - 1, turns) + (if HypocrisyDue(n - 1, turns) then 1 else 0)
  }

  /** A conversation of `turns >= 1` turns is judged on one turn in five,
      rounded up: the multiples of five and the last turn. */
  lemma {:induction false} DueCountAll(turns: int)
    requires turns >= 1
    ensures DueCount(turns, turns) == (turns + 4) / 5
  {
    DueCountBefore(turns - 1, turns);
  }

  lemma {:induction false} DueCountBefore(n: nat, turns: int)
    requires n < turns
    ensures DueCount(n, turns) == n / 5
  {
    if n > 0 {
      DueCountBefore(n - 1, turns);
    }
  }

  /** For the default of 20 turns, exactly turns 5, 10, 15 and 20 (indices
      4, 9, 14 and 19) are judged. */
  lemma DefaultSchedule()
    ensures DueCount(20, MAX_TURNS) == 4
    ensures forall t: nat :: t < 20 ==> (HypocrisyDue(t, MAX_TURNS) <==> t == 4 || t == 9 || t == 14 || t == 19)
  {
    DueCountAll(20);
  }

  datatype TurnMetric = TurnMetric(turn: nat, driftScore: real, hypocrisyStatus: string, hypocrisyReason: string)

  /** What the run measures with: the backends, the settings, and the
      drift meter's projection. */
  datatype Meter = Meter(b: LlmClient.Backends, cfg: Config, project: (seq<real>, seq<real>) -> real)

  function Embed(m: Meter, text: string): seq<real> {
    LlmClient.GetEmbedding(m.b, text, m.cfg.embeddingModel, m.cfg.embeddingProvider)
  }

  /** The metric of the reply given on turn index `turn`, or `None` when
      the drift score raises. */
  function MetricFor(m: Meter, anchor: seq<real>, facts: seq<string>, reply: string, turn: nat, turns: int): Option<TurnMetric> {
    var drift := Metrics.OrthogonalDrift(anchor, Embed(m, reply), m.project);
    var verdict := if HypocrisyDue(turn, turns) then Metrics.CheckHypocrisy(m.b, m.cfg, reply, facts) else (SKIPPED, "");
    if drift.None? then None else Some(TurnMetric(turn + 1, drift.value, verdict.0, verdict.1))
  }

  /** The measurement raises exactly when the anchor is non-zero and the
      reply's embedding has another length. Otherwise the metric numbers
      the turn from 1 and carries the drift score; a skipped turn is marked
      and has no reason; a judged one has the judge's verdict. */
  lemma MetricStatus(m: Meter, anchor: seq<real>, facts: seq<string>, reply: string, turn: nat, turns: int)
    ensures MetricFor(m, anchor, facts, reply, turn, turns).None? <==>
      !Metrics.ZeroVector(anchor) && |Embed(m, reply)| != |anchor|
    ensures MetricFor(m, anchor, facts, reply, turn, turns).Some? ==>
      var metric := MetricFor(m, anchor, facts, reply, turn, turns).value;
      && metric.turn == turn + 1
      && Some(metric.driftScore) == Metrics.OrthogonalDrift(anchor, Embed(m, reply), m.project)
      && (!HypocrisyDue(turn, turns) ==> metric.hypocrisyStatus == SKIPPED && metric.hypocrisyReason == "")
      && (HypocrisyDue(turn, turns) ==>
            (metric.hypocrisyStatus, metric.hypocrisyReason) == Metrics.CheckHypocrisy(m.b, m.cfg, reply, facts))
      && (HypocrisyDue(turn, turns) ==> metric.hypocrisyStatus in {Metrics.PASS, Metrics.FAIL})
  {
  }

  /** The measurement of one conversation: reply and turn index to metric. */
  function Measurer(m: Meter, anchor: seq<real>, facts: seq<string>, turns: int): (string, nat) -> Option<TurnMetric> {
    (reply: string, turn: nat) => MetricFor(m, anchor, facts, reply, turn, turns)
  }

  /** The metrics after `k` iterations, one per persona reply, in order; or
      `None` once a measurement has raised. */
  function TurnMetrics(persona: seq<Message> -> string, followup: seq<Message> -> string, start: seq<Message>,
                       turns: int, measure: (string, nat) -> Option<TurnMetric>, k: nat): (r: Option<seq<TurnMetric>>)
    ensures r.Some? ==> |r.value| == k
  {
    if k == 0 then Some([])
    else
      var before := TurnMetrics(persona, followup, start, turns, measure, k - 1);
      var metric := measure(persona(Run(persona, followup, start, turns, k - 1)), k - 1);
      if before.None? || metric.None? then None else Some(before.value + [metric.value])
  }

  /** The measurement of the persona reply of iteration `t` succeeds. */
  predicate Measured(persona: seq<Message> -> string, followup: seq<Message> -> string, start: seq<Message>,
                     turns: int, measure: (string, nat) -> Option<TurnMetric>, t: nat)
  {
    measure(persona(Run(persona, followup, start, turns, t)), t).Some?
  }

  /** When the metrics exist, metric `t` is the measurement of the persona
      reply of iteration `t`. */
  lemma {:induction false} TurnMetricsValues(persona: seq<Message> -> string, followup: seq<Message> -> string,
                                             start: seq<Message>, turns: int,
                                             measure: (string, nat) -> Option<TurnMetric>, k: nat)
    requires TurnMetrics(persona, followup, start, turns, measure, k).Some?
    ensures forall t: nat :: t < k ==>
      && Measured(persona, followup, start, turns, measure, t)
      && TurnMetrics(persona, followup, start, turns, measure, k).value[t] ==
         measure(persona(Run(persona, followup, start, turns, t)), t).value
  {
    if k > 0 {
      TurnMetricsValues(persona, followup, start, turns, measure, k - 1);
    }
  }

  /** When the metrics exist there is one per turn, and metric `t` scores
      the reply found at index `2 * t + 2` of the conversation. */
  lemma TurnMetricsMatchReplies(persona: seq<Message> -> string, followup: seq<Message> -> string,
                                start: seq<Message>, turns: int,
                                measure: (string, nat) -> Option<TurnMetric>, k: nat)
    requires |start| == 2
    requires k <= TurnCount(turns)
    ensures forall t :: 0 <= t < k ==> 2 * t + 2 < |Run(persona, followup, start, turns, k)|
    ensures TurnMetrics(persona, followup, start, turns, measure, k).Some? ==>
      && |TurnMetrics(persona, followup, start, turns, measure, k).value| == k
      && forall t :: 0 <= t < k ==>
           && measure(Run(persona, followup, start, turns, k)[2 * t + 2].content, t).Some?
           && TurnMetrics(persona, followup, start, turns, measure, k).value[t] ==
              measure(Run(persona, followup, start, turns, k)[2 * t + 2].content, t).value
  {
    var log := Run(persona, followup, start, turns, k);
    forall t | 0 <= t < k
      ensures 2 * t + 2 < |log|
      ensures log[2 * t + 2].content == persona(Run(persona, followup, start, turns, t))
    {
      ReplyAt(persona, followup, start, turns, t, k);
    }
    if TurnMetrics(persona, followup, start, turns, measure, k).Some? {
      TurnMetricsValues(persona, followup, start, turns, measure, k);
    }
  }

  /** The metrics exist exactly when the measurement of every persona
      reply of the conversation succeeds. */
  lemma {:induction false} TurnMetricsSucceed(persona: seq<Message> -> string, followup: seq<Message> -> string,
                                              start: seq<Message>, turns: int,
                                              measure: (string, nat) -> Option<TurnMetric>, k: nat)
    ensures TurnMetrics(persona, followup, start, turns, measure, k).Some? <==>
      forall t: nat :: t < k ==> Measured(persona, followup, start, turns, measure, t)
  {
    if k > 0 {
      TurnMetricsSucceed(persona, followup, start, turns, measure, k - 1);
      assert TurnMetrics(persona, followup, start, turns, measure, k).Some? <==>
        TurnMetrics(persona, followup, start, turns, measure, k - 1).Some? &&
        Measured(persona, followup, start, turns, measure, k - 1);
    }
  }

  /** With an anchor of norm zero, an empty one among them, no measurement
      raises: the metrics always exist and every drift score is 0.0. */
  lemma ZeroAnchorNeverRaises(persona: seq<Message> -> string, followup: seq<Message> -> string, start: seq<Message>,
                              m: Meter, anchor: seq<real>, facts: seq<string>, turns: int, k: nat)
    requires Metrics.ZeroVector(anchor)
    ensures TurnMetrics(persona, followup, start, turns, Measurer(m, anchor, facts, turns), k).Some?
    ensures forall t :: 0 <= t < k ==>
      TurnMetrics(persona, followup, start, turns, Measurer(m, anchor, facts, turns), k).value[t].driftScore == 0.0
  {
    var measure := Measurer(m, anchor, facts, turns);
    forall t: nat | t < k
      ensures Measured(persona, followup, start, turns, measure, t)
      ensures measure(persona(Run(persona, followup, start, turns, t)), t).value.driftScore == 0.0
    {
      MetricStatus(m, anchor, facts, persona(Run(persona, followup, start, turns, t)), t, turns);
    }
    TurnMetricsSucceed(persona, followup, start, turns, measure, k);
    TurnMetricsValues(persona, followup, start, turns, measure, k);
  }

  /** Once a measurement has raised, later iterations do not bring the
      metrics back. */
  lemma {:induction false} TurnMetricsRaiseFinal(persona: seq<Message> -> string, followup: seq<Message> -> string,
                                                 start: seq<Message>, turns: int,
                                                 measure: (string, nat) -> Option<TurnMetric>, k: nat, j: nat)
    requires k <= j
    requires TurnMetrics(persona, followup, start, turns, measure, k).None?
    ensures TurnMetrics(persona, followup, start, turns, measure, j).None?
    decreases j
  {
    if k < j {
      TurnMetricsRaiseFinal(persona, followup, start, turns, measure, k, j - 1);
    }
  }

  /** One turn's measurement: the reply's embedding, its drift against the
      anchor, and the judge when the turn is due; `None` when the drift
      score raises, before the judge is asked. */
  method MeasureTurn(m: Meter, anchor: seq<real>, facts: seq<string>, personaResponse: string, turn: nat, turns: int)
    returns (metric: Option<TurnMetric>)
    ensures metric == Measurer(m, anchor, facts, turns)(personaResponse, turn)
  {
    var respEmbedding := LlmClient.GetEmbedding(m.b, personaResponse, m.cfg.embeddingModel, m.cfg.embeddingProvider);
    var driftScore := Metrics.OrthogonalDrift(anchor, respEmbedding, m.project);
    if driftScore.None? {
      return None;
    }
    var hypocrisyStatus := SKIPPED;
    var hypocrisyReason := "";
    if (turn + 1) % 5 == 0 || turn == turns - 1 {
      var verdict := Metrics.CheckHypocrisy(m.b, m.cfg, personaResponse, facts);
      hypocrisyStatus, hypocrisyReason := verdict.0, verdict.1;
    }
    metric := Some(TurnMetric(turn + 1, driftScore.value, hypocrisyStatus, hypocrisyReason));
  }

  /** One pass of the monitored turn loop: the persona's reply, its
      measurement, and the simulator's follow-up unless this is the last
      turn. A measurement that raises ends the pass with `None`. */
  method MonitoredTurn(m: Meter, sim: Simulator.UserSimulator, start: seq<Message>, anchor: seq<real>, facts: seq<string>,
                       model: string, provider: string, turns: int, turn: nat, conversation: seq<Message>)
    returns (next: seq<Message>, metric: Option<TurnMetric>)
    ensures var persona := LlmClient.Completer(m.b, model, provider);
      metric == Measurer(m, anchor, facts, turns)(persona(conversation), turn)
    ensures metric.Some? ==>
      next == Turn(LlmClient.Completer(m.b, model, provider),
                   Simulator.Asker(m.b, sim.roleName, sim.topic, sim.modelName, sim.provider),
                   conversation, turn, turns)
  {
    var personaResponse := LlmClient.Complete(m.b, conversation, model, provider);
    next := conversation + [Message(ASSISTANT, personaResponse)];
    metric := MeasureTurn(m, anchor, facts, personaResponse, turn, turns);
    if metric.None? {
      return;
    }
    if turn < turns - 1 {
      var userFollowup := sim.GenerateFollowup(m.b, next);
      next := next + [Message(USER, userFollowup)];
    }
  }

  /** The monitored turn loop of one conversation. A measurement that
      raises ends the loop, and the metrics are then `None`. */
  method Converse(m: Meter, sim: Simulator.UserSimulator, start: seq<Message>, anchor: seq<real>, facts: seq<string>,
                  model: string, provider: string, turns: int)
    returns (conversation: seq<Message>, turnMetrics: Option<seq<TurnMetric>>)
    ensures turnMetrics == TurnMetrics(LlmClient.Completer(m.b, model, provider),
                                       Simulator.Asker(m.b, sim.roleName, sim.topic, sim.modelName, sim.provider),
                                       start, turns, Measurer(m, anchor, facts, turns), TurnCount(turns))
    ensures turnMetrics.Some? ==>
      conversation == Conversation(LlmClient.Completer(m.b, model, provider),
                                   Simulator.Asker(m.b, sim.roleName, sim.topic, sim.modelName, sim.provider),
                                   start, turns)
  {
    var persona := LlmClient.Completer(m.b, model, provider);
    var followup := Simulator.Asker(m.b, sim.roleName, sim.topic, sim.modelName, sim.provider);
    var measure := Measurer(m, anchor, facts, turns);
    conversation := start;
    var metrics: seq<TurnMetric> := [];
    for turn := 0 to TurnCount(turns)
      invariant conversation == Run(persona, followup, start, turns, turn)
      invariant TurnMetrics(persona, followup, start, turns, measure, turn) == Some(metrics)
    {
      var metric;
      conversation, metric := MonitoredTurn(m, sim, start, anchor, facts, model, provider, turns, turn, conversation);
      if metric.None? {
        TurnMetricsRaiseFinal(persona, followup, start, turns, measure, turn + 1, TurnCount(turns));
        return conversation, None;
      }
      metrics := metrics + [metric.value];
    }
    turnMetrics := Some(metrics);
  }

  datatype Record = Record(id: string, role: string, baseInstruction: string, turns: seq<Message>, metrics: seq<TurnMetric>)

  /** The record of row `i`, or `None` when one of its measurements raises. */
  function RecordFor(agents: Agents, m: Meter, sample: Sample, i: nat, turns: int): Option<Record> {
    var prompt := SystemPrompt(sample);
    var start := Start(prompt, sample.question);
    var followup := agents.asker(sample.role, sample.question);
    var metrics := TurnMetrics(agents.persona, followup, start, turns, Measurer(m, Embed(m, prompt), Facts(sample), turns), TurnCount(turns));
    if metrics.None? then None
    else Some(Record(ID_PREFIX + NatToString(i), sample.role, sample.question,
                     Conversation(agents.persona, followup, start, turns), metrics.value))
  }

  /** What the output file holds when the row loop ends: the records written
      so far, and whether an exception ended the run. */
  datatype Written = Written(records: seq<Record>, raised: bool)

  /** The file after the first `n` rows, given what each row yields: one
      record per row until a row raises, and nothing after it. */
  function RowsWritten(rows: seq<Option<Record>>, n: nat): (w: Written)
    requires n <= |rows|
    ensures |w.records| <= n
    ensures !w.raised ==> |w.records| == n
  {
    if n == 0 then Written([], false)
    else
      var before := RowsWritten(rows, n - 1);
      if before.raised then before
      else if rows[n - 1].None? then Written(before.records, true)
      else Written(before.records + [rows[n - 1].value], false)
  }

  /** The records written are the first rows', in order; the run raised
      exactly when one of the first `n` rows raises, and then the row after
      the last record is the first one that does. */
  lemma {:induction false} RowsWrittenPrefix(rows: seq<Option<Record>>, n: nat)
    requires n <= |rows|
    ensures forall j :: 0 <= j < |RowsWritten(rows, n).records| ==> rows[j] == Some(RowsWritten(rows, n).records[j])
    ensures RowsWritten(rows, n).raised <==> exists j :: 0 <= j < n && rows[j].None?
    ensures RowsWritten(rows, n).raised ==> rows[|RowsWritten(rows, n).records|].None?
  {
    if n > 0 {
      RowsWrittenPrefix(rows, n - 1);
    }
  }

  /** Once a row has raised, later rows add nothing. */
  lemma {:induction false} RowsRaiseFinal(rows: seq<Option<Record>>, n: nat, j: nat)
    requires n <= j <= |rows|
    requires RowsWritten(rows, n).raised
    ensures RowsWritten(rows, j) == RowsWritten(rows, n)
    decreases j
  {
    if n < j {
      RowsRaiseFinal(rows, n, j - 1);
    }
  }

  /** `f` applied to each sample and its row index. */
  function Indexed<A>(f: (Sample, nat) -> A, samples: seq<Sample>): (rows: seq<A>)
    ensures |rows| == |samples|
  {
    if samples == [] then []
    else Indexed(f, samples[..|samples| - 1]) + [f(samples[|samples| - 1], |samples| - 1)]
  }

  lemma {:induction false} IndexedAt<A>(f: (Sample, nat) -> A, samples: seq<Sample>, i: nat)
    requires i < |samples|
    ensures Indexed(f, samples)[i] == f(samples[i], i)
  {
    var init := samples[..|samples| - 1];
    if i < |init| {
      IndexedAt(f, init, i);
      assert init[i] == samples[i];
    }
  }

  /** What each dataset row yields. */
  function Rows(agents: Agents, m: Meter, samples: seq<Sample>, turns: int): (rows: seq<Option<Record>>)
    ensures |rows| == |samples|
  {
    Indexed((sample, i) => RecordFor(agents, m, sample, i, turns), samples)
  }

  lemma RowsAt(agents: Agents, m: Meter, samples: seq<Sample>, turns: int, i: nat)
    requires i < |samples|
    ensures Rows(agents, m, samples, turns)[i] == RecordFor(agents, m, samples[i], i, turns)
  {
    IndexedAt((sample, i) => RecordFor(agents, m, sample, i, turns), samples, i);
  }

  /** The file after the first `n` dataset rows. */
  function Records(agents: Agents, m: Meter, samples: seq<Sample>, n: nat, turns: int): (w: Written)
    requires n <= |samples|
    ensures |w.records| <= n
    ensures !w.raised ==> |w.records| == n
  {
    RowsWritten(Rows(agents, m, samples, turns), n)
  }

  /** One more row: nothing once the run has raised; otherwise the row's
      record, or the raise. */
  lemma RecordsStep(agents: Agents, m: Meter, samples: seq<Sample>, i: nat, turns: int)
    requires i < |samples|
    ensures var before := Records(agents, m, samples, i, turns);
      var rec := RecordFor(agents, m, samples[i], i, turns);
      Records(agents, m, samples, i + 1, turns) ==
        if before.raised then before
        else if rec.None? then Written(before.records, true)
        else Written(before.records + [rec.value], false)
  {
    RowsAt(agents, m, samples, turns, i);
  }

  /** Once a dataset row has raised, later rows add nothing. */
  lemma RecordsRaiseFinal(agents: Agents, m: Meter, samples: seq<Sample>, n: nat, j: nat, turns: int)
    requires n <= j <= |samples|
    requires Records(agents, m, samples, n, turns).raised
    ensures Records(agents, m, samples, j, turns) == Records(agents, m, samples, n, turns)
  {
    RowsRaiseFinal(Rows(agents, m, samples, turns), n, j);
  }

  /** The written records are those of the first rows, in order; the run
      raised exactly when one of the first `n` rows raises, and then the row
      after the last record is the first one that does. */
  lemma RecordsPrefix(agents: Agents, m: Meter, samples: seq<Sample>, n: nat, turns: int)
    requires n <= |samples|
    ensures var w := Records(agents, m, samples, n, turns);
      forall j :: 0 <= j < |w.records| ==> RecordFor(agents, m, samples[j], j, turns) == Some(w.records[j])
    ensures Records(agents, m, samples, n, turns).raised <==>
      exists j :: 0 <= j < n && RecordFor(agents, m, samples[j], j, turns).None?
    ensures var w := Records(agents, m, samples, n, turns);
      w.raised ==> |w.records| < n && RecordFor(agents, m, samples[|w.records|], |w.records|, turns).None?
  {
    var rows := Rows(agents, m, samples, turns);
    RowsWrittenPrefix(rows, n);
    forall j | 0 <= j < n
      ensures rows[j] == RecordFor(agents, m, samples[j], j, turns)
    {
      RowsAt(agents, m, samples, turns, j);
    }
  }

  /** Every record has one metric per turn, numbered 1 to `turns`, and
      `2 * turns + 1` alternating messages ending with the persona's. */
  lemma RecordShape(agents: Agents, m: Meter, sample: Sample, i: nat, turns: int)
    requires turns >= 1
    requires RecordFor(agents, m, sample, i, turns).Some?
    ensures var rec := RecordFor(agents, m, sample, i, turns).value;
      && |rec.metrics| == turns
      && (forall t :: 0 <= t < turns ==> rec.metrics[t].turn == t + 1)
      && |rec.turns| == 2 * turns + 1
      && Alternating(rec.turns)
      && rec.turns[2 * turns].role == ASSISTANT
      && rec.metrics[turns - 1].hypocrisyStatus != SKIPPED
  {
    var prompt := SystemPrompt(sample);
    var start := Start(prompt, sample.question);
    var followup := agents.asker(sample.role, sample.question);
    ConversationShape(agents.persona, followup, start, turns);
    TurnMetricsNumbered(agents.persona, followup, start, m, Embed(m, prompt), Facts(sample), turns);
  }

  /** The metrics of a whole conversation, when they exist, are numbered 1
      to `turns`, and the last turn is judged. */
  lemma TurnMetricsNumbered(persona: seq<Message> -> string, followup: seq<Message> -> string, start: seq<Message>,
                            m: Meter, anchor: seq<real>, facts: seq<string>, turns: int)
    requires turns >= 1
    requires TurnMetrics(persona, followup, start, turns, Measurer(m, anchor, facts, turns), turns).Some?
    ensures var metrics := TurnMetrics(persona, followup, start, turns, Measurer(m, anchor, facts, turns), turns).value;
      && (forall t :: 0 <= t < turns ==> metrics[t].turn == t + 1)
      && metrics[turns - 1].hypocrisyStatus != SKIPPED
  {
    var measure := Measurer(m, anchor, facts, turns);
    TurnMetricsValues(persona, followup, start, turns, measure, turns);
    forall t: nat | t < turns
      ensures measure(persona(Run(persona, followup, start, turns, t)), t).Some? ==>
        && measure(persona(Run(persona, followup, start, turns, t)), t).value.turn == t + 1
        && (t == turns - 1 ==> measure(persona(Run(persona, followup, start, turns, t)), t).value.hypocrisyStatus != SKIPPED)
    {
      MeasuredTurn(m, anchor, facts, turns, persona(Run(persona, followup, start, turns, t)), t);
    }
  }

  /** What `Measurer` gives for one reply when it succeeds: its number, and
      a verdict on the last turn. */
  lemma MeasuredTurn(m: Meter, anchor: seq<real>, facts: seq<string>, turns: int, reply: string, t: nat)
    ensures Measurer(m, anchor, facts, turns)(reply, t).Some? ==> Measurer(m, anchor, facts, turns)(reply, t).value.turn == t + 1
    ensures Measurer(m, anchor, facts, turns)(reply, t).Some? && t == turns - 1 ==>
      Measurer(m, anchor, facts, turns)(reply, t).value.hypocrisyStatus != SKIPPED
  {
    MetricStatus(m, anchor, facts, reply, t, turns);
  }

  /** The body of the row loop: the facts, the prompt and its embedding,
      a fresh simulator with the run's models, and the monitored turns;
      `None` when a measurement raises. */
  method ProcessSample(meter: Meter, modelPersona: Option<string>, modelSimulator: Option<string>,
                       sample: Sample, i: nat, turns: int) returns (rec: Option<Record>)
    ensures rec == RecordFor(RunAgents(meter.b, RunModels(meter.cfg, modelPersona, modelSimulator)), meter, sample, i, turns)
  {
    var models := RunModels(meter.cfg, modelPersona, modelSimulator);
    var facts := GatherFacts(sample);
    var systemPrompt := BuildPrompt(sample);
    var sysEmbedding := LlmClient.GetEmbedding(meter.b, systemPrompt, meter.cfg.embeddingModel, meter.cfg.embeddingProvider);
    var conversation := Start(systemPrompt, sample.question);
    var simulator := new Simulator.UserSimulator(sample.role, sample.question, Some(models.simulator),
                                                 Some(models.simulatorProvider), meter.cfg);
    assert simulator.modelName == models.simulator && simulator.provider == models.simulatorProvider;
    var turnMetrics;
    conversation, turnMetrics := Converse(meter, simulator, conversation, sysEmbedding, facts,
                                          models.persona, models.personaProvider, turns);
    assert RunAgents(meter.b, models).asker(sample.role, sample.question) ==
           Simulator.Asker(meter.b, sample.role, sample.question, models.simulator, models.simulatorProvider);
    if turnMetrics.None? {
      return None;
    }
    rec := Some(Record(ID_PREFIX + NatToString(i), sample.role, sample.question, conversation, turnMetrics.value));
  }

  /** One pass of the row loop: the row's record is written, or the row
      raises and the file keeps what it had. */
  method WriteRow(meter: Meter, modelPersona: Option<string>, modelSimulator: Option<string>,
                  samples: seq<Sample>, i: nat, turns: int, records: seq<Record>) returns (after: Written)
    requires i < |samples|
    requires Records(RunAgents(meter.b, RunModels(meter.cfg, modelPersona, modelSimulator)), meter, samples, i, turns) ==
             Written(records, false)
    ensures after == Records(RunAgents(meter.b, RunModels(meter.cfg, modelPersona, modelSimulator)), meter, samples, i + 1, turns)
  {
    var rec := ProcessSample(meter, modelPersona, modelSimulator, samples[i], i, turns);
    RecordsStep(RunAgents(meter.b, RunModels(meter.cfg, modelPersona, modelSimulator)), meter, samples, i, turns);
    if rec.None? {
      return Written(records, true);
    }
    after := Written(records + [rec.value], false);
  }

  /** `process_monitored`: an unavailable dataset writes nothing; otherwise
      one record for each reached row, until a row raises, which ends the
      run with the records written before it. The prompt's embedding is
      taken once, before the turn loop. */
  method ProcessMonitored(b: LlmClient.Backends, cfg: Config, project: (seq<real>, seq<real>) -> real,
                          dataset: Option<seq<Sample>>, limit: Option<int>, turns: int,
                          modelPersona: Option<string>, modelSimulator: Option<string>)
    returns (records: seq<Record>, raised: bool)
    ensures dataset.None? ==> records == [] && !raised
    ensures dataset.Some? ==>
      Written(records, raised) == Records(RunAgents(b, RunModels(cfg, modelPersona, modelSimulator)), Meter(b, cfg, project),
                                          dataset.value, Reached(limit, |dataset.value|), turns)
  {
    var models := RunModels(cfg, modelPersona, modelSimulator);
    var meter := Meter(b, cfg, project);
    records, raised := [], false;
    if dataset.None? {
      return;
    }
    var samples := dataset.value;
    ReachedIsFirstStop(limit, |samples|);
    ghost var agents := RunAgents(b, models);
    var i := 0;
    while i < |samples|
      invariant i <= Reached(limit, |samples|)
      invariant Records(agents, meter, samples, i, turns) == Written(records, false)
    {
      if Stops(limit, i) {
        break;
      }
      var after := WriteRow(meter, modelPersona, modelSimulator, samples, i, turns, records);
      if after.raised {
        RecordsRaiseFinal(agents, meter, samples, i + 1, Reached(limit, |samples|), turns);
        return after.records, true;
      }
      records := after.records;
      i := i + 1;
    }
    assert i == Reached(limit, |samples|);
  }
}
