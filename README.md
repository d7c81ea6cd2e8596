# Persona drift: a Dafny model of the generation and measurement core

The repository studies how a role-playing language model drifts away from
its persona over a long conversation. A persona model talks to a simulated
user, who tries to pull it off character. Several orchestrators run these
conversations over the RoleBench dataset:

- a plain baseline;
- a baseline whose prompt is built from side-loaded RoleBench profiles;
- a run that repeats the system prompt before every reply ("SPR");
- a monitored run that scores every reply;
- the original script with its own small wrapper.

Two evaluators score the replies. One compares each reply with the system
prompt through sentence similarity and an NLI contradiction label. The
other asks an LLM judge whether the reply contradicts the persona's facts.
The IGRC guardrail checks a draft for drift and asks for rewrites a bounded
number of times. A separate script builds persona datasets: it generates
candidate replies, has a judge pick one, and cleans up the text.

The model states in Dafny what each of these does with the strings and
message lists it handles:

- the completion wrapper's context window, prompt format and provider dispatch;
- the simulator's request;
- the shape of every generated conversation and record;
- the judging schedule;
- the drift decision and the rewrite loop;
- the file-loading and list-parsing code.

Every call into a model is a function-typed parameter (an oracle):
completions, embeddings, NLI scores, similarity and judge replies. So each
property holds whatever the models answer.

Modules follow the source files:

| module | file | source |
|---|---|---|
| `Chat`, `Nli` | `chat.dfy` | messages, roles, `x or default`, label argmax |
| `Text` | `text.dfy` | strings: `strip`, `replace`, `split`/`join`, `str(n)`, substring search |
| `Settings` | `config.dfy` | the configuration table, passed as a parameter |
| `LlmClient` | `llm_client.dfy` | `final/src/utils/llm_client.py` |
| `Igrc` | `igrc.dfy` | `final/src/igrc/igrc.py` |
| `Metrics` | `metrics.dfy` | `final/src/analysis/metrics.py` |
| `Simulator` | `simulator.dfy` | `final/src/generation/simulator.py` |
| `Dialogue` | `dialogue.dfy` | the turn loop, row limit, opening log and plain prompt the orchestrators share |
| `Profiles` | `profiles.dfy` | `load_profiles` and `ROLE_PROFILES` of the two profile-based runs |
| `Baseline` | `baseline.dfy` | `final/src/generation/baseline.py` |
| `SprBaseline` | `spr_baseline.dfy` | `final/run_spr_baseline.py` |
| `Monitored` | `monitored.dfy` | `final/src/generation/monitored.py` |
| `MeasureBaseline` | `measure_baseline.dfy` | `final/measure_baseline.py` |
| `GenerationScript` | `generation_script.dfy` | `final/generation_script.py` |
| `GeneratePersonas` | `generate_personas.dfy` | `generate_personas.py` |

Code that works step by step is written as methods with loops:

- the `+=` prompt builders;
- the conversation loops;
- the profile loader, which updates the `ROLE_PROFILES` dictionary held by a class;
- the retry loop;
- the file readers.

Each method is proved equal to a recursive specification function. The
properties are lemmas about those functions.

## Model

| member | source | states |
|---|---|---|
| Chat.Or | final/src/generation/baseline.py:90-91 | `given or fallback` yields the fallback for `None` and for the empty string, and the given value otherwise |
| Chat.NonSystemShape | final/src/generation/simulator.py:48 | the filtered history is no longer than the original; none of its messages is a system message; a message is in it exactly when it is in the history and is not a system message |
| Chat.NonSystemAppend | final/src/generation/simulator.py:48 | filtering a concatenation filters each part: relative order is kept |
| Chat.NonSystemIdentity | final/src/generation/simulator.py:48 | a history without system messages passes the filter unchanged |
| Chat.AssistantContents | final/measure_baseline.py:49 | the list of assistant contents is no longer than the turns |
| Chat.AssistantContentsSnoc | final/measure_baseline.py:49 | appending a message adds its content exactly when it is an assistant message |
| Nli.Argmax | final/src/igrc/igrc.py:48 | the index is in range, no score exceeds the one there, and every earlier score is strictly smaller (numpy picks the first maximum) |
| Nli.ContradictionIff | final/src/igrc/igrc.py:48-52 | the predicted label is 0 (contradiction) exactly when no label scores above label 0 |
| Text.StripShape | generate_personas.py:34 | `strip()` yields a contiguous slice of the input starting after its leading whitespace |
| Text.StripEnds | generate_personas.py:34 | a stripped string is empty or starts and ends with a non-space character |
| Text.StripFixed | generate_personas.py:34 | a string without whitespace at either end is its own strip |
| Text.StripEmptyIff | final/measure_baseline.py:28 | `line.strip()` is empty exactly when every character is whitespace |
| Text.TrimStartShape | generate_personas.py:34 | the left trim drops exactly the leading whitespace: a suffix that is empty or starts with a non-space |
| Text.TrimEndShape | generate_personas.py:34 | the right trim drops exactly the trailing whitespace: a prefix that is empty or ends with a non-space |
| Text.ReplaceChar | final/src/utils/llm_client.py:101 | replacing one character by another keeps the length and changes exactly the positions holding it |
| Text.ReplaceAbsent | generate_personas.py:23-33 | `replace` of a pattern that does not occur changes nothing |
| Text.ReplaceCreatesNoOccurrence | generate_personas.py:23-33 | after `s.replace(p, r)`, a pattern sharing no character with `r` occurs only if it occurred before and is not `p` itself |
| Text.Find | generate_personas.py:87-88 | `-1` exactly when the separator does not occur; otherwise the first position where it occurs |
| Text.JoinSplit | generate_personas.py:86 | joining the parts of `split(sep)` with `sep` gives back the string |
| Text.SplitJoin | final/src/analysis/metrics.py:37 | splitting a join of separator-free parts gives back the parts |
| Text.NatToString | final/src/generation/baseline.py:161 | `str(n)` is non-empty, all digits, with no leading zero except for 0 |
| Text.NatToStringRoundTrip | final/src/generation/baseline.py:161 | the decimal value of `str(n)` is `n` |
| Text.NatToStringInjective | final/src/generation/baseline.py:161 | distinct numbers have distinct decimal strings |
| Text.NumberedDistinct | final/src/generation/baseline.py:161 | ids `prefix + str(i)` for distinct `i` are distinct |
| LlmClient.Window | final/src/utils/llm_client.py:34-39 | at most 11 messages go out; a short history goes unchanged; a long one keeps its leading system message and the last 10, or else the last 11 |
| LlmClient.WindowKeepsOrder | final/src/utils/llm_client.py:34-39 | the window is a subsequence of the history at increasing positions |
| LlmClient.WindowKeepsEnds | final/src/utils/llm_client.py:34-39 | the newest message is always sent last, and a leading system message is always sent first |
| LlmClient.WindowIdempotent | final/src/utils/llm_client.py:34-39 | trimming a trimmed history changes nothing |
| LlmClient.SegmentsAppend | final/src/utils/llm_client.py:22-25 | the template of a concatenation is the concatenation of the templates: one segment per message, in order |
| LlmClient.ReplicatePromptEmpty | final/src/utils/llm_client.py:21-27 | an empty chat formats to the begin marker followed by the assistant header |
| LlmClient.FormatReplicatePrompt | final/src/utils/llm_client.py:13-27 | the `+=` loop builds exactly the begin marker, one segment per message and the assistant header |
| LlmClient.ReplicatePromptFrame | final/src/utils/llm_client.py:21-27 | the prompt starts with `<\|begin_of_text\|>` and ends with the assistant header |
| LlmClient.GetCompletion | final/src/utils/llm_client.py:29-87 | for OpenAI: without a client, the fixed error string; with one, the reply to the window, or `""` when the call raises. For Replicate: `""` without the token; with it, the joined output for the formatted window, or `""` when the call raises. For any other provider: `"Error: Unknown provider "` + the name |
| LlmClient.Complete | final/src/utils/llm_client.py:29-87 | one call of the wrapper is the completion function of its model and provider |
| LlmClient.CompletionSeesOnlyWindow | final/src/utils/llm_client.py:34-39 | two histories with the same window get the same reply from every backend |
| LlmClient.EmbeddingInput | final/src/utils/llm_client.py:101 | the text sent for embedding has the same length, no newline, and a space wherever the input had a newline |
| LlmClient.GetEmbedding | final/src/utils/llm_client.py:89-106 | the empty vector for a provider other than OpenAI and without a client; otherwise the backend's vector for the newline-free text, or the empty vector when the call raises |
| Igrc.CheckDrift | final/src/igrc/igrc.py:31-63 | label 0 gives `(True, contradiction reason)`; otherwise a similarity below 0.4 gives `True` with the stylistic-drift reason; otherwise `(False, "Pass")` |
| Igrc.DriftIff | final/src/igrc/igrc.py:31-63 | a draft drifts exactly when it is labelled a contradiction or its similarity is below 0.4, and the reason is `"Pass"` exactly when it does not drift |
| Igrc.Critique | final/src/igrc/igrc.py:83-91 | the critique quotes the reason, the draft and the persona truth |
| Igrc.Correction | final/src/igrc/igrc.py:94-96 | the correction request is one system message |
| Igrc.AttemptsCount | final/src/igrc/igrc.py:73-101 | at most `max_retries + 1` drafts are checked, and one correction is requested per failed check; when the fix fails, every one of the `max_retries + 1` attempts was checked |
| Igrc.AttemptsChain | final/src/igrc/igrc.py:73-98 | the first checked draft is the given one; each correction answers a failed check with that check's reason and draft; each later draft is the completion of the previous correction |
| Igrc.AttemptsOutcome | final/src/igrc/igrc.py:73-101 | on success the returned draft is the last checked one and passes the check, `retries` is the index of the attempt that passed (one fewer than the drafts checked) and `corrected` is `retries > 0`; when every check fails, `failed_to_fix` is set, `retries` is `max_retries` and the text is the last, unchecked rewrite |
| Igrc.GenerateChain | final/src/igrc/igrc.py:65-101 | the first draft answers the whole history; each failed draft is followed by the critique prompt built from the check's reason; a result without `failed_to_fix` passes `check_drift` |
| Igrc.FirstDraftPasses | final/src/igrc/igrc.py:70-77 | a passing first draft is returned at once, uncorrected, after one check and no rewrite |
| Igrc.NoBudgetNoCheck | final/src/igrc/igrc.py:73-101 | a negative budget returns the first draft unchecked, flagged as failed to fix |
| Igrc.RecursiveGenerate | final/src/igrc/igrc.py:65-101 | the method's text, information, checked drafts and requests are those of `Generate` over the wrapper's completion; the history is the first request, and one more request is sent per failed check; on success the text passed `check_drift`, `retries` is the number of drafts checked minus one and `corrected` is `retries > 0`; on failure `retries` is `max_retries` and all `max_retries + 1` attempts were checked |
| Igrc.RefineLoop | final/src/igrc/igrc.py:73-101 | the `for attempt` loop returns exactly the trace of `Attempts` |
| Metrics.OrthogonalDrift | final/src/analysis/metrics.py:9-25 | 0.0 for an anchor of norm zero, the empty vector of a failed prompt embedding among them; the `ValueError` of `np.dot` (`None`) exactly when the anchor is non-zero and the response has another length, an empty response embedding among them; otherwise the projection of the response onto the anchor |
| Metrics.Bullets | final/src/analysis/metrics.py:37 | one `"- " + fact` line per fact, in order |
| Metrics.FactsTextLines | final/src/analysis/metrics.py:37 | for single-line facts, splitting the facts text at newlines gives back the bullet lines |
| Metrics.HypocrisyPrompt | final/src/analysis/metrics.py:39-47 | the judge prompt quotes the statement and holds the facts text |
| Metrics.JudgeRequest | final/src/analysis/metrics.py:49-50 | the judge is sent one user message holding the statement and the facts |
| Metrics.Upper | final/src/analysis/metrics.py:55 | `upper()` on ASCII letters: the length is kept and each character is mapped by itself |
| Metrics.CheckHypocrisy | final/src/analysis/metrics.py:27-58 | no facts gives `PASS` with the fixed reason; otherwise the reason is the judge's reply, and the verdict is `FAIL` exactly when the upper-cased reply contains `YES` |
| Metrics.EmptyFactsIgnoreJudge | final/src/analysis/metrics.py:32-33 | with no facts the verdict does not depend on backends or configuration |
| Metrics.AnyCaseYesFails | final/src/analysis/metrics.py:55-56 | `yes` in any case anywhere in the reply makes the verdict `FAIL` |
| Simulator.InstructionMentions | final/src/generation/simulator.py:20-31 | the simulator's prompt names the role and the topic and holds the do-not-reciprocate instruction |
| Simulator.FollowupRequestShape | final/src/generation/simulator.py:48-49 | the request is the simulator's system prompt followed by exactly the non-system messages of the history |
| Simulator.RelabelledShape | final/src/generation/simulator.py:34-45 | the relabelled list has one tagged user message per non-system message, in order |
| Simulator.FollowupIgnoresSystemMessages | final/src/generation/simulator.py:48-51 | two histories with the same non-system messages get the same follow-up |
| Simulator.UserSimulator.constructor | final/src/generation/simulator.py:6-10 | role and topic are stored; model and provider fall back to the configuration when absent or empty |
| Simulator.UserSimulator.LastResponse | final/src/generation/simulator.py:14-18 | `""` when no assistant message exists, otherwise the content of the last assistant message |
| Simulator.UserSimulator.RelabelHistory | final/src/generation/simulator.py:34-45 | the loop builds the system prompt followed by the relabelled messages |
| Simulator.UserSimulator.GenerateFollowup | final/src/generation/simulator.py:12-51 | the follow-up is the completion of the filtered request with the simulator's model and provider |
| Dialogue.TurnCount | final/src/generation/baseline.py:145 | `range(turns)` runs `turns` times, and not at all for a negative count |
| Dialogue.RunLength | final/src/generation/baseline.py:145-157 | each iteration adds two messages, and the last adds one |
| Dialogue.RunProduced | final/src/generation/baseline.py:145-157 | every message after the opening is a persona reply or a follow-up, in turn, computed from exactly the messages before it |
| Dialogue.RunExtends | final/src/generation/baseline.py:145-157 | the log only grows: earlier states are prefixes of later ones |
| Dialogue.RunAlternates | final/src/generation/baseline.py:145-157 | from a system and user opening the log alternates user and assistant messages, ending with a user message before the last iteration and an assistant message after it |
| Dialogue.ConversationShape | final/src/generation/baseline.py:145-157 | a finished run of `turns >= 1` has `2 * turns + 1` messages, alternates, and ends with the persona |
| Dialogue.ReplyAt | final/src/generation/baseline.py:145-152 | message `2t + 2` is the persona's reply to the log after `t` iterations |
| Dialogue.NoTurns | final/src/generation/baseline.py:145 | with no iterations the log is the opening |
| Dialogue.ReachedIsFirstStop | final/src/generation/baseline.py:114-116 | `if limit and i >= limit: break` stops at the first row the limit reaches; `None` and `0` process every row and a negative limit processes none |
| Dialogue.SystemPromptMentions | final/src/generation/monitored.py:55 | the plain persona prompt names the role and holds both columns |
| Dialogue.BuildPrompt | final/generation_script.py:64 | the f-string is the plain persona prompt with missing columns read as `""` |
| Profiles.TableEntries | final/src/generation/baseline.py:46-56 | every role of either file gets an entry, and no other role; the description defaults to `""`; a missing or empty-string script gives no phrases, a string gives one phrase, a list is kept |
| Profiles.OneStringScript | final/src/generation/baseline.py:50-51 | a single-string script yields at most one phrase, never an empty one |
| Profiles.EntryAdded | final/src/generation/baseline.py:53-56 | setting one more role's entry extends the merged table by exactly that role |
| Profiles.ProfileStore.constructor | final/src/generation/baseline.py:21 | the table starts empty |
| Profiles.ProfileStore.Load | final/src/generation/baseline.py:23-58 | a missing description file or scripts file raises and leaves the table unchanged; otherwise the table becomes the old one overridden by the loaded entries |
| Baseline.FirstExamples | final/src/generation/baseline.py:79 | `phrases[:5]` is a prefix of at most five phrases, and all of them when there are five or fewer |
| Baseline.AuthenticPromptFrame | final/src/generation/baseline.py:60-86 | the prompt opens with the role and description and closes with the stay-in-character line; the examples header is there when the profile has phrases; without phrases nothing else is |
| Baseline.ExamplesListed | final/src/generation/baseline.py:79-81 | each non-empty phrase gets its own line; the list is empty exactly when every phrase is |
| Baseline.PromptShowsFirstFive | final/src/generation/baseline.py:77-81 | the prompt depends only on the first five phrases, and lists each non-empty one of them |
| Baseline.BuildPrompt | final/src/generation/baseline.py:74-86 | the `+=` builder yields exactly the authentic prompt |
| Baseline.ConstructAuthenticPrompt | final/src/generation/baseline.py:60-86 | loads the profiles only when the table is empty, raising then if a file is missing; the prompt is built from the role's entry, or from an empty one |
| Baseline.KeptRows | final/src/generation/baseline.py:114-124 | the kept rows are, in increasing order, exactly the reached rows whose role has a profile |
| Baseline.RecordsAreKeptRows | final/src/generation/baseline.py:114-166 | one record per kept row, in order, each built from that row and its index |
| Baseline.RecordIdsDistinct | final/src/generation/baseline.py:161 | no two records share an id |
| Baseline.RecordsShape | final/src/generation/baseline.py:127-166 | every record of a run with `turns >= 1` has `2 * turns + 1` alternating turns ending with the persona, opens with its prompt and question, and its role has a profile whose authentic prompt is the record's prompt |
| Baseline.Converse | final/src/generation/baseline.py:145-157 | the turn loop produces the conversation of the wrapper's persona completion and the simulator |
| Baseline.Exchange | final/src/generation/baseline.py:147-157 | one iteration appends the reply and, before the last, the follow-up |
| Baseline.ProcessSample | final/src/generation/baseline.py:127-166 | the record of one row with a profile; the profile table is not changed |
| Baseline.ProcessRolebench | final/src/generation/baseline.py:88-169 | a failed dataset load ends the run before the profiles are read; a missing profile file raises; otherwise the profiles are loaded and the records are those of the rows up to the limit whose role has a profile |
| SprBaseline.BulletsLength | final/run_spr_baseline.py:67-68 | each shown phrase adds its own length and three characters |
| SprBaseline.BulletsListed | final/run_spr_baseline.py:67-68 | every shown phrase has its own bullet, empty phrases included |
| SprBaseline.SprPromptFrame | final/run_spr_baseline.py:50-72 | the prompt opens with the role line and closes with the short stay-in-character line; without phrases nothing else is |
| SprBaseline.SprPromptLists | final/run_spr_baseline.py:65-68 | each of the first five phrases is listed |
| SprBaseline.BuildPrompt | final/run_spr_baseline.py:62-72 | the `+=` builder yields exactly the SPR prompt |
| SprBaseline.ConstructAuthenticPrompt | final/run_spr_baseline.py:50-72 | lazy load as in the baseline, then the SPR prompt of the role's entry |
| SprBaseline.ReinjectionMentions | final/run_spr_baseline.py:133-137 | the reinjected text repeats the whole system prompt and ends with the original query |
| SprBaseline.SprContextOnlyLast | final/run_spr_baseline.py:125-139 | the copy sent to the persona differs from the log only in the content of a final user message, which is reinjected |
| SprBaseline.ReinjectedEveryTurn | final/run_spr_baseline.py:120-139 | at every iteration the log ends with a user message, so every completion receives a reinjected query |
| SprBaseline.LogKeepsOriginals | final/run_spr_baseline.py:120-154 | the stored log keeps the opening and the follow-ups as said, and each reply is the completion of the rewritten copy of the log before it |
| SprBaseline.RecordsAreKeptRows | final/run_spr_baseline.py:92-163 | one record per reached row whose role has a profile, in order |
| SprBaseline.RecordsShape | final/run_spr_baseline.py:102-163 | each record has `2 * turns + 1` alternating turns ending with the persona, opens with its system prompt, and names the SPR method |
| SprBaseline.SprReply | final/run_spr_baseline.py:125-146 | the deep copy, the rewrite and the call give the SPR persona's reply to the log |
| SprBaseline.Converse | final/run_spr_baseline.py:120-154 | the loop produces the conversation of the SPR persona and the simulator |
| SprBaseline.Exchange | final/run_spr_baseline.py:125-154 | one iteration is one turn of the SPR persona and the simulator, and grows the log |
| SprBaseline.ProcessRolebenchSpr | final/run_spr_baseline.py:74-165 | a missing profile file raises; otherwise the profiles are loaded and the records are those of the reached rows with a profile |
| Monitored.Facts | final/src/generation/monitored.py:50-53 | the facts are the description and profile columns, then the knowledge column when the row has one |
| Monitored.GatherFacts | final/src/generation/monitored.py:50-53 | the list built by the source is exactly the facts |
| Monitored.DueCountAll | final/src/generation/monitored.py:108 | a conversation of `turns >= 1` turns is judged `ceil(turns / 5)` times |
| Monitored.DueCountBefore | final/src/generation/monitored.py:108 | before the last turn, one turn in five is judged |
| Monitored.DefaultSchedule | final/src/generation/monitored.py:108 | with 20 turns the judge runs exactly on turns 5, 10, 15 and 20 |
| Monitored.MetricStatus | final/src/generation/monitored.py:97-116 | the measurement raises exactly when the anchor is non-zero and the reply's embedding has another length; otherwise the metric numbers the turn from 1 and carries the drift score, a turn that is not due is `SKIPPED` with no reason, and a due turn carries the judge's verdict, `PASS` or `FAIL` |
| Monitored.TurnMetrics | final/src/generation/monitored.py:85-117 | once every measurement succeeded, one metric per iteration |
| Monitored.TurnMetricsValues | final/src/generation/monitored.py:85-117 | when the metrics exist, metric `t` is the successful measurement of the persona reply of iteration `t` |
| Monitored.TurnMetricsMatchReplies | final/src/generation/monitored.py:85-117 | when the metrics exist, one metric per iteration, each measuring the persona reply at position `2t + 2` of the log |
| Monitored.TurnMetricsSucceed | final/src/generation/monitored.py:85-117 | the metrics exist exactly when the measurement of every persona reply succeeds |
| Monitored.ZeroAnchorNeverRaises | final/src/analysis/metrics.py:17-18 | with a zero (or empty) prompt embedding no turn raises and every drift score is 0.0 |
| Monitored.TurnMetricsRaiseFinal | final/src/generation/monitored.py:85-117 | once a measurement has raised, no later iteration gives metrics |
| Monitored.MeasuredTurn | final/src/generation/monitored.py:106-116 | a successful measurement numbers the turn from 1, and the last turn is always judged |
| Monitored.TurnMetricsNumbered | final/src/generation/monitored.py:106-117 | when a whole conversation is measured, its metrics are numbered 1 to `turns` and the last one is judged |
| Monitored.MeasureTurn | final/src/generation/monitored.py:97-117 | the embedding, the drift score, the schedule check and the metric of one reply; `None` when the drift score raises, before the judge is asked |
| Monitored.MonitoredTurn | final/src/generation/monitored.py:87-123 | one pass of the turn loop: the measurement of the persona's reply and, when it succeeds, the conversation after the turn |
| Monitored.Converse | final/src/generation/monitored.py:85-123 | the loop's metrics, `None` when a measurement raises; when they exist, the conversation |
| Monitored.RowsWritten | final/src/generation/monitored.py:37-134 | the file holds at most one record per row, and one per row when nothing raised |
| Monitored.RowsWrittenPrefix | final/src/generation/monitored.py:37-134 | the records are the first rows', in order; the run raised exactly when a row raised, and then at the row after the last record |
| Monitored.RowsRaiseFinal | final/src/generation/monitored.py:37-134 | after a raise, later rows add nothing |
| Monitored.Rows | final/src/generation/monitored.py:38-132 | one result per dataset row |
| Monitored.RowsAt | final/src/generation/monitored.py:38-132 | the result of row `i` is that row's record, or its raise |
| Monitored.Records | final/src/generation/monitored.py:37-134 | at most one record per reached row, and one per reached row when no row raised |
| Monitored.RecordsStep | final/src/generation/monitored.py:37-134 | one more row: nothing after a raise, else that row's record or its raise |
| Monitored.RecordsRaiseFinal | final/src/generation/monitored.py:37-134 | once a row has raised, later rows add nothing |
| Monitored.RecordsPrefix | final/src/generation/monitored.py:37-134 | the written records are those of the first rows, in order; the run raised exactly when one of the reached rows raises, and it stopped at the first such row |
| Monitored.RecordShape | final/src/generation/monitored.py:85-132 | each written record has `turns` metrics numbered 1 to `turns`, `2 * turns + 1` alternating turns ending with the persona, and a judged last turn |
| Monitored.ProcessSample | final/src/generation/monitored.py:42-132 | the record of one row, or `None` when one of its measurements raises |
| Monitored.WriteRow | final/src/generation/monitored.py:38-134 | one pass of the row loop moves the file from `i` rows to `i + 1` |
| Monitored.ProcessMonitored | final/src/generation/monitored.py:15-134 | a failed dataset load writes nothing; otherwise one record per row up to the limit, until a row raises, which ends the run with the records written before it |
| MeasureBaseline.NonBlankShape | final/measure_baseline.py:27-29 | the kept lines are exactly the lines that are not blank |
| MeasureBaseline.NonBlankAppend | final/measure_baseline.py:27-29 | the filter keeps file order |
| MeasureBaseline.NonBlankIdentity | final/measure_baseline.py:27-29 | a file without blank lines is kept whole |
| MeasureBaseline.Parsed | final/measure_baseline.py:29 | one parsed record per kept line, in order |
| MeasureBaseline.LoadStep | final/measure_baseline.py:27-29 | each line adds its parsed record exactly when it is not blank |
| MeasureBaseline.LoadConversations | final/measure_baseline.py:24-30 | the records of the non-blank lines, in order |
| MeasureBaseline.IsContradiction | final/measure_baseline.py:59-61 | the flag is 0 or 1 |
| MeasureBaseline.IsContradictionIff | final/measure_baseline.py:59-61 | the flag is 1 exactly when no label scores above label 0, and 0 exactly when some label does |
| MeasureBaseline.ScoredShape | final/measure_baseline.py:51-70 | one metric per reply, numbered from 1, with the record's id and role, the similarity to the prompt and the contradiction flag of that reply |
| MeasureBaseline.EvaluationShape | final/measure_baseline.py:32-72 | there is no result exactly when the prompt is missing or empty; otherwise one metric per assistant message, in order |
| MeasureBaseline.EvaluateConversation | final/measure_baseline.py:32-72 | the guard, the assistant-turn filter and the loop give the evaluation |
| MeasureBaseline.Replies | final/measure_baseline.py:49 | one persona reply per iteration of the generating loop |
| MeasureBaseline.RunReplies | final/measure_baseline.py:49 | the assistant messages of a generated log are the opening's, then the persona's replies in order |
| MeasureBaseline.TurnReply | final/measure_baseline.py:49 | an iteration adds exactly the persona's reply to the assistant messages |
| MeasureBaseline.OneMetricPerTurn | final/measure_baseline.py:32-72 | a generated record with a prompt gets one metric per turn, the `t`-th scoring the persona's reply after `t` iterations |
| MeasureBaseline.ReplyListed | final/measure_baseline.py:49 | the `t`-th reply is the persona's answer to the log after `t` iterations |
| MeasureBaseline.AllResultsAppend | final/measure_baseline.py:81-84 | the results of a concatenation are the results of the parts, in order |
| MeasureBaseline.AllResultsOneRecord | final/measure_baseline.py:81-84 | a record without a prompt adds nothing; one with a prompt adds its evaluation in place |
| MeasureBaseline.RunEvaluation | final/measure_baseline.py:74-84 | the results of the loaded records, in file order |
| GenerationScript.InstructionMentions | final/generation_script.py:35-41 | the simulator's prompt names the character and the topic |
| GenerationScript.FollowupRequest | final/generation_script.py:44 | the request is the simulator's system message followed by the whole history |
| GenerationScript.RequestKeepsPersonaPrompt | final/generation_script.py:44 | nothing is filtered: the persona's system message is sent second, and the non-system messages are those of the history |
| GenerationScript.UserSimulator.constructor | final/generation_script.py:27-29 | role and topic are stored |
| GenerationScript.UserSimulator.GenerateFollowup | final/generation_script.py:31-46 | the follow-up is the endpoint's reply, with the simulator model, to the request |
| GenerationScript.PersonaReply | final/generation_script.py:16-23 | the endpoint's reply with the persona model |
| GenerationScript.Converse | final/generation_script.py:76-84 | the 20-iteration loop produces the conversation of the persona and the simulator |
| GenerationScript.Records | final/generation_script.py:57-92 | one record per processed row, in order |
| GenerationScript.Processed | final/generation_script.py:59 | at most ten rows are processed: all of them, or the first ten |
| GenerationScript.RecordShape | final/generation_script.py:64-92 | every record has 41 alternating turns that open with the plain prompt and the question and end with the persona |
| GenerationScript.RecordIdsDistinct | final/generation_script.py:88 | no two records share an id |
| GenerationScript.ProcessRolebench | final/generation_script.py:48-93 | at most ten records, those of the first rows |
| GeneratePersonas.SubstitutionsWellFormed | generate_personas.py:23-33 | every pattern is non-ASCII and whitespace-free; every replacement is ASCII and whitespace-free |
| GeneratePersonas.SqueezeShape | generate_personas.py:34 | `re.sub(r"\s+", " ", s)` leaves no two whitespace characters in a row |
| GeneratePersonas.SubstituteRemoves | generate_personas.py:23-33 | after the chain of replacements, no listed pattern occurs |
| GeneratePersonas.SubstituteAbsent | generate_personas.py:23-33 | text without any pattern passes the replacements unchanged |
| GeneratePersonas.SqueezeCreatesNoOccurrence | generate_personas.py:34 | collapsing whitespace creates no pattern |
| GeneratePersonas.SqueezeFixed | generate_personas.py:34 | collapsed text is not changed by collapsing again |
| GeneratePersonas.CleanTextIsClean | generate_personas.py:22-35 | cleaned text holds no listed pattern, no run of whitespace, and no whitespace at either end |
| GeneratePersonas.CleanTextFixes | generate_personas.py:22-35 | clean text is its own cleaning |
| GeneratePersonas.CleanTextIdempotent | generate_personas.py:22-35 | cleaning twice is cleaning once |
| GeneratePersonas.SubstitutionApplied | generate_personas.py:23-33 | each pattern on its own cleans to its replacement: the earlier replacements do not interfere |
| GeneratePersonas.EarlierPatternAbsent | generate_personas.py:23-33 | no pattern contains an earlier one |
| GeneratePersonas.Candidate | generate_personas.py:87-89 | a line yields a candidate exactly when it contains `". "` |
| GeneratePersonas.AfterSep | generate_personas.py:88 | `split(". ", 1)[1]` exists exactly when the separator occurs |
| GeneratePersonas.Take | generate_personas.py:90 | `xs[:n]` is a prefix of length at most `n`, and all of `xs` when it is short |
| GeneratePersonas.CandidatesAppend | generate_personas.py:86-89 | candidates of concatenated lines are the candidates of each part, in order |
| GeneratePersonas.CandidatesOfLine | generate_personas.py:87-89 | a line without the separator gives nothing; one with it gives the cleaned text after the first separator |
| GeneratePersonas.CandidatesClean | generate_personas.py:86-89 | every candidate is clean text |
| GeneratePersonas.ParseCandidates | generate_personas.py:84-90 | the loop yields the first ten candidates of the reply's lines, in order |
| GeneratePersonas.ParseLine | generate_personas.py:87-89 | one line's candidate |
| GeneratePersonas.Digits | generate_personas.py:114 | dropping the underscores of a numeral leaves digits only, and a plain digit string unchanged |
| GeneratePersonas.ParseIntRoundTrip | generate_personas.py:114 | `int(str(n)) == n` for every integer of at most 4300 digits |
| GeneratePersonas.ParseIntDigitLimit | generate_personas.py:114 | a digit string parses to its value exactly when it has at most 4300 digits |
| GeneratePersonas.ParseLiteralOverlong | generate_personas.py:114 | more than 4300 digits do not read as an integer: `int()` raises |
| GeneratePersonas.OverlongReplySelectsFirst | generate_personas.py:113-117 | a reply of more than 4300 digits selects candidate 0 |
| GeneratePersonas.ParseLiteralOfDigits | generate_personas.py:114 | a digit string within the limit parses to its decimal value |
| GeneratePersonas.ParseLiteralOfNegative | generate_personas.py:114 | a minus sign followed by digits within the limit parses to the negated value |
| GeneratePersonas.ParseIntIgnoresPadding | generate_personas.py:114 | surrounding whitespace does not change the parse |
| GeneratePersonas.ParseIntNeedsDigit | generate_personas.py:113-116 | a reply without a digit does not parse |
| GeneratePersonas.WinnerIndex | generate_personas.py:113-117 | the stripped reply parsed as an integer, and 0 when it does not parse or has no text |
| GeneratePersonas.PyIndex | generate_personas.py:134 | `candidates[i]` exists exactly when `-len <= i < len`, and a negative index counts from the end |
| GeneratePersonas.TurnsFailureFinal | generate_personas.py:125-142 | once a turn raises, the run has failed whatever follows |
| GeneratePersonas.TurnsShape | generate_personas.py:125-142 | after `k` turns, `2k` messages and `k` utterances; each turn asks a user query of the history so far, records the history ending in that query, its candidates and the judge's index, and appends the candidate at that index as the assistant message |
| GeneratePersonas.StepShape | generate_personas.py:126-142 | one turn appends the query and the winner, and one utterance that copies the history with the query |
| GeneratePersonas.SessionFailureFinal | generate_personas.py:125-142 | a persona whose turn raises has no output, however many turns follow |
| GeneratePersonas.PersonaAgentsFacts | generate_personas.py:126-133 | the first query is the greeting; later queries are the cleaned question; at most ten candidates, all clean |
| GeneratePersonas.RunShape | generate_personas.py:125-142 | for agents that greet first and propose at most ten clean candidates: the first message is the greeting, and every assistant message is a clean candidate of its turn |
| GeneratePersonas.SessionShape | generate_personas.py:121-142 | a persona's finished session opens with the greeting and answers each turn with one of at most ten clean candidates |
| GeneratePersonas.NextQuery | generate_personas.py:126-129 | the greeting on turn 0, the cleaned question afterwards |
| GeneratePersonas.SelectWinner | generate_personas.py:94-117 | the judge's reply mapped to an index with the fallback to 0 |
| GeneratePersonas.RunTurns | generate_personas.py:125-142 | the ten-turn loop computes the run, or fails on an out-of-range index |
| GeneratePersonas.GenerateForPersona | generate_personas.py:122-142 | one persona's session |
| GeneratePersonas.OutputsShape | generate_personas.py:120-145 | a completed script has one output per persona, in order, holding that persona's utterances |
| GeneratePersonas.AllOutputsShape | generate_personas.py:120-145 | each output holds the persona's ten utterances |
| GeneratePersonas.GenerateAll | generate_personas.py:120-145 | the persona loop computes the outputs, or fails |
| GeneratePersonas.OutputsFailureFinal | generate_personas.py:120-145 | a persona whose run raises stops the script before anything is written |

## Left out

- Network, model and library internals: the OpenAI and Replicate clients, sentence embeddings, cross-encoders and `cos_sim` appear only as oracle parameters. Temperatures, `max_new_tokens` and the fixed prompts of the persona-generation calls are not modelled, because they only reach those oracles.
- Floating point: similarities, scores and embeddings are `real`. The norm test of `calculate_orthogonal_drift` is modelled as "every component is zero", which is equivalent for real numbers. The projection `dot / norm` is the oracle `project`.
- Metrics.OrthogonalDrift: the value for a non-zero anchor of the response's length is stated only as the oracle's projection, because a square root over reals is not modelled. The `ValueError` for a length mismatch is modelled; other NumPy errors (NaN, non-numeric entries) are not.
- Igrc.CheckDrift: the stylistic-drift reason is stated only to start with its fixed text, because the score's two-decimal rendering is the oracle `showScore`. `NLI_THRESHOLD` is set but never read in the source, so it is not modelled.
- Metrics.Upper: only ASCII letters are upper-cased, one character for one, because Unicode case mapping is not modelled. Python's `upper()` also maps non-ASCII letters and can lengthen a string: `'ß'` becomes `"SS"` and `'ſ'` becomes `"S"`.
- Metrics.CheckHypocrisy: inherits the gap of `Upper`. A judge reply such as `"yeſ"` or `"yeß"` upper-cases to a string holding `YES` in Python, so the source reports `FAIL` where the model reports `PASS`. For replies of ASCII letters the two agree.
- GeneratePersonas.WinnerIndex: `int()` of a reply accepts only the ASCII digits `0`-`9` here, because Python's other Unicode decimal digits are not modelled. Whitespace follows Python's `str.isspace()`. The digit limit is CPython's default of 4300 (Python 3.11 and later); a limit changed through `PYTHONINTMAXSTRDIGITS` or `sys.set_int_max_str_digits` is not modelled.
- I/O: files, JSON encoding and decoding, tqdm, `print`, `argparse`, dotenv, `os.makedirs` and the output file. The JSONL writers are modelled by the list of records they write, in order; `flush` is not modelled. `load_conversations` is modelled over the file's lines with `json.loads` as the oracle `parse`.
- Dataset loading and `shuffle(seed=42)`: the dataset is a parameter, already shuffled. A load failure is `None` where the source catches it.
- A `None` message content from the OpenAI client is not modelled: the reply is a string.
- GenerationScript.Endpoint: the OpenAI calls of `generation_script.py:16-23` are not wrapped in `try`, so an API error ends that script with the records written so far; the endpoint here always answers.
- GeneratePersonas.Oracles: the API calls of `generate_new_question` (`generate_personas.py:47-53`), `generate_candidate_responses` (`generate_personas.py:78-84`) and `select_winner` (`generate_personas.py:107-112`) are not wrapped in `try`, so an API error ends the script before anything is written; the oracles here always answer. Only the parse of the judge's reply (`generate_personas.py:113-116`) is guarded, and its failure gives index 0.
- `final/src/utils/openai_client.py` and `final/src/config.py` are not part of this model. The configuration is the parameter `Settings.Config`.
- The pandas data frame and CSV file of `measure_baseline.py` are left out: they only store the results list that `RunEvaluation` states.
- `generate_personas.py` runs at module level; its loop is modelled as functions over the three oracles of `Oracles`. The history string interpolated into the prompts is not modelled: each oracle receives the history itself.
- GenerationScript.UserSimulator.GenerateFollowup: requires a non-empty history, because the source reads `conversation_history[-1]`, which raises on an empty list; the value read is never used.
- SprBaseline.SprReply: requires a non-empty log, because the source reads `spr_context[-1]` before the call.
