# AI Agent Debugger: the mock tracer, modelled in Dafny

The AI Agent Debugger is a demo of a multi-agent execution tracer. A Gradio
form collects a query. The handler `trace_agents` turns away blank queries.
Any other query goes to one long-lived `AgentDebugger` object, whose
`run_trace` pushes it through a fixed chain of four mock agents: intake,
validator, processor and responder. Each stage marks its agent as processing,
counts the call, appends a step record to the execution log and marks the
agent idle again. The validator rejects queries of five characters or fewer,
and the run then stops after it. The object renders the log and its agent
table as two markdown displays.

This project models that object and its guard, and proves what one run does
and what many runs do to it.

- `text.dfy` (module `PyText`): Python's `str.isspace` set and `str.strip()`,
  which the guard uses. Strings are sequences of Unicode scalar values, so
  `|s|` is Python's `len(s)` for any `str` without lone surrogates.
- `pipeline.dfy` (module `AgentPipeline`): the agents and their constants,
  the agent table (`map<Agent, AgentState>`), the log entries, and a reference
  definition of a run. `RunStages` folds over the stage order. It feeds each
  stage the previous stage's output and stops right after the first failure.
  `AfterRun` gives the agent table after a run. It adds one call per recorded
  invocation, leaves invoked agents idle, keeps other rows and never touches
  an average latency. The lemmas connect this reference definition to the
  concrete four-stage chain.
- `render.dfy` (module `Render`): the two displays as sequences of structured
  lines. `RendersLog` says a line sequence shows a log: one title line, then
  six lines per entry, numbered from 1 in log order. `RendersMetrics` says a
  line sequence shows the agent table: three heading lines, then one row per
  agent in the table's insertion order.
- `debugger.dfy` (module `Debugger`): class `AgentDebugger` with fields
  `agents` and `executionLog`. `RunTrace` mirrors `run_trace` step by step,
  with the early return, and is proved against `Pipeline` and `AfterRun`.
  `FormatLog` and `FormatMetrics` are loops that build line sequences.
  `TraceAgents` is the guard. `Serve` is the long-lived debugger handling a
  sequence of submissions through `TraceAgents`, and is proved to follow
  `Session`, a fold of one request's effect on the agent table; the session
  lemmas are about that fold.

Three behaviours of the code that a reader might expect otherwise (the model
follows the code):

- Validation uses the raw query's length, surrounding whitespace included.
  The guard strips only to decide whether the query is blank
  (`UntrimmedQueryValidates`).
- `avg_latency` is a constant per agent. No run recomputes it.
- A blank query is not an error value. The handler returns the message
  "Please enter a query", the placeholder "No execution yet" and the metrics
  display.

## Model

| member | source | states |
|---|---|---|
| `PyText.TrimStart` | app.py:123 | the result is a suffix of the input; everything dropped is whitespace; the result is empty or starts with a non-space |
| `PyText.TrimEnd` | app.py:123 | the result is a prefix of the input; everything dropped is whitespace; the result is empty or ends with a non-space |
| `PyText.Strip` | app.py:123 | `query.strip()` is a slice of the query; it is empty exactly when every character is whitespace; otherwise it starts and ends with a non-space |
| `AgentPipeline.InitialAgents` | app.py:14-19 | the starting table has a row for every agent: idle, 0 calls, its fixed average latency (0.3, 0.5, 0.8, 0.4) |
| `AgentPipeline.Pipeline` | app.py:22-93 | reference definition of one run's log: the stages intake, validator, processor, responder in that order, the first fed the raw query, each later one the previous output, stopping right after the first failure (its properties are the lemmas below) |
| `AgentPipeline.FinalOutput` | app.py:57-93 | reference definition of a run's result: the rejection message if the last entry failed, otherwise the last entry's output |
| `AgentPipeline.AfterRun` | app.py:28-40 | the agent table after a run keeps a row for every agent; each invocation adds one call and leaves its agent idle, an agent not invoked keeps its row, and no average latency changes |
| `AgentPipeline.RunStagesShape` | app.py:22-93 | a run's log follows the stage order without skipping or reordering; every entry but the last succeeded; a run shorter than the stage list ended on an error entry |
| `AgentPipeline.RunStagesChain` | app.py:34-35 | the first entry's input is the run's input; each later entry's input is the previous entry's output; each entry has its agent's token count and its stage's output |
| `AgentPipeline.PipelineStages` | app.py:27-93 | the agents a run invokes are a prefix of the order intake, validator, processor, responder |
| `AgentPipeline.PipelineOnValidQuery` | app.py:61-93 | if `len(query) > 5`, the log is exactly the four entries Intake, Validator, Processor, Responder, all with status success, with tokens 150/200/350/180 and the inputs and outputs of the source; the result is "Final response for: '<query>'" |
| `AgentPipeline.PipelineOnShortQuery` | app.py:42-59 | if `len(query) <= 5`, the log is exactly two entries; the second has output "Valid: False" and status error; the result is "Error: Query too short" |
| `AgentPipeline.CallsAfterRun` | app.py:27-93 | one run gives intake and validator each one more call and leaves them idle; processor and responder get the same when the query is valid, and otherwise their rows are untouched |
| `AgentPipeline.RunKeepsIdleAndLatency` | app.py:27-93 | after a run every agent is idle if all were idle before, and no `avg_latency` changed |
| `Render.StepLines` | app.py:99-105 | one log entry is shown as exactly six lines |
| `Render.RendersLogAppend` | app.py:98-105 | showing one more entry appends its six lines, numbered after the entries already shown |
| `Render.RendersLogSteps` | app.py:98-105 | block i of the log display is headed "Step i+1" with entry i's agent and success mark, and shows that entry's input, output, latency and tokens, then a blank line |
| `Render.RendersLogUnique` | app.py:95-106 | a log has exactly one display |
| `Render.RendersMetricsUnique` | app.py:108-116 | an agent table has exactly one display, so displaying it twice without a run gives equal results |
| `Debugger.AgentDebugger.constructor` | app.py:13-20 | a new debugger holds the initial agent table and an empty log |
| `Debugger.AgentDebugger.RunTrace` | app.py:22-93 | the log is replaced by exactly this run's entries (the reference `Pipeline`); the table becomes `AfterRun` of the old one over the agents the log records; the result is the last entry's output, or the rejection message if the run stopped at the failed validator; every agent ends idle; the two returned displays show the new log and table |
| `Debugger.AgentDebugger.Invoke` | app.py:28-40 | one stage marks its agent processing, counts one call, appends its entry and leaves the agent idle; no other row changes |
| `Debugger.AgentDebugger.FormatLog` | app.py:95-106 | without changing anything, returns the display of the current log: 1 title line plus 6 lines per entry, numbered 1..n in log order |
| `Debugger.AgentDebugger.FormatMetrics` | app.py:108-116 | without changing anything, returns the display of the agent table: 3 heading lines, then one row per agent in the order intake, validator, processor, responder, each with its calls, average latency and status |
| `Debugger.TraceAgents` | app.py:122-126 | a blank query returns "Please enter a query" and the placeholder, and leaves the agents and the log unchanged; any other query runs the tracer on the untrimmed text; either way the metrics display shows the table afterwards |
| `Debugger.Session` | app.py:119-126 | the agent table after the handler has served a sequence of submissions keeps a row for every agent; a blank query leaves it, any other applies one run's update |
| `Debugger.LastLog` | app.py:119-126 | the log after a sequence of submissions never builds up, since each run starts by clearing it (app.py:24): it is unchanged when no query got past the guard, and otherwise holds one run of 1 to 4 entries |
| `Debugger.LastLogIsLastTraced` | app.py:122-126 | after a session the log is exactly the run of the last submission whose query was not blank |
| `Debugger.LastLogStep` | app.py:122-126 | one more submission replaces the log by its run, unless its query is blank, in which case the log stays |
| `Debugger.Serve` | app.py:119-126 | one debugger handling a sequence of submissions through the handler ends with the agent table `Session` gives for them, all agents idle, and with the log `LastLog` gives: the last traced run's entries, or the old log if every query was blank |
| `Debugger.SessionStep` | app.py:122-126 | one more submission leaves the session's table unchanged if the query is blank, and otherwise applies one run's counter update |
| `Debugger.SessionCounters` | app.py:119-126 | over any sequence of submissions, intake and validator gain one call per non-blank query, processor and responder one per non-blank valid query; no average latency changes; all-idle is preserved |
| `Debugger.FreshSession` | app.py:119 | starting from a fresh debugger, the counters equal those counts, every agent is idle and every average latency is its default |
| `Debugger.UntrimmedQueryValidates` | app.py:47 | "  ab  " gets past the guard and passes validation, although its stripped text has two characters |

## Left out

- The Gradio user interface (app.py:128-165): blocks, components, the click wiring and `demo.launch`. It is presentation code over a library outside the model.
- `time.sleep` and the wall-clock latencies `round(time.time() - start, 3)`. A run receives the measured latency of each stage as a `Clock` parameter, and each entry records that value.
- The markdown text of the displays: the `"\n".join`, the emoji marks, the `**` decorations, `str.capitalize()` of the agent key, and how Python prints floats and ints. The displays are modelled as sequences of structured lines that carry the same data. A log line carries the success flag from which the mark is chosen. A metrics row carries the agent's key and status.
- The unused local `results` (app.py:25) and the unused `json` and `datetime` imports.
- The module-level singleton `debugger` (app.py:119) is passed to `TraceAgents` and `Serve` as a parameter.
- Lone surrogates: Dafny's `char` is a Unicode scalar value, so a Python `str` that holds a lone surrogate (one decoded with `surrogateescape`, say) cannot be represented; Python's `len` counts such a surrogate as one character.
- Concurrent requests: the handler and the object are modelled as serving one request at a time.
