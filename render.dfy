/** The two displays the debugger produces, as sequences of structured lines:
    the execution trace (one heading plus six lines per log entry) and the
    agent metrics table (three heading lines plus one row per agent). */
module Render {
  import opened AgentPipeline

  /** One line of the execution-trace display. */
  datatype LogLine =
    | TraceTitle                                           // "## Execution Trace"
    | StepHeading(step: nat, agent: string, ok: bool)      // "### Step i: <agent> <mark>"
    | InputLine(input: string)                             // "- **Input:** ..."
    | OutputLine(output: string)                           // "- **Output:** ..."
    | LatencyLine(seconds: real)                           // "- **Latency:** ...s"
    | TokensLine(tokens: nat)                              // "- **Tokens:** ..."
    | BlankLine                                            // ""

  /** One line of the agent-metrics display. */
  datatype MetricsLine =
    | MetricsTitle                                         // "## Agent Metrics"
    | ColumnNames                                          // "| Agent | Calls | Avg Latency | Status |"
    | ColumnRule                                           // "|-------|-------|..."
    | AgentRow(name: string, calls: nat, avgLatency: real, status: Status)

  /** The six lines shown for the `step`-th entry of the log; the mark after
      the agent's name is the success mark exactly when the entry succeeded. */
  function StepLines(step: nat, e: Entry): (r: seq<LogLine>)
    ensures |r| == 6
  {
    [StepHeading(step, DisplayName(e.agent), e.status == Success),
     InputLine(e.input),
     OutputLine(e.output),
     LatencyLine(e.latency),
     TokensLine(e.tokens),
     BlankLine]
  }

  /** `lines` displays `log`: a title, then the entries in log order, the i-th
      (counting from 1) under the heading "Step i". */
  predicate RendersLog(lines: seq<LogLine>, log: seq<Entry>) {
    && |lines| == 1 + 6 * |log|
    && lines[0] == TraceTitle
    && forall i :: 0 <= i < |log| ==> lines[1 + 6 * i .. 7 + 6 * i] == StepLines(i + 1, log[i])
  }

  /** The row shown for one agent. */
  function Row(a: Agent, s: AgentState): MetricsLine {
    AgentRow(Key(a), s.calls, s.avgLatency, s.status)
  }

  /** `lines` displays the agent table: the three heading lines, then one row
      per agent in the table's insertion order. */
  predicate RendersMetrics(lines: seq<MetricsLine>, t: AgentTable)
    requires Complete(t)
  {
    && |lines| == 3 + |AgentOrder|
    && lines[..3] == [MetricsTitle, ColumnNames, ColumnRule]
    && forall k :: 0 <= k < |AgentOrder| ==> lines[3 + k] == Row(AgentOrder[k], t[AgentOrder[k]])
  }

  /** Displaying one more entry appends its six lines, numbered after the
      entries already shown. */
  lemma RendersLogAppend(lines: seq<LogLine>, log: seq<Entry>, e: Entry)
    requires RendersLog(lines, log)
    ensures RendersLog(lines + StepLines(|log| + 1, e), log + [e])
  {
  }

  /** There is only one display of a given log. */
  lemma RendersLogUnique(a: seq<LogLine>, b: seq<LogLine>, log: seq<Entry>)
    requires RendersLog(a, log) && RendersLog(b, log)
    ensures a == b
  {
    forall j | 0 <= j < |a|
      ensures a[j] == b[j]
    {
      if j > 0 {
        var i := (j - 1) / 6;
        assert i < |log| && a[1 + 6 * i .. 7 + 6 * i] == StepLines(i + 1, log[i]) == b[1 + 6 * i .. 7 + 6 * i];
        assert a[j] == a[1 + 6 * i .. 7 + 6 * i][j - 1 - 6 * i];
        assert b[j] == b[1 + 6 * i .. 7 + 6 * i][j - 1 - 6 * i];
      }
    }
  }

  /** Reading a display back: the heading of block i names step i + 1 and
      entry i's agent, and the block shows that entry's input, output,
      latency and tokens, and whether it succeeded. */
  lemma RendersLogSteps(lines: seq<LogLine>, log: seq<Entry>, i: nat)
    requires RendersLog(lines, log) && i < |log|
    ensures lines[1 + 6 * i] == StepHeading(i + 1, DisplayName(log[i].agent), log[i].status == Success)
    ensures lines[2 + 6 * i] == InputLine(log[i].input)
    ensures lines[3 + 6 * i] == OutputLine(log[i].output)
    ensures lines[4 + 6 * i] == LatencyLine(log[i].latency)
    ensures lines[5 + 6 * i] == TokensLine(log[i].tokens)
    ensures lines[6 + 6 * i] == BlankLine
  {
  }

  /** There is only one display of a given agent table. */
  lemma RendersMetricsUnique(a: seq<MetricsLine>, b: seq<MetricsLine>, t: AgentTable)
    requires Complete(t)
    requires RendersMetrics(a, t) && RendersMetrics(b, t)
    ensures a == b
  {
    forall j | 0 <= j < |a|
      ensures a[j] == b[j]
    {
      if j < 3 {
        assert a[j] == a[..3][j] && b[j] == b[..3][j];
      } else {
        var k := j - 3;
        assert a[3 + k] == Row(AgentOrder[k], t[AgentOrder[k]]) == b[3 + k];
      }
    }
  }
}
