/** The mock tracer object of the AI Agent Debugger and the guard the user
    interface calls. One long-lived debugger object serves every request. */
module Debugger {
  import opened PyText
  import opened AgentPipeline
  import opened Render

  /** What the trace panel shows: a placeholder before any run, or a display
      of the log. */
  datatype LogView = NoExecutionYet | Rendered(lines: seq<LogLine>)

  const EnterQueryMessage: string := "Please enter a query"

  class AgentDebugger {
    /** The agent table, keyed by agent. */
    var agents: AgentTable
    /** The step records of the latest run. */
    var executionLog: seq<Entry>

    /** Between requests the table has every agent's row and every agent is
        idle. */
    ghost predicate Valid()
      reads this
    {
      Complete(agents) && AllIdle(agents)
    }

    /** A fresh debugger: every agent idle with no calls and its default
        average latency, and an empty log. */
    constructor ()
      ensures Valid()
      ensures agents == InitialAgents() && executionLog == []
    {
      agents := InitialAgents();
      executionLog := [];
    }

    /** Runs the four agents on `query`, replacing the log by this run's entries
        and counting each invocation; `elapsed` supplies the measured latency
        of each stage. Returns the final response together with the two
        displays of the resulting state. */
    method RunTrace(query: string, elapsed: Clock) returns (final: string, log: seq<LogLine>, metrics: seq<MetricsLine>)
      requires Valid()
      modifies this
      ensures Valid()
      ensures executionLog == Pipeline(query, elapsed)
      ensures agents == AfterRun(old(agents), StagesOf(executionLog))
      ensures final == FinalOutput(executionLog)
      ensures RendersLog(log, executionLog)
      ensures RendersMetrics(metrics, agents)
    {
      ghost var before := agents;
      executionLog := [];

      // Intake
      Invoke(Intake, Entry(Intake, query, "Parsed query: '" + query + "'", elapsed(Intake), 150, Success));

      // Validator
      var isValid := |query| > 5;
      Invoke(Validator, Entry(Validator, "Parsed query: '" + query + "'", "Valid: " + PythonBool(isValid),
                              elapsed(Validator), 200, if isValid then Success else Error));

      if !isValid {
        PipelineOnShortQuery(query, elapsed);
        assert executionLog == Pipeline(query, elapsed);
        CallsAfterRun(before, query, elapsed);
        AgentTablesEqual(agents, AfterRun(before, StagesOf(executionLog)));
        RunKeepsIdleAndLatency(before, query, elapsed);
        final := "Error: Query too short";
        log := FormatLog();
        metrics := FormatMetrics();
        return;
      }

      // Processor
      var result := "Processed: '" + query + "' -> Action identified";
      Invoke(Processor, Entry(Processor, "Valid: " + PythonBool(isValid), result, elapsed(Processor), 350, Success));

      // Responder
      final := "Final response for: '" + query + "'";
      Invoke(Responder, Entry(Responder, result, final, elapsed(Responder), 180, Success));

      PipelineOnValidQuery(query, elapsed);
      assert executionLog == Pipeline(query, elapsed);
      CallsAfterRun(before, query, elapsed);
      AgentTablesEqual(agents, AfterRun(before, StagesOf(executionLog)));
      RunKeepsIdleAndLatency(before, query, elapsed);
      log := FormatLog();
      metrics := FormatMetrics();
    }

    /** One stage of a run: the agent is marked processing, its call is
        counted, the stage's entry is appended to the log, and the agent is
        marked idle again. */
    method Invoke(a: Agent, e: Entry)
      requires Complete(agents)
      modifies this
      ensures Complete(agents)
      ensures executionLog == old(executionLog) + [e]
      ensures agents == old(agents)[a := AgentState(Idle, old(agents[a].calls) + 1, old(agents[a].avgLatency))]
    {
      agents := agents[a := agents[a].(status := Processing)];
      agents := agents[a := agents[a].(calls := agents[a].calls + 1)];
      executionLog := executionLog + [e];
      agents := agents[a := agents[a].(status := Idle)];
    }

    /** The trace display of the current log. */
    method FormatLog() returns (lines: seq<LogLine>)
      ensures RendersLog(lines, executionLog)
    {
      lines := [TraceTitle];
      var i := 0;
      while i < |executionLog|
        invariant 0 <= i <= |executionLog|
        invariant RendersLog(lines, executionLog[..i])
      {
        var entry := executionLog[i];
        ghost var shown := lines;
        lines := lines + [StepHeading(i + 1, DisplayName(entry.agent), entry.status == Success)];
        lines := lines + [InputLine(entry.input)];
        lines := lines + [OutputLine(entry.output)];
        lines := lines + [LatencyLine(entry.latency)];
        lines := lines + [TokensLine(entry.tokens)];
        lines := lines + [BlankLine];
        assert lines == shown + StepLines(i + 1, entry);
        RendersLogAppend(shown, executionLog[..i], entry);
        assert executionLog[..i + 1] == executionLog[..i] + [entry];
        i := i + 1;
      }
      assert executionLog[..i] == executionLog;
    }

    /** The metrics display of the current agent table. */
    method FormatMetrics() returns (lines: seq<MetricsLine>)
      requires Complete(agents)
      ensures RendersMetrics(lines, agents)
    {
      lines := [MetricsTitle];
      lines := lines + [ColumnNames];
      lines := lines + [ColumnRule];
      var k := 0;
      while k < |AgentOrder|
        invariant 0 <= k <= |AgentOrder|
        invariant |lines| == 3 + k
        invariant lines[..3] == [MetricsTitle, ColumnNames, ColumnRule]
        invariant forall j :: 0 <= j < k ==> lines[3 + j] == Row(AgentOrder[j], agents[AgentOrder[j]])
      {
        var name := AgentOrder[k];
        var data := agents[name];
        lines := lines + [AgentRow(Key(name), data.calls, data.avgLatency, data.status)];
        k := k + 1;
      }
    }
  }

  /** The handler behind the submit button: a blank query gets a prompt and
      the metrics display, and leaves the debugger untouched; any other query,
      untrimmed, goes to the tracer. */
  method TraceAgents(debugger: AgentDebugger, query: string, elapsed: Clock)
    returns (result: string, log: LogView, metrics: seq<MetricsLine>)
    requires debugger.Valid()
    modifies debugger
    ensures debugger.Valid()
    ensures IsBlank(query) ==>
      && result == EnterQueryMessage
      && log == NoExecutionYet
      && debugger.agents == old(debugger.agents)
      && debugger.executionLog == old(debugger.executionLog)
    ensures !IsBlank(query) ==>
      && debugger.executionLog == Pipeline(query, elapsed)
      && debugger.agents == AfterRun(old(debugger.agents), StagesOf(debugger.executionLog))
      && result == FinalOutput(debugger.executionLog)
      && log.Rendered? && RendersLog(log.lines, debugger.executionLog)
    ensures RendersMetrics(metrics, debugger.agents)
  {
    if Strip(query) == [] {
      result := "Please enter a query";
      log := NoExecutionYet;
      metrics := debugger.FormatMetrics();
      return;
    }
    var lines;
    result, lines, metrics := debugger.RunTrace(query, elapsed);
    log := Rendered(lines);
  }

  // ---------------------------------------------------------------------------
  // The long-lived debugger across many requests.

  /** One press of the submit button: the text in the query box and the
      latencies that run would measure. */
  datatype Submission = Submission(query: string, elapsed: Clock)

  /** The agent table after the handler has served `subs` in order, starting
      from `t`. */
  function Session(t: AgentTable, subs: seq<Submission>): (r: AgentTable)
    requires Complete(t)
    ensures Complete(r)
    decreases |subs|
  {
    if subs == [] then t
    else
      var prev := Session(t, subs[..|subs| - 1]);
      var s := subs[|subs| - 1];
      if IsBlank(s.query) then prev else AfterRun(prev, StagesOf(Pipeline(s.query, s.elapsed)))
  }

  /** The execution log after the handler has served `subs` in order,
      starting from `log`: each traced query replaces the log by its own run,
      so it never builds up across requests, and a session of blank queries
      leaves it as it was. */
  function LastLog(log: seq<Entry>, subs: seq<Submission>): (r: seq<Entry>)
    ensures Traced(subs) == 0 ==> r == log
    ensures Traced(subs) > 0 ==> 0 < |r| <= |AgentOrder|
    decreases |subs|
  {
    if subs == [] then log
    else
      var s := subs[|subs| - 1];
      if IsBlank(s.query) then LastLog(log, subs[..|subs| - 1])
      else
        RunStagesShape(AgentOrder, s.query, s.query, s.elapsed);
        Pipeline(s.query, s.elapsed)
  }

  /** After a session the log is the run of the last submission that got past
      the guard. */
  lemma {:induction false} LastLogIsLastTraced(log: seq<Entry>, subs: seq<Submission>, j: nat)
    requires j < |subs| && !IsBlank(subs[j].query)
    requires forall k :: j < k < |subs| ==> IsBlank(subs[k].query)
    ensures LastLog(log, subs) == Pipeline(subs[j].query, subs[j].elapsed)
    decreases |subs|
  {
    if j < |subs| - 1 {
      var init := subs[..|subs| - 1];
      assert init[j] == subs[j];
      LastLogIsLastTraced(log, init, j);
    }
  }

  /** The long-lived debugger serving `subs` through the handler, one after
      another: its agent table follows `Session` and its log `LastLog`. */
  method Serve(debugger: AgentDebugger, subs: seq<Submission>)
    requires debugger.Valid()
    modifies debugger
    ensures debugger.Valid()
    ensures debugger.agents == Session(old(debugger.agents), subs)
    ensures debugger.executionLog == LastLog(old(debugger.executionLog), subs)
  {
    ghost var t0 := debugger.agents;
    ghost var l0 := debugger.executionLog;
    var i := 0;
    while i < |subs|
      invariant 0 <= i <= |subs|
      invariant debugger.Valid()
      invariant debugger.agents == Session(t0, subs[..i])
      invariant debugger.executionLog == LastLog(l0, subs[..i])
    {
      ghost var prev := debugger.agents;
      var result, log, metrics := TraceAgents(debugger, subs[i].query, subs[i].elapsed);
      SessionStep(t0, subs, i);
      LastLogStep(l0, subs, i);
      if IsBlank(subs[i].query) {
        assert debugger.agents == prev;
      } else {
        assert debugger.agents == AfterRun(prev, StagesOf(Pipeline(subs[i].query, subs[i].elapsed)));
      }
      i := i + 1;
    }
    assert subs[..i] == subs;
  }

  /** Serving one more submission extends the session by that submission. */
  lemma SessionStep(t: AgentTable, subs: seq<Submission>, i: nat)
    requires Complete(t) && i < |subs|
    ensures Session(t, subs[..i + 1]) ==
      if IsBlank(subs[i].query) then Session(t, subs[..i])
      else AfterRun(Session(t, subs[..i]), StagesOf(Pipeline(subs[i].query, subs[i].elapsed)))
  {
    var p := subs[..i + 1];
    assert p[..|p| - 1] == subs[..i];
    assert p[|p| - 1] == subs[i];
  }

  /** Serving one more submission replaces the log by its run unless the
      query is blank. */
  lemma LastLogStep(log: seq<Entry>, subs: seq<Submission>, i: nat)
    requires i < |subs|
    ensures LastLog(log, subs[..i + 1]) ==
      if IsBlank(subs[i].query) then LastLog(log, subs[..i])
      else Pipeline(subs[i].query, subs[i].elapsed)
  {
    var p := subs[..i + 1];
    assert p[..|p| - 1] == subs[..i];
    assert p[|p| - 1] == subs[i];
  }

  /** How many of `subs` reach the tracer, and how many of those pass
      validation. */
  function Traced(subs: seq<Submission>): nat {
    if subs == [] then 0
    else Traced(subs[..|subs| - 1]) + (if IsBlank(subs[|subs| - 1].query) then 0 else 1)
  }

  function Accepted(subs: seq<Submission>): nat {
    if subs == [] then 0
    else
      var q := subs[|subs| - 1].query;
      Accepted(subs[..|subs| - 1]) + (if !IsBlank(q) && IsValidQuery(q) then 1 else 0)
  }

  /** Over a whole session, intake and validator count every query that got
      past the guard, processor and responder count the ones that also passed
      validation, and no average latency ever changes. */
  lemma {:induction false} SessionCounters(t: AgentTable, subs: seq<Submission>)
    requires Complete(t)
    ensures var r := Session(t, subs);
      && r[Intake].calls == t[Intake].calls + Traced(subs)
      && r[Validator].calls == t[Validator].calls + Traced(subs)
      && r[Processor].calls == t[Processor].calls + Accepted(subs)
      && r[Responder].calls == t[Responder].calls + Accepted(subs)
      && (forall a: Agent :: r[a].avgLatency == t[a].avgLatency)
      && (AllIdle(t) ==> AllIdle(r))
    decreases |subs|
  {
    if subs != [] {
      var init := subs[..|subs| - 1];
      SessionCounters(t, init);
      var s := subs[|subs| - 1];
      if !IsBlank(s.query) {
        CallsAfterRun(Session(t, init), s.query, s.elapsed);
        RunKeepsIdleAndLatency(Session(t, init), s.query, s.elapsed);
      }
    }
  }

  /** A fresh debugger after any session: every agent is idle, intake counts
      the traced queries, processor the accepted ones, and each average
      latency is still its default. */
  lemma FreshSession(subs: seq<Submission>)
    ensures var r := Session(InitialAgents(), subs);
      && r[Intake].calls == Traced(subs) && r[Validator].calls == Traced(subs)
      && r[Processor].calls == Accepted(subs) && r[Responder].calls == Accepted(subs)
      && forall a: Agent :: r[a].status == Idle && r[a].avgLatency == DefaultLatency(a)
  {
    SessionCounters(InitialAgents(), subs);
  }

  /** The leading-whitespace step of stripping "  ab  ". */
  lemma TrimStartExample()
    ensures TrimStart("  ab  ") == "ab  "
  {
    assert IsSpace(' ') && !IsSpace('a');
    assert "  ab  "[1..] == " ab  " && " ab  "[1..] == "ab  ";
    assert TrimStart("ab  ") == "ab  ";
    assert TrimStart(" ab  ") == "ab  ";
  }

  /** The trailing-whitespace step of stripping "  ab  ". */
  lemma TrimEndExample()
    ensures TrimEnd("ab  ") == "ab"
  {
    assert IsSpace(' ') && !IsSpace('b');
    assert "ab  "[..3] == "ab " && "ab "[..2] == "ab";
    assert TrimEnd("ab") == "ab";
    assert TrimEnd("ab ") == "ab";
  }

  /** The guard trims only to decide; validation counts the surrounding
      whitespace: "  ab  " reaches the tracer and passes validation although
      its trimmed text has two characters. */
  lemma UntrimmedQueryValidates()
    ensures !IsBlank("  ab  ") && IsValidQuery("  ab  ")
    ensures |Strip("  ab  ")| == 2
  {
    TrimStartExample();
    TrimEndExample();
  }
}
