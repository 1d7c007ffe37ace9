/** The mock multi-agent pipeline of the AI Agent Debugger: its four agents,
    the per-agent counters kept in the debugger's agent table, the entries a
    trace run records, and a reference definition of what one run records. */
module AgentPipeline {

  /** The four mock agents. */
  datatype Agent = Intake | Validator | Processor | Responder

  /** The agents in the insertion order of the debugger's agent table, which
      is also the order in which a run invokes them. */
  const AgentOrder: seq<Agent> := [Intake, Validator, Processor, Responder]

  /** The agent's key in the agent table. */
  function Key(a: Agent): string {
    match a
    case Intake => "intake"
    case Validator => "validator"
    case Processor => "processor"
    case Responder => "responder"
  }

  /** The agent's name as a trace entry records it. */
  function DisplayName(a: Agent): string {
    match a
    case Intake => "Intake Agent"
    case Validator => "Validator Agent"
    case Processor => "Processor Agent"
    case Responder => "Responder Agent"
  }

  /** The fixed token count each agent reports. */
  function TokenCount(a: Agent): nat {
    match a
    case Intake => 150
    case Validator => 200
    case Processor => 350
    case Responder => 180
  }

  /** The average latency (seconds) the agent table starts with; nothing ever
      recomputes it. */
  function DefaultLatency(a: Agent): real {
    match a
    case Intake => 0.3
    case Validator => 0.5
    case Processor => 0.8
    case Responder => 0.4
  }

  datatype Status = Idle | Processing

  /** One row of the agent table: `{"status", "calls", "avg_latency"}`. */
  datatype AgentState = AgentState(status: Status, calls: nat, avgLatency: real)

  type AgentTable = map<Agent, AgentState>

  /** Every agent is one of the four in the stage order. */
  lemma AgentListed(a: Agent)
    ensures a == Intake || a == Validator || a == Processor || a == Responder
  {
  }

  /** The table has a row for every agent. */
  predicate Complete(t: AgentTable) {
    forall a: Agent :: a in t
  }

  /** The table a fresh debugger starts with. */
  function InitialAgents(): (t: AgentTable)
    ensures Complete(t)
    ensures forall a: Agent :: t[a] == AgentState(Idle, 0, DefaultLatency(a))
  {
    var t := map[Intake := AgentState(Idle, 0, DefaultLatency(Intake)),
                 Validator := AgentState(Idle, 0, DefaultLatency(Validator)),
                 Processor := AgentState(Idle, 0, DefaultLatency(Processor)),
                 Responder := AgentState(Idle, 0, DefaultLatency(Responder))];
    assert forall a: Agent :: a in t by {
      forall a: Agent ensures a in t {
        AgentListed(a);
      }
    }
    t
  }

  /** The `status` field of a trace entry: "success" or "error". */
  datatype Outcome = Success | Error

  /** One record of the execution log. */
  datatype Entry = Entry(agent: Agent, input: string, output: string, latency: real, tokens: nat, status: Outcome)

  /** The elapsed time measured around each agent's stage. The wall clock and
      the sleeps are outside the model; a run receives the measurements. */
  type Clock = Agent -> real

  /** The validation rule: the raw query, surrounding whitespace included,
      must be longer than five characters. */
  predicate IsValidQuery(query: string) {
    |query| > 5
  }

  /** How Python renders a `bool` inside an f-string. */
  function PythonBool(b: bool): string {
    if b then "True" else "False"
  }

  const TooShortMessage: string := "Error: Query too short"

  /** What each stage produces for a query. */
  function StageOutput(a: Agent, query: string): string {
    match a
    case Intake => "Parsed query: '" + query + "'"
    case Validator => "Valid: " + PythonBool(IsValidQuery(query))
    case Processor => "Processed: '" + query + "' -> Action identified"
    case Responder => "Final response for: '" + query + "'"
  }

  /** Only the validator can fail, and it fails exactly on invalid queries. */
  function StageStatus(a: Agent, query: string): Outcome {
    if a == Validator && !IsValidQuery(query) then Error else Success
  }

  /** The entry stage `a` records when it receives `input`. */
  function StageEntry(a: Agent, query: string, input: string, elapsed: Clock): Entry {
    Entry(a, input, StageOutput(a, query), elapsed(a), TokenCount(a), StageStatus(a, query))
  }

  /** Reference definition of a run: the stages execute in order, each one's
      input is the previous one's output, and the run stops right after the
      first stage that fails. */
  function RunStages(stages: seq<Agent>, query: string, input: string, elapsed: Clock): seq<Entry>
    decreases |stages|
  {
    if stages == [] then []
    else
      var e := StageEntry(stages[0], query, input, elapsed);
      [e] + if e.status == Error then [] else RunStages(stages[1..], query, e.output, elapsed)
  }

  /** The log one run over the whole pipeline records; the first stage gets
      the raw query. */
  function Pipeline(query: string, elapsed: Clock): seq<Entry> {
    RunStages(AgentOrder, query, query, elapsed)
  }

  /** What a run returns: the rejection message when the run stopped at a
      failure, otherwise the last stage's output. */
  function FinalOutput(trace: seq<Entry>): string
    requires trace != []
  {
    var last := trace[|trace| - 1];
    if last.status == Error then TooShortMessage else last.output
  }

  /** The agents that a log records as invoked, in log order. */
  function StagesOf(trace: seq<Entry>): seq<Agent>
  {
    seq(|trace|, i requires 0 <= i < |trace| => trace[i].agent)
  }

  /** How many times `a` occurs in `stages`. */
  function Count(stages: seq<Agent>, a: Agent): nat {
    if stages == [] then 0
    else (if stages[0] == a then 1 else 0) + Count(stages[1..], a)
  }

  /** The agent table after a run that invoked `ran`: each invocation adds one
      call and leaves its agent idle; an agent the run did not invoke keeps
      its row; no average latency changes. */
  function AfterRun(t: AgentTable, ran: seq<Agent>): (r: AgentTable)
    requires Complete(t)
    ensures Complete(r)
  {
    map a | a in t ::
      AgentState(if Count(ran, a) == 0 then t[a].status else Idle, t[a].calls + Count(ran, a), t[a].avgLatency)
  }

  /** Every agent is idle. */
  predicate AllIdle(t: AgentTable)
    requires Complete(t)
  {
    forall a: Agent :: t[a].status == Idle
  }

  /** Two complete tables with the same row for every agent are equal. */
  lemma AgentTablesEqual(t: AgentTable, u: AgentTable)
    requires Complete(t) && Complete(u)
    requires t[Intake] == u[Intake] && t[Validator] == u[Validator]
    requires t[Processor] == u[Processor] && t[Responder] == u[Responder]
    ensures t == u
  {
    forall a: Agent
      ensures t[a] == u[a]
    {
      AgentListed(a);
    }
    assert t.Keys == u.Keys;
  }

  // ---------------------------------------------------------------------------
  // Properties of the reference definition, for any stage list.

  /** A run's log follows the stage order without skipping or reordering,
      every entry but the last succeeded, and the run ends early only at a
      failure. */
  lemma {:induction false} RunStagesShape(stages: seq<Agent>, query: string, input: string, elapsed: Clock)
    ensures var t := RunStages(stages, query, input, elapsed);
      && |t| <= |stages|
      && (stages != [] ==> t != [])
      && (forall i :: 0 <= i < |t| ==> t[i].agent == stages[i])
      && (forall i :: 0 <= i < |t| - 1 ==> t[i].status == Success)
      && (|t| < |stages| ==> t[|t| - 1].status == Error)
    decreases |stages|
  {
    if stages != [] {
      var e := StageEntry(stages[0], query, input, elapsed);
      if e.status != Error {
        RunStagesShape(stages[1..], query, e.output, elapsed);
      }
    }
  }

  /** A run's entries form a chain: the first receives the run's input, and
      each later one receives the previous entry's output. Every entry reports
      its agent's fixed token count and its stage's output. */
  lemma {:induction false} RunStagesChain(stages: seq<Agent>, query: string, input: string, elapsed: Clock)
    ensures var t := RunStages(stages, query, input, elapsed);
      && (t != [] ==> t[0].input == input)
      && (forall i :: 0 < i < |t| ==> t[i].input == t[i - 1].output)
      && (forall i :: 0 <= i < |t| ==> t[i].tokens == TokenCount(t[i].agent))
      && (forall i :: 0 <= i < |t| ==> t[i].output == StageOutput(t[i].agent, query))
    decreases |stages|
  {
    if stages != [] {
      var e := StageEntry(stages[0], query, input, elapsed);
      if e.status != Error {
        var rest := RunStages(stages[1..], query, e.output, elapsed);
        RunStagesChain(stages[1..], query, e.output, elapsed);
        assert RunStages(stages, query, input, elapsed) == [e] + rest;
      }
    }
  }

  // ---------------------------------------------------------------------------
  // The concrete pipeline.

  /** The agents a run invokes are a prefix of the stage order, the form in
      which the counter update consumes them. */
  lemma PipelineStages(query: string, elapsed: Clock)
    ensures |Pipeline(query, elapsed)| <= |AgentOrder|
    ensures StagesOf(Pipeline(query, elapsed)) == AgentOrder[..|Pipeline(query, elapsed)|]
  {
    RunStagesShape(AgentOrder, query, query, elapsed);
  }

  /** A valid query runs all four agents, each succeeding, and the run returns
      the responder's output. */
  lemma PipelineOnValidQuery(query: string, elapsed: Clock)
    requires IsValidQuery(query)
    ensures Pipeline(query, elapsed) == [
      Entry(Intake, query, "Parsed query: '" + query + "'", elapsed(Intake), 150, Success),
      Entry(Validator, "Parsed query: '" + query + "'", "Valid: True", elapsed(Validator), 200, Success),
      Entry(Processor, "Valid: True", "Processed: '" + query + "' -> Action identified", elapsed(Processor), 350, Success),
      Entry(Responder, "Processed: '" + query + "' -> Action identified", "Final response for: '" + query + "'", elapsed(Responder), 180, Success)]
    ensures FinalOutput(Pipeline(query, elapsed)) == "Final response for: '" + query + "'"
  {
    var tail := [Responder];
    assert "Valid: " + PythonBool(true) == "Valid: True";
    assert AgentOrder[1..] == [Validator, Processor, Responder];
    assert AgentOrder[1..][1..] == [Processor, Responder];
    assert AgentOrder[1..][1..][1..] == tail;
    assert tail[1..] == [];
  }

  /** A query of at most five characters stops after the validator, which
      records "Valid: False" with status error; the run returns the rejection
      message. */
  lemma PipelineOnShortQuery(query: string, elapsed: Clock)
    requires !IsValidQuery(query)
    ensures Pipeline(query, elapsed) == [
      Entry(Intake, query, "Parsed query: '" + query + "'", elapsed(Intake), 150, Success),
      Entry(Validator, "Parsed query: '" + query + "'", "Valid: False", elapsed(Validator), 200, Error)]
    ensures FinalOutput(Pipeline(query, elapsed)) == TooShortMessage
  {
    assert "Valid: " + PythonBool(false) == "Valid: False";
    assert AgentOrder[1..] == [Validator, Processor, Responder];
  }

  /** The counter arithmetic of one run: intake and validator gain one call
      each and end idle; processor and responder do the same when the query
      is valid and are left untouched otherwise; no average latency changes. */
  lemma CallsAfterRun(t: AgentTable, query: string, elapsed: Clock)
    requires Complete(t)
    ensures var r := AfterRun(t, StagesOf(Pipeline(query, elapsed)));
      && r[Intake] == AgentState(Idle, t[Intake].calls + 1, t[Intake].avgLatency)
      && r[Validator] == AgentState(Idle, t[Validator].calls + 1, t[Validator].avgLatency)
      && (IsValidQuery(query) ==>
            && r[Processor] == AgentState(Idle, t[Processor].calls + 1, t[Processor].avgLatency)
            && r[Responder] == AgentState(Idle, t[Responder].calls + 1, t[Responder].avgLatency))
      && (!IsValidQuery(query) ==> r[Processor] == t[Processor] && r[Responder] == t[Responder])
  {
    var ran := StagesOf(Pipeline(query, elapsed));
    if IsValidQuery(query) {
      PipelineOnValidQuery(query, elapsed);
      assert ran == [Intake, Validator, Processor, Responder];
      assert ran[1..] == [Validator, Processor, Responder];
      assert ran[1..][1..] == [Processor, Responder];
      assert ran[1..][1..][1..] == [Responder];
    } else {
      PipelineOnShortQuery(query, elapsed);
      assert ran == [Intake, Validator];
      assert ran[1..] == [Validator];
      assert ran[1..][1..] == [];
      forall a: Agent
        ensures Count(ran, a) == (if a == Intake || a == Validator then 1 else 0)
      {
        assert Count(ran[1..][1..], a) == 0;
        assert Count(ran[1..], a) == (if a == Validator then 1 else 0);
      }
    }
  }

  /** A run leaves every agent idle if all were idle before it, and changes no
      average latency. */
  lemma RunKeepsIdleAndLatency(t: AgentTable, query: string, elapsed: Clock)
    requires Complete(t)
    ensures var r := AfterRun(t, StagesOf(Pipeline(query, elapsed)));
      && (AllIdle(t) ==> AllIdle(r))
      && forall a: Agent :: r[a].avgLatency == t[a].avgLatency
  {
  }
}
