/**
  The monthly driver: the initial state, one pass of the compiled graph over the shared state,
  and the month-by-month loop that rolls the state over between passes.

  The four LLM agents are opaque: each is a function from the state its superstep sees to its
  own report (or an exception). Routing, the human prompt and the execution node are modelled
  exactly, by the modules of the same names.
 */
module Pipeline {

  import opened Results
  import opened Types
  import opened Routing
  import Graph
  import Human
  import Execution
  import Utils

  /** The four agent steps, each returning only its own report. */
  datatype Agents = Agents(
    analyst: SharedState -> Result<Report>,
    quant: SharedState -> Result<Report>,
    cio: SharedState -> Result<Report>,
    risk: SharedState -> Result<RiskReport>)

  /** The keys the agent steps write. */
  const ReportKeys: set<Key> := {AnalystReportKey, QuantReportKey, CioReportKey, RiskReportKey}

  // ---------------------------------------------------------------- initial state

  /**
    `initial_state`: the first month of the data set, a capital of 1000, a previous split of
    0.6 / 0.4, and the year and month its label names. Every report starts out empty.
   */
  function InitialState(data: seq<MarketData>): (r: Result<SharedState>)
    ensures data == [] ==> r == Failure(IndexError("list index out of range"))
    ensures data != [] && Utils.ConvertDate(data[0].month).Failure? ==>
              r == Failure(Utils.ConvertDate(data[0].month).error)
    ensures r.Success? <==> data != [] && Utils.ConvertDate(data[0].month).Success?
    ensures r.Success? ==> r.value.marketData == Some(data[0]) && r.value.currentMonth == Some(data[0].month)
    ensures r.Success? ==> r.value.year.Some? && r.value.month.Some? && 1 <= r.value.month.value <= 12
    ensures r.Success? ==> r.value.capital == Some(1000.0)
    ensures r.Success? ==> r.value.prevEquityAllocation == Some(0.6) && r.value.prevBondAllocation == Some(0.4)
    ensures r.Success? ==> forall k :: k in ResetKeys ==> IsNone(r.value, k)
  {
    if data == [] then Failure(IndexError("list index out of range"))
    else
      var parsed := Utils.ConvertDate(data[0].month);
      if parsed.Failure? then Failure(parsed.error)
      else
        var state := EmptyState.(
          capital := Some(1000.0),
          marketData := Some(data[0]),
          currentMonth := Some(data[0].month),
          prevEquityAllocation := Some(0.6),
          prevBondAllocation := Some(0.4),
          year := Some(parsed.value.0),
          month := Some(parsed.value.1));
        assert forall k :: k in ResetKeys ==> IsNone(state, k) by { NoReportsInitially(state); }
        Success(state)
  }

  /** The initial year and month are the ones the first month's label names. */
  lemma InitialDate(data: seq<MarketData>)
    requires InitialState(data).Success?
    ensures (InitialState(data).value.year.value, InitialState(data).value.month.value) ==
            Utils.ConvertDate(data[0].month).value
    ensures Utils.IsLabelOf(data[0].month, InitialState(data).value.year.value, InitialState(data).value.month.value)
  {
    Utils.ConvertDateSound(data[0].month);
  }

  /** A state whose reports and approval are None has every reset key None. */
  lemma NoReportsInitially(s: SharedState)
    requires s.analystReport.None? && s.quantReport.None? && s.riskReport.None?
    requires s.cioReport.None? && s.humanApproval.None?
    ensures forall k :: k in ResetKeys ==> IsNone(s, k)
  {
  }

  // ---------------------------------------------------------------- agent supersteps

  /** Superstep 1: AnalystAgent and QuantAgent both run on the same state; their writes are merged. */
  function FanOut(s: SharedState, agents: Agents): (r: Result<SharedState>)
    ensures r.Success? <==> agents.analyst(s).Success? && agents.quant(s).Success?
    ensures r.Success? ==> r.value.analystReport == Some(agents.analyst(s).value)
    ensures r.Success? ==> r.value.quantReport == Some(agents.quant(s).value)
    ensures r.Success? ==> SameExcept(s, r.value, {AnalystReportKey, QuantReportKey})
    ensures r.Failure? ==> (agents.analyst(s).Failure? && r.error == agents.analyst(s).error) ||
                           (agents.quant(s).Failure? && r.error == agents.quant(s).error)
  {
    var analystReport :- agents.analyst(s);
    var quantReport :- agents.quant(s);
    Success(s.(analystReport := Some(analystReport), quantReport := Some(quantReport)))
  }

  /** Superstep 2: CIOAgent writes its proposal. */
  function CioStep(s: SharedState, agents: Agents): (r: Result<SharedState>)
    ensures r.Success? <==> agents.cio(s).Success?
    ensures r.Success? ==> r.value.cioReport == Some(agents.cio(s).value)
    ensures r.Success? ==> SameExcept(s, r.value, {CioReportKey})
    ensures r.Failure? ==> r.error == agents.cio(s).error
  {
    var report :- agents.cio(s);
    Success(s.(cioReport := Some(report)))
  }

  /** Superstep 3: RiskAgent writes its verdict. */
  function RiskStep(s: SharedState, agents: Agents): (r: Result<SharedState>)
    ensures r.Success? <==> agents.risk(s).Success?
    ensures r.Success? ==> r.value.riskReport == Some(agents.risk(s).value)
    ensures r.Success? ==> SameExcept(s, r.value, {RiskReportKey})
    ensures r.Failure? ==> r.error == agents.risk(s).error
  {
    var report :- agents.risk(s);
    Success(s.(riskReport := Some(report)))
  }

  /**
    The three agent supersteps of a pass. The CIO sees both fan-out reports (the join), and
    the risk agent sees the CIO's proposal; nothing but the four reports changes.
   */
  function AgentPhase(s: SharedState, agents: Agents): (r: Result<SharedState>)
    ensures agents.analyst(s).Failure? || agents.quant(s).Failure? ==> r.Failure?
    ensures r.Success? ==>
              && r.value.analystReport.Some? && r.value.quantReport.Some?
              && r.value.cioReport.Some? && r.value.riskReport.Some?
    ensures r.Success? ==> SameExcept(s, r.value, ReportKeys)
    ensures r.Success? ==> r.value.analystReport == Some(agents.analyst(s).value)
    ensures r.Success? ==> r.value.quantReport == Some(agents.quant(s).value)
    ensures r.Success? ==>
              var joined := r.value.(cioReport := s.cioReport, riskReport := s.riskReport);
              agents.cio(joined).Success? && r.value.cioReport == Some(agents.cio(joined).value)
    ensures r.Success? ==>
              var proposed := r.value.(riskReport := s.riskReport);
              agents.risk(proposed).Success? && r.value.riskReport == Some(agents.risk(proposed).value)
  {
    var joined :- FanOut(s, agents);
    var proposed :- CioStep(joined, agents);
    var assessed := RiskStep(proposed, agents);
    if assessed.Success? then
      SameExceptTrans(s, joined, proposed, {AnalystReportKey, QuantReportKey}, {CioReportKey});
      SameExceptTrans(s, proposed, assessed.value, {AnalystReportKey, QuantReportKey, CioReportKey}, {RiskReportKey});
      assert assessed.value.(riskReport := s.riskReport) == proposed;
      assert assessed.value.(cioReport := s.cioReport, riskReport := s.riskReport) == joined;
      assessed
    else
      assessed
  }

  // ---------------------------------------------------------------- one pass

  /** What one invocation of the graph leaves behind. */
  datatype PassRecord = PassRecord(
    state: SharedState,
    console: seq<string>,
    routed: Graph.Node,
    steps: seq<set<Graph.Node>>,
    outcome: Execution.ExecutionOutcome)

  /** The keys a pass may write: the four reports and the approval. */
  const PassKeys: set<Key> := ReportKeys + {HumanApprovalKey}

  /** The approval a pass ends with: implicit on Pass, the first valid console token otherwise. */
  function PassApproval(verdict: Verdict, console: seq<string>): Option<HumanApproval> {
    if IsPassVerdict(verdict) then Some(Approve)
    else if Human.FirstValid(console).Some? then Some(Human.FirstValid(console).value.0)
    else None
  }

  /** The verdict the risk agent returned, when the agent supersteps succeeded. */
  function AssessedVerdict(s: SharedState, agents: Agents): Verdict
    requires AgentPhase(s, agents).Success?
  {
    AgentPhase(s, agents).value.riskReport.value.verdict
  }

  /**
    The exception a pass from `s` stops with, if any, in the order the pass meets them: an
    agent's own exception, an unknown verdict at the router, then the end of the console
    input while the human prompt waits for a valid answer.
   */
  ghost function PassFailure(s: SharedState, agents: Agents, console: seq<string>): Option<Exception> {
    if AgentPhase(s, agents).Failure? then Some(AgentPhase(s, agents).error)
    else if Routing.RouteCIODecision(AssessedVerdict(s, agents)).Failure? then Some(ValueError("Invalid risk verdict"))
    else if PassApproval(AssessedVerdict(s, agents), console).None? then Some(EOFError)
    else None
  }

  /**
    `p` is the pass the graph makes from `s` with the console input `console`: routed by the
    verdict, taking the supersteps of that route, changing only the reports and the approval,
    consuming the console input up to the first valid answer, and rebalancing exactly on
    approval.
   */
  ghost predicate PassOf(s: SharedState, agents: Agents, console: seq<string>, p: PassRecord) {
    && PassFailure(s, agents, console).None?
    && var verdict := AssessedVerdict(s, agents);
    && p.routed == (if IsPassVerdict(verdict) then Graph.ExecutionNode else Graph.HumanNode)
    && p.steps == Graph.Schedule(p.routed)
    && Graph.IsRun(p.steps, p.routed)
    && SameExcept(AgentPhase(s, agents).value, p.state, {HumanApprovalKey})
    && p.state.humanApproval == PassApproval(verdict, console)
    && SameExcept(s, p.state, PassKeys)
    && p.state.analystReport.Some? && p.state.quantReport.Some?
    && p.state.cioReport.Some? && p.state.riskReport.Some?
    && p.console == (if IsPassVerdict(verdict) then console else console[Human.FirstValid(console).value.1..])
    && var cio := p.state.cioReport.value;
    && (p.outcome == Execution.Rebalanced(cio.equities, cio.bonds) <==> p.state.humanApproval == Some(Approve))
    && (p.outcome.NotRebalanced? <==> p.state.humanApproval in {Some(Reject), Some(TryAgain)})
    && (p.outcome.NotRebalanced? ==> p.state.humanApproval == Some(p.outcome.approval))
    && !p.outcome.InvalidApproval?
  }

  /** The pass the graph makes from `s` when nothing fails, computed from the step contracts. */
  ghost function PassMade(s: SharedState, agents: Agents, console: seq<string>): PassRecord
    requires PassFailure(s, agents, console).None?
  {
    var assessed := AgentPhase(s, agents).value;
    var verdict := assessed.riskReport.value.verdict;
    var approval := PassApproval(verdict, console).value;
    var routed := if IsPassVerdict(verdict) then Graph.ExecutionNode else Graph.HumanNode;
    var cio := assessed.cioReport.value;
    PassRecord(
      assessed.(humanApproval := Some(approval)),
      if IsPassVerdict(verdict) then console else console[Human.FirstValid(console).value.1..],
      routed,
      Graph.Schedule(routed),
      if approval == Approve then Execution.Rebalanced(cio.equities, cio.bonds) else Execution.NotRebalanced(approval))
  }

  /** PassMade is a pass PassOf describes. */
  lemma PassMadeIsPassOf(s: SharedState, agents: Agents, console: seq<string>)
    requires PassFailure(s, agents, console).None?
    ensures PassOf(s, agents, console, PassMade(s, agents, console))
  {
    var p := PassMade(s, agents, console);
    Graph.ScheduleIsRun(p.routed);
    SameExceptTrans(s, AgentPhase(s, agents).value, p.state, ReportKeys, {HumanApprovalKey});
  }

  /** A pass made changes only the reports and the approval, ends with a proposal, and records its run. */
  lemma PassMadeKeeps(s: SharedState, agents: Agents, console: seq<string>)
    requires PassFailure(s, agents, console).None?
    ensures SameExcept(s, PassMade(s, agents, console).state, PassKeys)
    ensures PassMade(s, agents, console).state.cioReport.Some?
    ensures PassMade(s, agents, console).steps == Graph.Schedule(PassMade(s, agents, console).routed)
  {
    SameExceptTrans(s, AgentPhase(s, agents).value, PassMade(s, agents, console).state, ReportKeys, {HumanApprovalKey});
  }

  /** PassOf leaves no choice: the pass it describes is PassMade. */
  lemma PassOfUnique(s: SharedState, agents: Agents, console: seq<string>, p: PassRecord)
    requires PassOf(s, agents, console, p)
    ensures p == PassMade(s, agents, console)
  {
    var q := PassMade(s, agents, console);
    assert p.state == q.state;
    assert p.outcome == q.outcome;
  }

  /**
    `graph.invoke(state)`: the agent supersteps, the router, the human prompt when the verdict
    is not Pass, and the execution node. It fails exactly with the exception PassFailure names,
    and otherwise makes the pass PassOf describes; the execution node never finds an invalid
    approval. The supersteps recorded are `Graph.Schedule(routed)`, which Graph.RunIsUnique
    shows to be the only run of the graph the router's choice allows.
   */
  method RunPass(s: SharedState, agents: Agents, console: seq<string>) returns (r: Result<PassRecord>)
    ensures r.Success? <==> PassFailure(s, agents, console).None?
    ensures r.Failure? ==> r.error == PassFailure(s, agents, console).value
    ensures r.Success? ==> PassOf(s, agents, console, r.value)
  {
    var assessed :- AgentPhase(s, agents);
    var verdict := assessed.riskReport.value.verdict;
    var name :- Routing.RouteCIODecision(verdict);
    Graph.RouterTargetsRegistered(verdict);
    var routed := Graph.NodeNamed(name).value;
    var state, rest := assessed, console;
    if routed == Graph.HumanNode {
      var prompted :- Human.HumanNode(state, rest);
      state, rest := prompted.0, prompted.1;
    }
    var execution := Execution.ExecutionNode(state);
    assert execution.Success?;
    var executed := execution.value;
    Graph.ScheduleIsRun(routed);
    SameExceptTrans(s, assessed, executed.0, ReportKeys, {HumanApprovalKey});
    r := Success(PassRecord(executed.0, rest, routed, Graph.Schedule(routed), executed.1));
  }

  // ---------------------------------------------------------------- rollover

  /** The keys cleared between months, in the order they are cleared. */
  const ResetKeys: seq<Key> := [AnalystReportKey, QuantReportKey, RiskReportKey, CioReportKey, HumanApprovalKey]

  /** The keys a rollover may change. */
  const RolloverKeys: set<Key> :=
    {MarketDataKey, CurrentMonthKey, PrevEquityKey, PrevBondKey} + PassKeys

  /**
    `t` is `s` rolled over to the month `next`: the next entry and its label, the CIO's
    proposal as the previous split whatever the approval was, every report and the approval
    cleared, and nothing else changed (in particular not the year and month).
   */
  ghost predicate RolledOver(s: SharedState, next: MarketData, t: SharedState) {
    && s.cioReport.Some?
    && t.marketData == Some(next)
    && t.currentMonth == Some(next.month)
    && t.prevEquityAllocation == Some(s.cioReport.value.equities as real)
    && t.prevBondAllocation == Some(s.cioReport.value.bonds as real)
    && (forall k :: k in ResetKeys ==> IsNone(t, k))
    && SameExcept(s, t, RolloverKeys)
  }

  /** The state `s` rolls over to for the month `next`. */
  function Rolled(s: SharedState, next: MarketData): SharedState
    requires s.cioReport.Some?
  {
    s.(marketData := Some(next), currentMonth := Some(next.month),
       prevEquityAllocation := Some(s.cioReport.value.equities as real),
       prevBondAllocation := Some(s.cioReport.value.bonds as real),
       analystReport := None, quantReport := None, riskReport := None, cioReport := None,
       humanApproval := None)
  }

  /** Rolled is a rollover. */
  lemma RolledIsRolledOver(s: SharedState, next: MarketData)
    requires s.cioReport.Some?
    ensures RolledOver(s, next, Rolled(s, next))
  {
  }

  /** RolledOver leaves no choice: every rollover of `s` to `next` is Rolled. */
  lemma RolledOverOnly(s: SharedState, next: MarketData, t: SharedState)
    requires RolledOver(s, next, t)
    ensures t == Rolled(s, next)
  {
    assert IsNone(t, ResetKeys[0]) && IsNone(t, ResetKeys[1]) && IsNone(t, ResetKeys[2]);
    assert IsNone(t, ResetKeys[3]) && IsNone(t, ResetKeys[4]);
  }

  /** Rolled is a rollover, and the only one. */
  lemma RolledOverUnique(s: SharedState, next: MarketData, t: SharedState)
    requires s.cioReport.Some?
    ensures RolledOver(s, next, Rolled(s, next))
    ensures RolledOver(s, next, t) ==> t == Rolled(s, next)
  {
    RolledIsRolledOver(s, next);
    if RolledOver(s, next, t) {
      RolledOverOnly(s, next, t);
    }
  }

  /** The preparation for the next month: the assignments, then the loop clearing the reports. */
  method Rollover(s: SharedState, next: MarketData) returns (r: Result<SharedState>)
    ensures s.cioReport.None? ==> r == Failure(AttributeError("'NoneType' object has no attribute 'equities'"))
    ensures r.Success? <==> s.cioReport.Some?
    ensures r.Success? ==> RolledOver(s, next, r.value)
  {
    if s.cioReport.None? {
      return Failure(AttributeError("'NoneType' object has no attribute 'equities'"));
    }
    var t := s.(marketData := Some(next), currentMonth := Some(next.month));
    t := t.(prevEquityAllocation := Some(s.cioReport.value.equities as real));
    t := t.(prevBondAllocation := Some(s.cioReport.value.bonds as real));
    ghost var moved := t;
    for i := 0 to |ResetKeys|
      invariant forall j :: 0 <= j < i ==> IsNone(t, ResetKeys[j])
      invariant SameExcept(moved, t, PassKeys)
    {
      SameExceptTrans(moved, t, Clear(t, ResetKeys[i]), PassKeys, {ResetKeys[i]});
      assert PassKeys + {ResetKeys[i]} == PassKeys;
      t := Clear(t, ResetKeys[i]);
    }
    SameExceptTrans(s, moved, t, {MarketDataKey, CurrentMonthKey, PrevEquityKey, PrevBondKey}, PassKeys);
    r := Success(t);
  }

  // ---------------------------------------------------------------- the simulation

  /** The month count after clamping: absent or too large means every month of the data. */
  function MonthsToRun(requested: Option<int>, numMonths: nat): (n: int)
    ensures n <= numMonths
    ensures requested.None? ==> n == numMonths
    ensures requested.Some? ==> n == requested.value || (requested.value > numMonths && n == numMonths)
  {
    if requested.None? || requested.value > numMonths then numMonths else requested.value
  }

  /** How many passes run: `range(n)` is empty when n is not positive. */
  function PassCount(requested: Option<int>, numMonths: nat): (c: nat)
    ensures c <= numMonths
    ensures requested.None? ==> c == numMonths
    ensures requested.Some? && 0 <= requested.value <= numMonths ==> c == requested.value
    ensures requested.Some? && requested.value < 0 ==> c == 0
  {
    var n := MonthsToRun(requested, numMonths);
    if n < 0 then 0 else n
  }

  /** What `run_simulation` returns, with the passes it made. */
  datatype Simulation = Simulation(finalState: SharedState, console: seq<string>, passes: seq<PassRecord>)

  /** Pass `p` worked on month `entry` of a run that started from `init`. */
  ghost predicate PassOn(p: PassRecord, entry: MarketData, init: SharedState) {
    && p.state.marketData == Some(entry)
    && p.state.currentMonth == Some(entry.month)
    && p.state.capital == init.capital
    && p.state.year == init.year
    && p.state.month == init.month
    && p.state.cioReport.Some?
    && p.steps == Graph.Schedule(p.routed)
  }

  /** Pass `p` started from the split `q` proposed. */
  ghost predicate Forwarded(q: PassRecord, p: PassRecord) {
    && q.state.cioReport.Some?
    && p.state.prevEquityAllocation == Some(q.state.cioReport.value.equities as real)
    && p.state.prevBondAllocation == Some(q.state.cioReport.value.bonds as real)
  }

  /**
    `state` is what pass i of a run from `init` starts from, after the passes made so far:
    month i of the data, the split the previous pass proposed (0.6 / 0.4 before the first),
    the capital, year and month of the initial state, and no report or approval.
   */
  ghost predicate StartsPass(state: SharedState, i: nat, data: seq<MarketData>, init: SharedState, passes: seq<PassRecord>)
    requires i < |data| && i == |passes|
  {
    && state.marketData == Some(data[i])
    && state.currentMonth == Some(data[i].month)
    && state.capital == init.capital
    && state.year == init.year
    && state.month == init.month
    && (i == 0 ==> state.prevEquityAllocation == Some(0.6) && state.prevBondAllocation == Some(0.4))
    && (forall k :: k in ResetKeys ==> IsNone(state, k))
    && (0 < i ==> passes[i - 1].state.cioReport.Some? &&
                  state.prevEquityAllocation == Some(passes[i - 1].state.cioReport.value.equities as real) &&
                  state.prevBondAllocation == Some(passes[i - 1].state.cioReport.value.bonds as real))
  }

  /** A pass keeps the month, the capital and the previous split it started from. */
  lemma AfterPass(state: SharedState, pass: PassRecord, i: nat, data: seq<MarketData>, init: SharedState, passes: seq<PassRecord>)
    requires i < |data| && i == |passes|
    requires StartsPass(state, i, data, init, passes)
    requires SameExcept(state, pass.state, PassKeys)
    requires pass.state.cioReport.Some? && pass.steps == Graph.Schedule(pass.routed)
    ensures PassOn(pass, data[i], init)
    ensures 0 < i ==> Forwarded(passes[i - 1], pass)
    ensures i == 0 ==> pass.state.prevEquityAllocation == Some(0.6) && pass.state.prevBondAllocation == Some(0.4)
  {
  }

  /** Rolling over after pass i gives the start of pass i + 1. */
  lemma AfterRollover(pass: PassRecord, t: SharedState, i: nat, data: seq<MarketData>, init: SharedState, passes: seq<PassRecord>)
    requires i + 1 < |data| && i == |passes|
    requires PassOn(pass, data[i], init)
    requires RolledOver(pass.state, data[i + 1], t)
    ensures StartsPass(t, i + 1, data, init, passes + [pass])
  {
  }

  /** Appending the pass on month k keeps every pass on its month and every split forwarded. */
  lemma ExtendPasses(passes: seq<PassRecord>, p: PassRecord, data: seq<MarketData>, init: SharedState)
    requires |passes| < |data|
    requires forall i :: 0 <= i < |passes| ==> PassOn(passes[i], data[i], init)
    requires forall i :: 0 < i < |passes| ==> Forwarded(passes[i - 1], passes[i])
    requires PassOn(p, data[|passes|], init)
    requires 0 < |passes| ==> Forwarded(passes[|passes| - 1], p)
    ensures forall i :: 0 <= i <= |passes| ==> PassOn((passes + [p])[i], data[i], init)
    ensures forall i :: 0 < i <= |passes| ==> Forwarded((passes + [p])[i - 1], (passes + [p])[i])
    ensures (passes + [p])[0] == if |passes| == 0 then p else passes[0]
  {
    var ps := passes + [p];
    forall i | 0 <= i <= |passes| ensures PassOn(ps[i], data[i], init) {
      if i < |passes| { assert ps[i] == passes[i]; }
    }
    forall i | 0 < i <= |passes| ensures Forwarded(ps[i - 1], ps[i]) {
      assert ps[i - 1] == passes[i - 1];
      if i < |passes| { assert ps[i] == passes[i]; }
    }
  }

  /**
    One iteration of the month loop: pass i from `state`, then the rollover to month i + 1
    unless pass i was the last of the n passes.
   */
  method RunMonth(state: SharedState, agents: Agents, console: seq<string>, monthIdx: nat, n: nat,
                  data: seq<MarketData>)
    returns (r: Result<(PassRecord, SharedState)>)
    requires monthIdx < n <= |data|
    ensures r.Success? <==> PassFailure(state, agents, console).None?
    ensures r.Failure? ==> r.error == PassFailure(state, agents, console).value
    ensures r.Success? ==> r.value.0 == PassMade(state, agents, console)
    ensures r.Success? ==> r.value.0.state.cioReport.Some?
    ensures r.Success? && monthIdx + 1 < n ==> r.value.1 == Rolled(r.value.0.state, data[monthIdx + 1])
    ensures r.Success? && monthIdx + 1 == n ==> r.value.1 == r.value.0.state
  {
    var pass :- RunPass(state, agents, console);
    PassOfUnique(state, agents, console, pass);
    if monthIdx + 1 < n {
      var rolled := Rollover(pass.state, data[monthIdx + 1]);
      assert rolled.Success?;
      RolledOverUnique(pass.state, data[monthIdx + 1], rolled.value);
      r := Success((pass, rolled.value));
    } else {
      r := Success((pass, pass.state));
    }
  }

  /** The console input pass i of `done` starts with: what pass i - 1 left, or all of it. */
  ghost function ConsoleBefore(console: seq<string>, done: seq<PassRecord>, i: nat): seq<string>
    requires i <= |done|
  {
    if i == 0 then console else done[i - 1].console
  }

  /**
    A run from `init` that started the passes `starts` and made the passes `done`: the first
    starts from `init`, each later start is the rollover of the pass before it to the next
    month, and each pass made is the one the graph makes from its start and the console
    input the previous pass left. At most one pass was started and not made.
   */
  ghost predicate Trace(data: seq<MarketData>, agents: Agents, console: seq<string>, init: SharedState,
                        starts: seq<SharedState>, done: seq<PassRecord>)
    decreases |starts| + |done|
  {
    && |done| <= |starts| <= |done| + 1
    && |starts| <= |data|
    && if |done| == |starts| then
         |done| == 0 ||
         (&& Trace(data, agents, console, init, starts, done[..|done| - 1])
          && PassFailure(starts[|done| - 1], agents, ConsoleBefore(console, done, |done| - 1)).None?
          && done[|done| - 1] == PassMade(starts[|done| - 1], agents, ConsoleBefore(console, done, |done| - 1)))
       else
         && (if |done| == 0 then starts[0] == init
             else
               && done[|done| - 1].state.cioReport.Some?
               && starts[|done|] == Rolled(done[|done| - 1].state, data[|done|]))
         && Trace(data, agents, console, init, starts[..|done|], done)
  }

  /** Making the pass from the last start extends the trace. */
  lemma TraceAddPass(data: seq<MarketData>, agents: Agents, console: seq<string>, init: SharedState,
                     starts: seq<SharedState>, done: seq<PassRecord>,
                     start: SharedState, input: seq<string>, p: PassRecord)
    requires Trace(data, agents, console, init, starts, done) && |starts| == |done| + 1
    requires start == starts[|done|] && input == ConsoleBefore(console, done, |done|)
    requires PassFailure(start, agents, input).None? && p == PassMade(start, agents, input)
    ensures Trace(data, agents, console, init, starts, done + [p])
    ensures ConsoleBefore(console, done + [p], |done| + 1) == p.console
  {
    var d := done + [p];
    assert d[..|done|] == done;
    assert ConsoleBefore(console, d, |done|) == ConsoleBefore(console, done, |done|);
  }

  /** Rolling the last pass made over to the next month starts the next pass. */
  lemma TraceAddStart(data: seq<MarketData>, agents: Agents, console: seq<string>, init: SharedState,
                      starts: seq<SharedState>, done: seq<PassRecord>, last: PassRecord, t: SharedState)
    requires Trace(data, agents, console, init, starts, done) && 0 < |starts| == |done| < |data|
    requires last == done[|done| - 1] && last.state.cioReport.Some? && t == Rolled(last.state, data[|done|])
    ensures Trace(data, agents, console, init, starts + [t], done)
  {
    assert (starts + [t])[..|done|] == starts;
  }

  /** Taking the first `k` elements twice takes them once. */
  lemma PrefixTwice<T>(s: seq<T>, k: nat)
    requires k <= |s|
    ensures s[..k][..k] == s[..k]
  {
  }

  /** The first `k` elements are the first `k - 1` and then element `k - 1`. */
  lemma PrefixSnoc<T>(s: seq<T>, k: nat)
    requires 0 < k <= |s|
    ensures s[..k - 1] + [s[k - 1]] == s[..k]
  {
  }

  /** A sequence is its elements but the last, then its last. */
  lemma DropLast<T>(s: seq<T>)
    requires 0 < |s|
    ensures s[..|s| - 1] + [s[|s| - 1]] == s
  {
  }

  /** The pass made from a state that starts month `i` extends what is known of the passes before it. */
  lemma PassesNext(start: SharedState, agents: Agents, input: seq<string>, pass: PassRecord,
                   data: seq<MarketData>, init: SharedState, passes: seq<PassRecord>)
    requires |passes| < |data|
    requires StartsPass(start, |passes|, data, init, passes)
    requires PassFailure(start, agents, input).None? && pass == PassMade(start, agents, input)
    requires forall i :: 0 <= i < |passes| ==> PassOn(passes[i], data[i], init)
    requires forall i :: 0 < i < |passes| ==> Forwarded(passes[i - 1], passes[i])
    requires 0 < |passes| ==>
               passes[0].state.prevEquityAllocation == Some(0.6) && passes[0].state.prevBondAllocation == Some(0.4)
    ensures forall i :: 0 <= i <= |passes| ==> PassOn((passes + [pass])[i], data[i], init)
    ensures forall i :: 0 < i <= |passes| ==> Forwarded((passes + [pass])[i - 1], (passes + [pass])[i])
    ensures (passes + [pass])[0].state.prevEquityAllocation == Some(0.6)
    ensures (passes + [pass])[0].state.prevBondAllocation == Some(0.4)
  {
    PassMadeKeeps(start, agents, input);
    AfterPass(start, pass, |passes|, data, init, passes);
    ExtendPasses(passes, pass, data, init);
  }

  /** A pass made from a state that starts month `i`, then rolled over, starts month `i + 1`. */
  lemma StartsNext(start: SharedState, agents: Agents, input: seq<string>, pass: PassRecord, t: SharedState,
                   i: nat, data: seq<MarketData>, init: SharedState, passes: seq<PassRecord>)
    requires i + 1 < |data| && i == |passes|
    requires StartsPass(start, i, data, init, passes)
    requires PassFailure(start, agents, input).None? && pass == PassMade(start, agents, input)
    requires pass.state.cioReport.Some? && t == Rolled(pass.state, data[i + 1])
    ensures StartsPass(t, i + 1, data, init, passes + [pass])
  {
    PassMadeKeeps(start, agents, input);
    AfterPass(start, pass, i, data, init, passes);
    RolledOverUnique(pass.state, data[i + 1], t);
    AfterRollover(pass, t, i, data, init, passes);
  }

  /** The last step of a trace that ends with a pass made. */
  lemma TraceLastPass(data: seq<MarketData>, agents: Agents, console: seq<string>, init: SharedState,
                      starts: seq<SharedState>, done: seq<PassRecord>)
    requires Trace(data, agents, console, init, starts, done) && 0 < |done| == |starts|
    ensures Trace(data, agents, console, init, starts, done[..|done| - 1])
    ensures PassFailure(starts[|done| - 1], agents, ConsoleBefore(console, done, |done| - 1)).None?
    ensures done[|done| - 1] == PassMade(starts[|done| - 1], agents, ConsoleBefore(console, done, |done| - 1))
  {
  }

  /** The last step of a trace that ends with a pass started and not made. */
  lemma TraceLastStart(data: seq<MarketData>, agents: Agents, console: seq<string>, init: SharedState,
                       starts: seq<SharedState>, done: seq<PassRecord>)
    requires Trace(data, agents, console, init, starts, done) && |starts| == |done| + 1
    ensures |starts| <= |data|
    ensures Trace(data, agents, console, init, starts[..|done|], done)
    ensures |done| == 0 ==> starts[0] == init
    ensures 0 < |done| ==>
              done[|done| - 1].state.cioReport.Some? && starts[|done|] == Rolled(done[|done| - 1].state, data[|done|])
  {
  }

  /**
    Along a trace from `init`, the last pass started starts as StartsPass describes: its month
    of the data, the capital, year and month of `init`, the split the pass before it proposed,
    and no report or approval.
   */
  lemma {:induction false} TraceStarts(data: seq<MarketData>, agents: Agents, console: seq<string>, init: SharedState,
                                       starts: seq<SharedState>, done: seq<PassRecord>)
    requires Trace(data, agents, console, init, starts, done)
    requires 0 < |data| ==> StartsPass(init, 0, data, init, [])
    ensures 0 < |starts| ==> StartsPass(starts[|starts| - 1], |starts| - 1, data, init, done[..|starts| - 1])
    decreases |starts| + |done|
  {
    if |done| == |starts| {
      if 0 < |done| {
        var k := |done| - 1;
        TraceLastPass(data, agents, console, init, starts, done);
        TraceStarts(data, agents, console, init, starts, done[..k]);
        PrefixTwice(done, k);
      }
    } else if 0 < |done| {
      var k := |done|;
      var before := done[..k - 1];
      TraceLastStart(data, agents, console, init, starts, done);
      TraceStarts(data, agents, console, init, starts[..k], done);
      TraceLastPass(data, agents, console, init, starts[..k], done);
      assert starts[..k][k - 1] == starts[k - 1];
      StartsNext(starts[k - 1], agents, ConsoleBefore(console, done, k - 1), done[k - 1], starts[k],
                 k - 1, data, init, before);
      PrefixSnoc(done, k);
    }
  }

  /**
    Along a trace from `init`, each pass made worked on its own month of the data with the
    capital, year and month of `init`, the first started from the split 0.6 / 0.4, and each
    later one from the split the pass before it proposed.
   */
  lemma {:induction false} TracePasses(data: seq<MarketData>, agents: Agents, console: seq<string>, init: SharedState,
                                       starts: seq<SharedState>, done: seq<PassRecord>)
    requires Trace(data, agents, console, init, starts, done)
    requires 0 < |data| ==> StartsPass(init, 0, data, init, [])
    ensures forall i :: 0 <= i < |done| ==> PassOn(done[i], data[i], init)
    ensures forall i :: 0 < i < |done| ==> Forwarded(done[i - 1], done[i])
    ensures 0 < |done| ==>
              done[0].state.prevEquityAllocation == Some(0.6) && done[0].state.prevBondAllocation == Some(0.4)
    decreases |starts| + |done|
  {
    if |done| == |starts| {
      if 0 < |done| {
        var k := |done| - 1;
        var before := done[..k];
        TraceLastPass(data, agents, console, init, starts, done);
        TracePasses(data, agents, console, init, starts, before);
        TraceStarts(data, agents, console, init, starts, before);
        PrefixTwice(done, k);
        PassesNext(starts[k], agents, ConsoleBefore(console, done, k), done[k], data, init, before);
        DropLast(done);
      }
    } else {
      TraceLastStart(data, agents, console, init, starts, done);
      TracePasses(data, agents, console, init, starts[..|done|], done);
    }
  }

  /**
    `run_simulation`: one pass per month, in month order, for as many months as requested;
    between passes the state rolls over, after the last one it is returned as is.
   */
  method RunSimulation(data: seq<MarketData>, requested: Option<int>, agents: Agents, console: seq<string>)
    returns (r: Result<Simulation>, ghost starts: seq<SharedState>, ghost done: seq<PassRecord>)
    ensures InitialState(data).Failure? ==> r == Failure(InitialState(data).error) && starts == [] && done == []
    ensures InitialState(data).Success? ==> Trace(data, agents, console, InitialState(data).value, starts, done)
    ensures |done| <= PassCount(requested, |data|)
    ensures r.Success? <==> InitialState(data).Success? && |done| == PassCount(requested, |data|)
    ensures r.Failure? && InitialState(data).Success? ==>
              |starts| == |done| + 1 && PassFailure(starts[|done|], agents, ConsoleBefore(console, done, |done|)) == Some(r.error)
    ensures r.Success? ==>
              |starts| == |done| && r.value.passes == done && r.value.console == ConsoleBefore(console, done, |done|)
    ensures r.Success? ==> InitialState(data).Success?
    ensures r.Success? ==> |r.value.passes| == PassCount(requested, |data|)
    ensures r.Success? ==> forall i :: 0 <= i < |r.value.passes| ==>
              PassOn(r.value.passes[i], data[i], InitialState(data).value)
    ensures r.Success? && |r.value.passes| > 0 ==>
              && r.value.passes[0].state.prevEquityAllocation == Some(0.6)
              && r.value.passes[0].state.prevBondAllocation == Some(0.4)
    ensures r.Success? ==> forall i :: 0 < i < |r.value.passes| ==>
              Forwarded(r.value.passes[i - 1], r.value.passes[i])
    ensures r.Success? ==>
              r.value.finalState == (if |r.value.passes| == 0 then InitialState(data).value
                                     else r.value.passes[|r.value.passes| - 1].state)
  {
    starts, done := [], [];
    var init :- InitialState(data);
    assert 0 < |data| ==> StartsPass(init, 0, data, init, []);
    var n := PassCount(requested, |data|);
    var state, rest := init, console;
    var passes: seq<PassRecord> := [];
    for monthIdx := 0 to n
      invariant |passes| == monthIdx == |starts|
      invariant Trace(data, agents, console, init, starts, passes)
      invariant monthIdx < n ==> Trace(data, agents, console, init, starts + [state], passes)
      invariant rest == ConsoleBefore(console, passes, monthIdx)
      invariant monthIdx == 0 ==> state == init
      invariant 0 < monthIdx == n ==> state == passes[n - 1].state
    {
      var month := RunMonth(state, agents, rest, monthIdx, n, data);
      if month.Failure? {
        starts, done := starts + [state], passes;
        r := Failure(month.error);
        return;
      }
      var pass := month.value.0;
      TraceAddPass(data, agents, console, init, starts + [state], passes, state, rest, pass);
      if monthIdx + 1 < n {
        TraceAddStart(data, agents, console, init, starts + [state], passes + [pass], pass, month.value.1);
      }
      passes, starts := passes + [pass], starts + [state];
      state, rest := month.value.1, pass.console;
    }
    TracePasses(data, agents, console, init, starts, passes);
    done := passes;
    r := Success(Simulation(state, rest, passes));
  }
}
