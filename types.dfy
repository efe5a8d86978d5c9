/**
  The records threaded through the monthly workflow: allocation reports and their validators,
  the risk verdict and human approval enums, and the all-optional shared state.
 */
module Types {

  import opened Results
  import opened Rounding
  import Chars

  // ---------------------------------------------------------------- risk verdict

  /**
    The risk gate's verdict. `Pass`, `Warn` and `Block` are the three members of the enum;
    `Other(raw)` stands for a value written into the state without validation, the only way
    an unrecognised verdict can reach the router.
   */
  datatype Verdict = Pass | Warn | Block | Other(raw: string)

  /** The string a verdict compares equal to: the enum derives from `str`. */
  function VerdictValue(v: Verdict): string {
    match v
    case Pass => "Pass"
    case Warn => "Warn"
    case Block => "Block"
    case Other(raw) => raw
  }

  predicate IsMember(v: Verdict) {
    !v.Other?
  }

  /** `v == RiskVerdict.pass_`, compared by value as Python compares a `str` enum. */
  predicate IsPassVerdict(v: Verdict) {
    VerdictValue(v) == "Pass"
  }

  /** Validation of a string into the verdict enum, as the report model performs it. */
  function ParseVerdict(s: string): (r: Result<Verdict>)
    ensures r.Success? <==> s == "Pass" || s == "Warn" || s == "Block"
    ensures r.Success? ==> IsMember(r.value) && VerdictValue(r.value) == s
    ensures r.Failure? ==> r.error == ValidationError(["verdict"])
  {
    if s == "Pass" then Success(Pass)
    else if s == "Warn" then Success(Warn)
    else if s == "Block" then Success(Block)
    else Failure(ValidationError(["verdict"]))
  }

  /** Every member of the enum is accepted back from its own value. */
  lemma VerdictRoundTrip(v: Verdict)
    requires IsMember(v)
    ensures ParseVerdict(VerdictValue(v)) == Success(v)
  {
  }

  // ---------------------------------------------------------------- human approval

  datatype HumanApproval = Approve | Reject | TryAgain

  function ApprovalValue(a: HumanApproval): string {
    match a
    case Approve => "approve"
    case Reject => "reject"
    case TryAgain => "try_again"
  }

  function ParseApproval(s: string): (r: Option<HumanApproval>)
    ensures r.Some? <==> s == "approve" || s == "reject" || s == "try_again"
    ensures r.Some? ==> ApprovalValue(r.value) == s
  {
    if s == "approve" then Some(Approve)
    else if s == "reject" then Some(Reject)
    else if s == "try_again" then Some(TryAgain)
    else None
  }

  lemma ApprovalRoundTrip(a: HumanApproval)
    ensures ParseApproval(ApprovalValue(a)) == Some(a)
  {
  }

  // ---------------------------------------------------------------- allocation reports

  /** A validated allocation: a fraction of the portfolio in [0, 1], a whole number of hundredths. */
  type Allocation = x: real | 0.0 <= x <= 1.0 && (x * 100.0).Floor as real == x * 100.0

  datatype Report = Report(equities: Allocation, bonds: Allocation, justification: string)

  /**
    The two validators run on one allocation field: the range check on the value as given,
    then rounding to two decimals. `None` means the range check raised.
   */
  function CheckedAllocation(v: real): (r: Option<Allocation>)
    ensures r.Some? <==> 0.0 <= v <= 1.0
    ensures r.Some? ==> -0.005 <= r.value - v <= 0.005
    ensures r.Some? ==> NearestEven(v * 100.0, (r.value * 100.0).Floor)
  {
    if !(0.0 <= v <= 1.0) then None
    else
      var k := RoundUnits(v, 2);
      Hundredths(v);
      var x: real := k as real / 100.0;
      assert x * 100.0 == k as real;
      Some(x)
  }

  /** Rounding a value of [0, 1] to hundredths gives between 0 and 100 hundredths. */
  lemma Hundredths(v: real)
    requires 0.0 <= v <= 1.0
    ensures 0 <= RoundUnits(v, 2) <= 100
    ensures NearestEven(v * 100.0, RoundUnits(v, 2))
  {
    assert Chars.Pow10(2) == 100;
    var k := RoundUnits(v, 2);
    assert NearestEven(v * 100.0, k);
    NearestWithin(v * 100.0, k, 0, 100);
  }

  /**
    Constructing a Report: each allocation field is validated on its own, and a failure lists
    every field whose range check raised, in declaration order. Nothing relates the two
    fields: the sum-to-one validator is disabled in the source.
   */
  function MakeReport(equities: real, bonds: real, justification: string): (r: Result<Report>)
    ensures r.Success? <==> 0.0 <= equities <= 1.0 && 0.0 <= bonds <= 1.0
    ensures r.Success? ==> r.value.justification == justification
    ensures r.Success? ==> -0.005 <= r.value.equities - equities <= 0.005
    ensures r.Success? ==> -0.005 <= r.value.bonds - bonds <= 0.005
    ensures r.Success? ==> r.value.equities == CheckedAllocation(equities).value
    ensures r.Success? ==> r.value.bonds == CheckedAllocation(bonds).value
    ensures r.Failure? ==> r.error == ValidationError(
                             (if 0.0 <= equities <= 1.0 then [] else ["equities"]) +
                             (if 0.0 <= bonds <= 1.0 then [] else ["bonds"]))
  {
    var e := CheckedAllocation(equities);
    var b := CheckedAllocation(bonds);
    if e.Some? && b.Some? then Success(Report(e.value, b.value, justification))
    else Failure(ValidationError((if e.Some? then [] else ["equities"]) + (if b.Some? then [] else ["bonds"])))
  }

  /** The range check sees the raw value: 1.004 is refused although it would round to 1.00. */
  lemma RangeCheckBeforeRounding()
    ensures Round(1.004, 2) == 1.0
    ensures MakeReport(1.004, 0.0, "").Failure?
  {
    assert RoundHalfEven(100.4) == 100;
  }

  /** Allocations need not sum to one: 0.9 / 0.9 is a valid report. */
  lemma SumToOneNotEnforced()
    ensures MakeReport(0.9, 0.9, "").Success?
    ensures MakeReport(0.9, 0.9, "").value.equities + MakeReport(0.9, 0.9, "").value.bonds == 1.8
  {
    assert RoundHalfEven(90.0) == 90;
  }

  /** An exact tie rounds to the even hundredth, as Python's `round` does. */
  lemma TieRoundsToEven()
    ensures MakeReport(0.125, 0.375, "").Success?
    ensures MakeReport(0.125, 0.375, "").value.equities == 0.12
    ensures MakeReport(0.125, 0.375, "").value.bonds == 0.38
  {
    assert RoundHalfEven(12.5) == 12;
    assert RoundHalfEven(37.5) == 38;
  }

  // ---------------------------------------------------------------- risk report

  datatype RiskReport = RiskReport(verdict: Verdict, reason: string, externalEvidence: Option<string>)

  /** Constructing a RiskReport from a raw verdict string; the evidence defaults to None. */
  function MakeRiskReport(verdict: string, reason: string, externalEvidence: Option<string> := None): (r: Result<RiskReport>)
    ensures r.Success? <==> ParseVerdict(verdict).Success?
    ensures r.Success? ==> IsMember(r.value.verdict) && VerdictValue(r.value.verdict) == verdict
    ensures r.Success? ==> r.value.reason == reason && r.value.externalEvidence == externalEvidence
  {
    var v :- ParseVerdict(verdict);
    Success(RiskReport(v, reason, externalEvidence))
  }

  // ---------------------------------------------------------------- shared state

  /** One month of the loaded data set: its "month" label and the rest of the record, kept opaque. */
  datatype MarketData = MarketData(month: string, payload: string)

  /** The state shared by all nodes; the dictionary is declared `total=False`, so every key may be absent. */
  datatype SharedState = SharedState(
    capital: Option<real>,
    marketData: Option<MarketData>,
    currentMonth: Option<string>,
    year: Option<int>,
    month: Option<int>,
    prevEquityAllocation: Option<real>,
    prevBondAllocation: Option<real>,
    analystReport: Option<Report>,
    quantReport: Option<Report>,
    riskReport: Option<RiskReport>,
    cioReport: Option<Report>,
    newEquityAllocation: Option<real>,
    newBondAllocation: Option<real>,
    humanApproval: Option<HumanApproval>)

  const EmptyState: SharedState :=
    SharedState(None, None, None, None, None, None, None, None, None, None, None, None, None, None)

  /** The keys of the shared state. */
  datatype Key =
    | CapitalKey | MarketDataKey | CurrentMonthKey | YearKey | MonthKey
    | PrevEquityKey | PrevBondKey
    | AnalystReportKey | QuantReportKey | RiskReportKey | CioReportKey
    | NewEquityKey | NewBondKey | HumanApprovalKey

  /** Key `k` holds `None` in `s`. */
  predicate IsNone(s: SharedState, k: Key) {
    match k
    case CapitalKey => s.capital.None?
    case MarketDataKey => s.marketData.None?
    case CurrentMonthKey => s.currentMonth.None?
    case YearKey => s.year.None?
    case MonthKey => s.month.None?
    case PrevEquityKey => s.prevEquityAllocation.None?
    case PrevBondKey => s.prevBondAllocation.None?
    case AnalystReportKey => s.analystReport.None?
    case QuantReportKey => s.quantReport.None?
    case RiskReportKey => s.riskReport.None?
    case CioReportKey => s.cioReport.None?
    case NewEquityKey => s.newEquityAllocation.None?
    case NewBondKey => s.newBondAllocation.None?
    case HumanApprovalKey => s.humanApproval.None?
  }

  /** `s` and `t` agree on every key outside `keys`. */
  predicate SameExcept(s: SharedState, t: SharedState, keys: set<Key>) {
    && (CapitalKey !in keys ==> s.capital == t.capital)
    && (MarketDataKey !in keys ==> s.marketData == t.marketData)
    && (CurrentMonthKey !in keys ==> s.currentMonth == t.currentMonth)
    && (YearKey !in keys ==> s.year == t.year)
    && (MonthKey !in keys ==> s.month == t.month)
    && (PrevEquityKey !in keys ==> s.prevEquityAllocation == t.prevEquityAllocation)
    && (PrevBondKey !in keys ==> s.prevBondAllocation == t.prevBondAllocation)
    && (AnalystReportKey !in keys ==> s.analystReport == t.analystReport)
    && (QuantReportKey !in keys ==> s.quantReport == t.quantReport)
    && (RiskReportKey !in keys ==> s.riskReport == t.riskReport)
    && (CioReportKey !in keys ==> s.cioReport == t.cioReport)
    && (NewEquityKey !in keys ==> s.newEquityAllocation == t.newEquityAllocation)
    && (NewBondKey !in keys ==> s.newBondAllocation == t.newBondAllocation)
    && (HumanApprovalKey !in keys ==> s.humanApproval == t.humanApproval)
  }

  /** Two updates in a row change at most the keys either of them changes. */
  lemma SameExceptTrans(s: SharedState, t: SharedState, u: SharedState, a: set<Key>, b: set<Key>)
    requires SameExcept(s, t, a) && SameExcept(t, u, b)
    ensures SameExcept(s, u, a + b)
  {
  }

  /** `state[k] = None`: key k becomes None and every other key keeps its value. */
  function Clear(s: SharedState, k: Key): (t: SharedState)
    ensures IsNone(t, k)
    ensures SameExcept(s, t, {k})
    ensures forall j :: j != k ==> (IsNone(t, j) <==> IsNone(s, j))
  {
    match k
    case CapitalKey => s.(capital := None)
    case MarketDataKey => s.(marketData := None)
    case CurrentMonthKey => s.(currentMonth := None)
    case YearKey => s.(year := None)
    case MonthKey => s.(month := None)
    case PrevEquityKey => s.(prevEquityAllocation := None)
    case PrevBondKey => s.(prevBondAllocation := None)
    case AnalystReportKey => s.(analystReport := None)
    case QuantReportKey => s.(quantReport := None)
    case RiskReportKey => s.(riskReport := None)
    case CioReportKey => s.(cioReport := None)
    case NewEquityKey => s.(newEquityAllocation := None)
    case NewBondKey => s.(newBondAllocation := None)
    case HumanApprovalKey => s.(humanApproval := None)
  }
}
