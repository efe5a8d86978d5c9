# StratifyAI orchestration, modelled in Dafny

StratifyAI runs a month-by-month portfolio simulation. Each month, a compiled workflow graph
runs four LLM agents over a shared state record:

- an analyst and a quant in parallel;
- a CIO that proposes an equities/bonds split;
- a risk gate that returns a verdict.

A router then sends the run either straight to execution (verdict `Pass`) or to a human
approval prompt first (`Warn`, `Block`). Between months the driver rolls the state over.

This project models everything around the agents, which stay opaque:

- **The records** (`app/types.py`): the report validators (range check, then `round(v, 2)`),
  the verdict and approval string enums, and the all-optional shared state.
- **The graph** (`app/main.py:25-40`): its edges and the supersteps one pass takes.
- **The router, the human prompt loop and the execution node**, modelled exactly.
- **The driver** (`app/main.py:43-101`):
  - the initial state;
  - one pass per month, with the month count clamped;
  - the rollover that forwards the CIO's proposal and clears the five report/flag keys.
- **Three small parsers and formatters that feed the pipeline:**
  - `convert_date` (`strptime('%B %Y')`);
  - the rule-based rate extractor (two `re.search` patterns, `float`, `round(x, 3)`);
  - the date window of `fetch_monthly_ticker`.

Modules follow the source files:

- `Results`: Option, Result and the exceptions
- `Rounding`: Python's `round`
- `Chars`: character classes and digit strings
- `Types`: `types.py`
- `Routing`: `route_CIO_decision.py`
- `Graph`: `main.py:25-40`
- `Human`: `human_node.py`
- `Execution`: `execution_node.py`
- `Pipeline`: `main.py:43-101`
- `Utils`: `utils.py`
- `Interest`: `interest_extractor.py`
- `MonthWindow`: `yfinance_api.py`

**Model choices**

- The shared state is a datatype with an `Option` per key.
- A node returns the new record. `state := state.(k := v)` stands for `state[k] = v`.
- The driver and the two loops of the source are methods with `while`/`for` loops:
  - the human prompt loop;
  - the month loop;
  - the reset loop.
- Python exceptions are `Failure` values of a `Result`. Each carries the exception class, and
  the message Python builds where the model raises it itself (`ValueError`, `AttributeError`,
  `IndexError`). `EOFError` and `OutOfBoundsDatetime` carry only their class. A pydantic
  `ValidationError` carries only the names of the fields it rejects, not pydantic's message
  text. `AgentError` stands for whatever an LLM agent raises: it carries the node that failed
  and a message the agent parameter supplies.
- Numbers are exact reals. Python's `round` is modelled as ties-to-even on the exact value.

**Where the code and its specification differ, the model follows the code.**
- The rollover updates `market_data`, `current_month` and the previous split. It does not
  update `year` or `month`: these keep the values `initial_state` gave them for the whole run.
- The rollover forwards the CIO's proposal as the previous split even when the human rejected
  it.

## Model

| member | source | states |
|---|---|---|
| `Rounding.RoundHalfEven` | app/types.py:55-57 | the result is an integer within 0.5 of the input, and an exact tie goes to the even integer |
| `Rounding.NearestEvenUnique` | app/types.py:55-57 | only one integer is nearest with ties to even, so the rounding is determined |
| `Rounding.Round` | app/types.py:55-57 | `round(x, n)` is a whole number of 10^-n units, within half a unit of x |
| `Chars.PaddedRoundTrip` | app/tools/yfinance_api.py:62 | `%0wd` writes only digits, exactly w of them when the number fits, and reads back as the number |
| `Types.ParseVerdict` | app/types.py:78-81 | exactly "Pass", "Warn" and "Block" are accepted; each gives the member with that value, and anything else is a ValidationError on `verdict` |
| `Types.VerdictRoundTrip` | app/types.py:78-81 | every enum member is accepted back from its own value |
| `Types.ParseApproval` | app/types.py:71-74 | exactly "approve", "reject" and "try_again" name an approval, the one with that value |
| `Types.ApprovalRoundTrip` | app/types.py:71-74 | every approval is read back from its own value |
| `Types.CheckedAllocation` | app/types.py:49-57 | a value is accepted iff it lies in [0, 1] before rounding; the stored value is within 0.005 of it, ties going to the even hundredth |
| `Types.MakeReport` | app/types.py:44-57 | a report is built iff both allocations are in [0, 1]; the failure lists every failing field in declaration order; the justification is kept |
| `Types.RangeCheckBeforeRounding` | app/types.py:49-57 | 1.004 rounds to 1.0 but is refused, because the range check runs first |
| `Types.SumToOneNotEnforced` | app/types.py:58-66 | with the sum validator commented out, 0.9 / 0.9 is a valid report summing to 1.8 |
| `Types.TieRoundsToEven` | app/types.py:55-57 | 0.125 is stored as 0.12 and 0.375 as 0.38 |
| `Types.MakeRiskReport` | app/types.py:83-86 | a risk report is built iff the verdict string is an enum value; the reason and evidence are kept, and the evidence defaults to None |
| `Types.Clear` | app/main.py:96-97 | `state[k] = None` makes k None and leaves every other key as it was |
| `Routing.RouteCIODecision` | app/edges/route_CIO_decision.py:3-16 | Pass goes to ExecutionNode, Warn and Block go to HumanNode, and any other value raises ValueError("Invalid risk verdict"); the enum is compared by value |
| `Graph.NodeNamed` | app/main.py:26-31 | a name refers to at most one registered node, the one added under it |
| `Graph.EdgesWellFormed` | app/main.py:32-39 | every edge leaves START or a registered node and enters END or a registered node; the branching node is registered |
| `Graph.RouterTargetsRegistered` | app/main.py:37 | every name the router can return is a registered node, HumanNode or ExecutionNode |
| `Graph.Topology` | app/main.py:32-39 | CIOAgent waits on exactly the two fan-out agents; every other step has the one static predecessor the builder gives it |
| `Graph.PathRaisesRank` | app/main.py:32-39 | every path of one or more edges strictly increases the topological rank |
| `Graph.Acyclic` | app/main.py:32-39 | no path of one or more edges returns to its start |
| `Graph.ScheduleIsRun` | app/main.py:32-40 | for either routing choice, the superstep schedule is a run of the graph from START to END |
| `Graph.RunIsUnique` | app/main.py:32-40 | once the router has decided, the graph has exactly one run |
| `Graph.ExecutionRunsOnceLast` | app/main.py:38-39 | ExecutionNode runs in exactly one superstep, the last |
| `Graph.HumanRunsIffRouted` | app/main.py:37-38 | HumanNode runs iff the router chose it |
| `Graph.JoinAfterFanOut` | app/main.py:32-35 | CIOAgent runs, and strictly after every superstep in which a fan-out agent runs |
| `Human.DecodeToken` | app/nodes/human_node.py:21-30 | "1" is approve, "0" is reject and "X" is try again (each iff); no other line is valid |
| `Human.TokenRoundTrip` | app/nodes/human_node.py:14-27 | each approval has exactly one token, the one the prompt offers, and decoding inverts it |
| `Human.TokensAreExact` | app/nodes/human_node.py:21-30 | matching is exact: "x", " 1", "1 " and "approve" are invalid |
| `Human.FirstValid` | app/nodes/human_node.py:18-31 | the first valid line and how many lines reading it consumes; None iff no line is valid |
| `Human.HumanNode` | app/nodes/human_node.py:8-35 | the loop stores the approval of the first valid line and consumes exactly the lines up to it; an exhausted console raises EOFError; a missing CIO report raises AttributeError at the prompt |
| `Execution.ExecutionNode` | app/nodes/execution_node.py:10-40 | only `human_approval` can change, and only to approve on a Pass verdict; the portfolio is rebalanced to the CIO's split iff the approval in force is approve; reject and try again do not rebalance; an approval key holding None is reported invalid, as `case _` does |
| `Utils.FindMonth` | app/utils.py:5 | the first month from m on whose name starts the text in any case; None iff there is none |
| `Utils.NameAtUnique` | app/utils.py:5 | at most one month name starts any text, whatever the case |
| `Utils.ConvertDate` | app/utils.py:3-6 | a parsed label gives a month in 1..12 and a year in 1..9999 |
| `Utils.AfterName` | app/utils.py:5 | once the month name is found, what follows gives that month and a year in 1..9999, or raises |
| `Utils.YearAt` | app/utils.py:5 | after the four year digits, any text left raises "unconverted data remains: " with that text, year 0 raises "year 0 is out of range", and otherwise the year is in 1..9999 |
| `Utils.NoMatchPlain` | app/utils.py:5 | the mismatch message quotes a text of printable ASCII characters other than the quote and backslash as `'text'` inside "time data ... does not match format '%B %Y'" |
| `Chars.ReprLatin1` | app/utils.py:5 | in the mismatch message `repr` writes the no-break space and the soft hyphen as `\xa0` and `\xad`, and a printable accented letter as itself |
| `Utils.ConvertDateSound` | app/utils.py:3-6 | whatever parses is a full month name (any case), whitespace, then exactly four digits spelling the year, with nothing after |
| `Utils.ConvertDateComplete` | app/utils.py:3-6 | every label of that form parses, to the month and year it spells |
| `Utils.FormatThenConvert` | app/tools/yfinance_api.py:117 | parsing a `'%B %Y'` rendering of a four-digit year gives back (year, month) |
| `Utils.NoMonthName` | app/utils.py:5 | a text whose first letter starts no month name matches no month |
| `Utils.ConvertExample` | app/utils.py:9-10 | "March 2023" is (2023, 3) |
| `Utils.ConvertIgnoresCase` | app/utils.py:5 | "mARCH 2023" is (2023, 3) |
| `Utils.ConvertRejectsShortYear` | app/utils.py:5 | "March 23" raises ValueError("time data 'March 23' does not match format '%B %Y'") |
| `Utils.ConvertRejectsTrailingText` | app/utils.py:5 | "March 2023 " raises ValueError("unconverted data remains: " followed by the leftover " ") |
| `Utils.ConvertRejectsYearZero` | app/utils.py:5 | "March 0000" raises "year 0 is out of range" |
| `Utils.ConvertRejectsYearFirst` | app/utils.py:5 | "2023 March" raises ValueError("time data '2023 March' does not match format '%B %Y'") |
| `Pipeline.InitialState` | app/main.py:43-56 | an empty data set raises IndexError and a bad first label raises its ValueError; otherwise the state holds the first month, capital 1000, split 0.6 / 0.4, a month in 1..12 and no reports or approval |
| `Pipeline.InitialDate` | app/main.py:43 | the initial year and month are those the first month's label spells |
| `Pipeline.FanOut` | app/main.py:32-33 | both fan-out agents see the same state; both reports are written and nothing else; either agent's failure fails the superstep |
| `Pipeline.CioStep` | app/main.py:34-35 | the CIO writes only its own report, and its failure propagates |
| `Pipeline.RiskStep` | app/main.py:36 | the risk agent writes only its own report, and its failure propagates |
| `Pipeline.AgentPhase` | app/main.py:32-37 | after the three agent supersteps all four reports are set and nothing else changed; the CIO saw both fan-out reports, and the risk agent saw the CIO's |
| `Pipeline.RunPass` | app/main.py:25-59 | one `graph.invoke`: errors propagate in order (agents, router, console); the route is ExecutionNode iff the verdict is Pass; the supersteps taken are the graph's one run; only the reports and the approval change; the approval is implicit on Pass and comes from the first valid token otherwise; a rebalance happens iff it is approve; an invalid approval never reaches execution |
| `Pipeline.Rollover` | app/main.py:88-97 | a missing CIO report raises AttributeError; otherwise the next entry and its label are set, the CIO's split becomes the previous split, the five keys are cleared in the loop, and nothing else changes (year and month included) |
| `Pipeline.MonthsToRun` | app/main.py:66-68 | a missing or too large request is clamped to the number of months, and any other request is kept |
| `Pipeline.PassCount` | app/main.py:67-73 | `range` over the clamped count: every month when none is requested, the request when it is between 0 and the number of months, and none when it is negative |
| `Pipeline.PassOfUnique` | app/main.py:59 | the pass a graph invocation makes is determined by its start state, the agents and the console input |
| `Pipeline.RolledOverUnique` | app/main.py:88-97 | the rollover to the next month is determined: the next entry and label, the CIO's split as the previous one, the five keys cleared, nothing else changed |
| `Pipeline.RunMonth` | app/main.py:73-97 | one loop iteration: it succeeds iff the pass from this state meets no exception, and otherwise fails with the first exception the pass meets; on success the pass is the one the graph makes, and the state rolls over to month i + 1 unless this was the last pass |
| `Pipeline.TraceStarts` | app/main.py:73-97 | every pass of a run starts on its own month of the data, with the initial capital, year and month, the split the previous pass proposed (0.6 / 0.4 for the first) and every report and the approval cleared |
| `Pipeline.TracePasses` | app/main.py:73-97 | every pass made keeps its month, the initial capital, year and month, and starts from the previous pass's proposal |
| `Pipeline.RunSimulation` | app/main.py:61-101 | the run starts from `initial_state` (its failure is the run's); pass i starts from the rollover of pass i - 1 to month i and is the pass the graph makes from it; the run succeeds iff exactly the clamped number of passes complete, and otherwise fails with the exception of the first pass that meets one; each pass is on its own month, keeping the initial capital, year and month; the first starts from 0.6 / 0.4 and each later one from the previous CIO proposal; the final state is the last pass's state, or the initial state when no pass ran |
| `Interest.RangeAt` | app/tools/interest_extractor.py:27 | the two groups of a match are runs of digits and dots |
| `Interest.RangeAtSound` | app/tools/interest_extractor.py:27 | a match found at a position is the range pattern's pieces there: the lead, the first group, the middle, the second group and '%' |
| `Interest.RangeAtComplete` | app/tools/interest_extractor.py:27 | every way the pattern matches at a position is the one found, so the groups are determined |
| `Interest.SearchRange` | app/tools/interest_extractor.py:27 | `re.search` gives a match at a position at or after the start, with no match anywhere before it; None iff no position matches |
| `Interest.NoRangeInEach` | app/tools/interest_extractor.py:27 | "no match in [i, k)", stated by recursion, is the same as every position of [i, k) failing to match |
| `Interest.SearchRangeLeftmost` | app/tools/interest_extractor.py:27 | every position before the match found fails to match; None exactly when every position fails |
| `Interest.BasisPointsAtSound` | app/tools/interest_extractor.py:36 | a match found is "by " (any case), the non-empty digit group, optional whitespace, then "basis points" (any case) |
| `Interest.BasisPointsAtComplete` | app/tools/interest_extractor.py:36 | every way the pattern matches at a position (by the independent `BasisPointsMatches`) is the one found, with that group |
| `Interest.SearchBasisPointsFinds` | app/tools/interest_extractor.py:36 | a match at j with no match before it is what `re.search` returns |
| `Interest.SearchRangeFinds` | app/tools/interest_extractor.py:27 | a range match at j with no match before it is what `re.search` returns |
| `Interest.SearchBasisPoints` | app/tools/interest_extractor.py:36 | a basis-points match at or after the start, with no match anywhere before it; None iff there is none |
| `Interest.NoBasisPointsInEach` | app/tools/interest_extractor.py:36 | "no match in [i, k)", stated by recursion, is the same as every position of [i, k) failing to match |
| `Interest.SearchBasisPointsLeftmost` | app/tools/interest_extractor.py:36 | every position before the match found fails to match; None exactly when every position fails |
| `Interest.ParseFloat` | app/tools/interest_extractor.py:29-30 | `float` of a digits-and-dots group: the exact decimal value, or ValueError quoting the group |
| `Interest.ParseFloatAccepts` | app/tools/interest_extractor.py:29-30 | such a group converts iff it has at most one dot and at least one digit |
| `Interest.BasisPoints` | app/tools/interest_extractor.py:36-38 | the change is the integer value of the leftmost match's group, or None without a match; a group of more than 4300 digits raises `int()`'s ValueError naming its digit count |
| `Interest.ShortTextConverts` | app/tools/interest_extractor.py:36-38 | in a text of at most 4300 characters the basis-point group always converts |
| `Interest.LongChangeRaises` | app/tools/interest_extractor.py:36-38 | "by N basis points" with N over 4300 digits raises the integer-string limit error |
| `Interest.Extract` | app/tools/interest_extractor.py:15-40 | without a range match, both range keys are None and nothing raises; with one, the range is the two parsed groups, a malformed group raises (the lower one first), and the nominal rate is the midpoint rounded to 3 places; the basis-point key is set independently, and its conversion error is raised only after both range groups converted |
| `Interest.Midpoint` | app/tools/interest_extractor.py:31 | the midpoint is equally far from both ends |
| `Interest.RoundThousandths` | app/tools/interest_extractor.py:32 | the nominal rate is within 0.0005 of the midpoint, with ties going to the even thousandth |
| `Interest.NoMatchAllNone` | app/tools/interest_extractor.py:20-24 | a text matching neither pattern gives all three keys None |
| `Interest.BasisPointsIndependent` | app/tools/interest_extractor.py:35-38 | the basis-point key is set iff the basis-point pattern matches |
| `Interest.RangeIndependent` | app/tools/interest_extractor.py:26-33 | the range and nominal keys are set iff the range pattern matches |
| `Interest.RangeIsCaseSensitive` | app/tools/interest_extractor.py:27 | an upper-case "TO A RANGE OF 4.50% TO 4.75%" gives no range |
| `Interest.LeftmostRange` | app/tools/interest_extractor.py:27 | a range pattern after a prefix that contains no "to" is the leftmost match, with exactly its two groups |
| `Interest.LeadingBasisPoints` | app/tools/interest_extractor.py:36 | a text starting with "by N basis points" (any case, any whitespace, also none) matches at 0 with group N |
| `Interest.StatementExample` | app/tools/interest_extractor.py:26-38 | "by 25 basis points to a range of 4.50% to 4.75%" gives 25 basis points, the range (4.5, 4.75) and nominal rate 4.625 |
| `Interest.BasisPointsIgnoreCase` | app/tools/interest_extractor.py:36 | "BY 10BASIS POINTS" gives a change of 10 |
| `Interest.MalformedOperandRaises` | app/tools/interest_extractor.py:27-30 | "to a range of 4.5.6% to 5%" raises ValueError quoting '4.5.6' |
| `MonthWindow.FirstOfMonth` | app/tools/yfinance_api.py:45 | `pd.Timestamp(year, month, 1)` exists iff the month is in 1..12 and the day is in pandas' range; otherwise a bad year raises ValueError, then a bad month does, then an out-of-range day raises OutOfBoundsDatetime |
| `MonthWindow.Window` | app/tools/yfinance_api.py:44-49 | the window starts on the 1st of the requested month; both ends are first days of a month within pandas' range |
| `MonthWindow.WindowDefined` | app/tools/yfinance_api.py:45-49 | a window exists exactly for the months from October 1677 to March 2262 |
| `MonthWindow.WindowIsOneMonth` | app/tools/yfinance_api.py:45-49 | the window ends on the 1st of the next month (the month index goes up by exactly one), strictly after its start |
| `MonthWindow.DecemberRollsOver` | app/tools/yfinance_api.py:46-47 | December's window ends on 1 January of the next year |
| `MonthWindow.WindowOfConsecutiveMonths` | app/tools/yfinance_api.py:45-49 | any two in-range first days one month apart are the window of the earlier month |
| `MonthWindow.FormatThenParse` | app/tools/yfinance_api.py:54-55 | `YYYY-MM-DD` is ten characters and reads back as the same date |
| `MonthWindow.FetchMonthlyTicker` | app/tools/yfinance_api.py:32-64 | a bad window raises its error before any download; the download is asked for the window's dates at a 5-day interval with adjusted prices; the rows come back iff there are any, otherwise ValueError naming the symbol and year-MM |
| `MonthWindow.DecemberRequest` | app/tools/yfinance_api.py:46-55 | December 2024 is requested from "2024-12-01" to "2025-01-01" |
| `MonthWindow.EmptyJune` | app/tools/yfinance_api.py:61-62 | an empty download for June 2024 raises "No data returned for SPY in 2024-06" |
| `MonthWindow.MonthThirteen` | app/tools/yfinance_api.py:45 | month 13 raises "month must be in 1..12" |

## Left out

- The four LLM agents (`app/agents/*.py`) and `analyse` in the interest extractor are not modelled. An agent is a function parameter from the state it sees to its report or an exception.
- Searcher, config, logger, loader and the Streamlit front end are not part of this model. The loaded data set is a parameter of the driver: one record per month with its label.
- Logging and `print` are left out. What the execution node logs is returned as an `ExecutionOutcome` value.
- The console is a sequence of input lines. Reading past its end raises EOFError.
- `yf.download` is a parameter, and only the request made and whether rows came back are modelled. `summarise_ticker` and `format_summary_for_llm` are left out because they are pandas statistics and float formatting.
- `backtest_simulation` is left out: it is a stub that returns empty results.
- Langgraph's concurrency is left out. The two fan-out agents run on the same snapshot, and their writes are merged. When both fail, the model raises the analyst's error; langgraph does not fix that order.
- Floating point is not modelled: numbers are exact reals. `round` is exact ties-to-even, where Python rounds the binary value. `float` of a decimal string gives its exact value.
- `\d`, `\s` and `re.IGNORECASE` are modelled for ASCII digits, `str.isspace` and ASCII letters. Unicode digits and non-ASCII case folds (such as 'ſ' or the Kelvin sign) are left out.
- A missing key and a key that holds `None` are both `None` in the state. Reading an attribute of a report that is `None` raises AttributeError, in the model as in Python. Where the key is missing altogether, Python's `state[key]` raises KeyError, which the model does not distinguish. For `human_approval` in the execution node (`app/nodes/execution_node.py:18`), the model reports a `None` approval as invalid, as `case _` does; a missing key would raise KeyError there. Every pass sets the approval before the execution node runs, so neither case arises in a pass.
- The `human_decision` key that `initial_state` sets is not declared in `SharedState` and nothing reads it, so it is left out.
- `SharedState` fields that no core step writes (`new_equity_allocation`, `new_bond_allocation`) are kept but never set.
- `MonthWindow.FirstOfMonth`: models pandas before 2.0, where a `Timestamp` is held in nanoseconds and must lie between 1677-09-21 00:12:43 and 2262-04-11 23:47:16 (only first-of-month dates are built, so only whole days are compared). From pandas 2.0 on, `pd.Timestamp(year, month, 1)` falls back to a coarser unit and succeeds for every year in 1..9999, so OutOfBoundsDatetime is not raised there.
- `MonthWindow.FirstOfMonth`: a year beyond the range of a C `int` makes Python's `datetime` raise OverflowError rather than "year N is out of range"; the model gives the ValueError for every year outside 1..9999.
- `MonthWindow.Window`: under pandas 2.0 and later every month from January of year 1 to November 9999 has a window, and December 9999 raises "year 10000 is out of range" when the end of the window is built; the model gives the pandas 1.x window only.
- `MonthWindow.WindowDefined`: states the October 1677 to March 2262 range of pandas 1.x. Under pandas 2.x the range is January 1 to November 9999, and for years before 1000 `strftime('%Y')` on glibc does not pad to four digits, so the requested dates would not be `YYYY-MM-DD`; neither is modelled.
- `Chars.Repr`: escapes exactly the characters below U+0100 that Python's `repr` escapes. From U+0100 up every character is written as itself, while Python escapes the ones `str.isprintable` rejects (separators such as U+2028 and U+3000, format characters such as U+200B, private-use and unassigned code points) as `\uNNNN` or `\UNNNNNNNN`, because that needs the Unicode character database.
- `InterestRateAnalysis` and its enums are out: only the LLM analysis uses them.
