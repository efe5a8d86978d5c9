/**
  The human approval step. The console is a sequence of input lines; the step reads lines
  until one is a valid token, and stores the approval it stands for.
 */
module Human {

  import opened Results
  import opened Types

  /** The approval a console line stands for: exactly "1", "0" or "X". */
  function DecodeToken(line: string): (r: Option<HumanApproval>)
    ensures r == Some(Approve) <==> line == "1"
    ensures r == Some(Reject) <==> line == "0"
    ensures r == Some(TryAgain) <==> line == "X"
  {
    match line
    case "X" => Some(TryAgain)
    case "1" => Some(Approve)
    case "0" => Some(Reject)
    case _ => None
  }

  /** The line the prompt offers for each approval. */
  function TokenOf(a: HumanApproval): string {
    match a
    case Approve => "1"
    case Reject => "0"
    case TryAgain => "X"
  }

  /** Each approval has exactly one token, and DecodeToken inverts TokenOf. */
  lemma TokenRoundTrip(a: HumanApproval, line: string)
    ensures DecodeToken(TokenOf(a)) == Some(a)
    ensures DecodeToken(line) == Some(a) ==> line == TokenOf(a)
  {
  }

  /** Matching is exact: no case folding, no trimming. */
  lemma TokensAreExact()
    ensures DecodeToken("x") == None
    ensures DecodeToken(" 1") == None
    ensures DecodeToken("1 ") == None
    ensures DecodeToken("approve") == None
  {
  }

  /**
    The first valid line of `lines` and how many lines reading it consumes
    (the invalid ones before it and itself); None if no line is valid.
   */
  function FirstValid(lines: seq<string>): (r: Option<(HumanApproval, nat)>)
    ensures r.Some? ==> 0 < r.value.1 <= |lines|
    ensures r.Some? ==> DecodeToken(lines[r.value.1 - 1]) == Some(r.value.0)
    ensures r.Some? ==> forall j :: 0 <= j < r.value.1 - 1 ==> DecodeToken(lines[j]).None?
    ensures r.None? <==> forall j :: 0 <= j < |lines| ==> DecodeToken(lines[j]).None?
    decreases |lines|
  {
    if lines == [] then None
    else match DecodeToken(lines[0])
      case Some(a) => Some((a, 1))
      case None =>
        match FirstValid(lines[1..])
        case None => None
        case Some(found) => Some((found.0, found.1 + 1))
  }

  /**
    `human_node`: prompts with the proposed split, loops until a valid token is read, and
    writes the approval into the state. Reading past the last line raises EOFError.
   */
  method HumanNode(s: SharedState, console: seq<string>) returns (r: Result<(SharedState, seq<string>)>)
    ensures s.cioReport.None? ==> r == Failure(AttributeError("'NoneType' object has no attribute 'equities'"))
    ensures s.cioReport.Some? && FirstValid(console).None? ==> r == Failure(EOFError)
    ensures r.Success? <==> s.cioReport.Some? && FirstValid(console).Some?
    ensures r.Success? ==> r.value.0 == s.(humanApproval := Some(FirstValid(console).value.0))
    ensures r.Success? ==> r.value.1 == console[FirstValid(console).value.1..]
  {
    if s.cioReport.None? {
      // the prompt prints the proposed equities share
      return Failure(AttributeError("'NoneType' object has no attribute 'equities'"));
    }
    var i := 0;
    var isValid := false;
    var decision := Approve;
    while !isValid
      invariant 0 <= i <= |console|
      invariant forall j :: 0 <= j < (if isValid then i - 1 else i) ==> DecodeToken(console[j]).None?
      invariant isValid ==> 0 < i && DecodeToken(console[i - 1]) == Some(decision)
      decreases |console| - i, !isValid
    {
      if i == |console| {
        return Failure(EOFError);
      }
      var humanInput := console[i];
      i := i + 1;
      match humanInput {
        case "X" => decision := TryAgain;
        case "1" => decision := Approve;
        case "0" => decision := Reject;
        case _ => continue;
      }
      isValid := true;
    }
    r := Success((s.(humanApproval := Some(decision)), console[i..]));
  }
}
