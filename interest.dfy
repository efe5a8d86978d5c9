/**
  Rule-based extraction of a rate decision from a central-bank statement: the target range
  after "to a range of A% to B%" (case-sensitive) with its midpoint rounded to three decimals,
  and the change after "by N basis points" (case-insensitive, optional whitespace before
  "basis"). Each pattern is searched for on its own and its leftmost match is used.

  Both patterns are deterministic: a greedy run of `[\d.]` is always followed by '%', a greedy
  run of `\d` by whitespace or 'b', and a greedy `\s*` by 'b', none of which the run itself can
  contain, so backtracking never finds a second way to match at the same position.
 */
module Interest {

  import opened Results
  import opened Chars
  import opened Rounding

  // ---------------------------------------------------------------- literals and runs

  /** `s` holds `lit` at position i. */
  predicate HasAt(s: string, i: nat, lit: string) {
    i + |lit| <= |s| && s[i..i + |lit|] == lit
  }

  /** `s` holds `lit` at position i, up to the case of ASCII letters. */
  predicate HasAtIgnoreCase(s: string, i: nat, lit: string) {
    i + |lit| <= |s| && EqualsIgnoreCase(s[i..i + |lit|], lit)
  }

  /** A character of the class `[\d.]`. */
  predicate IsNumChar(c: char) {
    IsDigit(c) || c == '.'
  }

  predicate AllNumChars(s: string) {
    forall i :: 0 <= i < |s| ==> IsNumChar(s[i])
  }

  /** Length of the run of `[\d.]` in `s` starting at i. */
  function NumRun(s: string, i: nat): (n: nat)
    requires i <= |s|
    ensures i + n <= |s|
    ensures forall j :: i <= j < i + n ==> IsNumChar(s[j])
    ensures i + n < |s| ==> !IsNumChar(s[i + n])
    decreases |s| - i
  {
    if i < |s| && IsNumChar(s[i]) then 1 + NumRun(s, i + 1) else 0
  }

  /** Length of the run of `\d` in `s` starting at i. */
  function DigitRun(s: string, i: nat): (n: nat)
    requires i <= |s|
    ensures i + n <= |s|
    ensures forall j :: i <= j < i + n ==> IsDigit(s[j])
    ensures i + n < |s| ==> !IsDigit(s[i + n])
    decreases |s| - i
  {
    if i < |s| && IsDigit(s[i]) then 1 + DigitRun(s, i + 1) else 0
  }

  // ---------------------------------------------------------------- the range pattern

  const RangeLead: string := "to a range of "
  const RangeMid: string := "% to "

  /**
    The regular expression `to a range of ([\d.]+)% to ([\d.]+)%` matches at i with groups g1
    and g2: its pieces occur one after the other from i.
   */
  ghost predicate RangeMatches(s: string, i: nat, g1: string, g2: string) {
    && |g1| > 0 && AllNumChars(g1)
    && |g2| > 0 && AllNumChars(g2)
    && HasAt(s, i, RangeLead)
    && HasAt(s, i + |RangeLead|, g1)
    && HasAt(s, i + |RangeLead| + |g1|, RangeMid)
    && HasAt(s, i + |RangeLead| + |g1| + |RangeMid|, g2)
    && HasAt(s, i + |RangeLead| + |g1| + |RangeMid| + |g2|, "%")
  }

  /** The match of the range pattern at position i, if any, as its two groups. */
  function RangeAt(s: string, i: nat): (r: Option<(string, string)>)
    requires i <= |s|
    ensures r.Some? ==> AllNumChars(r.value.0) && AllNumChars(r.value.1)
  {
    if !HasAt(s, i, RangeLead) then None
    else
      var a := i + |RangeLead|;
      var n1 := NumRun(s, a);
      if n1 == 0 || !HasAt(s, a + n1, RangeMid) then None
      else
        var b := a + n1 + |RangeMid|;
        var n2 := NumRun(s, b);
        if n2 == 0 || !HasAt(s, b + n2, "%") then None
        else Some((s[a..a + n1], s[b..b + n2]))
  }

  /** A match found at i is the pattern's pieces there, with the groups returned. */
  lemma RangeAtSound(s: string, i: nat)
    requires i <= |s| && RangeAt(s, i).Some?
    ensures RangeMatches(s, i, RangeAt(s, i).value.0, RangeAt(s, i).value.1)
  {
  }

  /** A run of `[\d.]` followed by '%' is the whole greedy run: the pattern matches in one way only. */
  lemma RangeAtComplete(s: string, i: nat, g1: string, g2: string)
    requires i <= |s| && RangeMatches(s, i, g1, g2)
    ensures RangeAt(s, i) == Some((g1, g2))
  {
    var a := i + |RangeLead|;
    var b := a + |g1| + |RangeMid|;
    assert s[a + |g1|] == RangeMid[0];
    RunIsGreedy(s, a, |g1|);
    assert s[b + |g2|] == "%"[0];
    RunIsGreedy(s, b, |g2|);
  }

  /** A run of `[\d.]` of length n at i that ends before '%' is the one NumRun measures. */
  lemma {:induction false} RunIsGreedy(s: string, i: nat, n: nat)
    requires i + n < |s| && AllNumChars(s[i..i + n]) && s[i + n] == '%'
    ensures NumRun(s, i) == n
    decreases n
  {
    if n > 0 {
      assert IsNumChar(s[i..i + n][0]);
      assert s[i + 1..i + n] == s[i..i + n][1..];
      RunIsGreedy(s, i + 1, n - 1);
    }
  }

  /** No range match starts at a position in [i, k). */
  predicate NoRangeIn(s: string, i: nat, k: nat)
    requires k <= |s| + 1
    decreases k - i
  {
    i >= k || (RangeAt(s, i).None? && NoRangeIn(s, i + 1, k))
  }

  /** NoRangeIn is the position-by-position statement. */
  lemma {:induction false} NoRangeInEach(s: string, i: nat, k: nat)
    requires i <= k <= |s| + 1
    ensures NoRangeIn(s, i, k) <==> forall j :: i <= j < k ==> RangeAt(s, j).None?
    decreases k - i
  {
    if i < k {
      NoRangeInEach(s, i + 1, k);
      if NoRangeIn(s, i, k) {
        forall j | i <= j < k ensures RangeAt(s, j).None? {
          if j > i { assert i + 1 <= j < k; }
        }
      } else if RangeAt(s, i).Some? {
        assert !(forall j :: i <= j < k ==> RangeAt(s, j).None?);
      }
    }
  }

  /** `re.search` for the range pattern from position i: the leftmost match at or after i. */
  function SearchRange(s: string, i: nat): (r: Option<(nat, string, string)>)
    requires i <= |s|
    ensures r.Some? ==> i <= r.value.0 <= |s| && RangeAt(s, r.value.0) == Some((r.value.1, r.value.2))
    ensures r.Some? ==> NoRangeIn(s, i, r.value.0)
    ensures r.None? <==> NoRangeIn(s, i, |s| + 1)
    decreases |s| - i
  {
    match RangeAt(s, i)
    case Some(g) => Some((i, g.0, g.1))
    case None => if i == |s| then None else SearchRange(s, i + 1)
  }

  /** The leftmost match: none before it, and None exactly when no position matches. */
  lemma SearchRangeLeftmost(s: string, i: nat)
    requires i <= |s|
    ensures SearchRange(s, i).Some? ==> forall j :: i <= j < SearchRange(s, i).value.0 ==> RangeAt(s, j).None?
    ensures SearchRange(s, i).None? <==> forall j :: i <= j <= |s| ==> RangeAt(s, j).None?
  {
    var r := SearchRange(s, i);
    var k := if r.Some? then r.value.0 else |s| + 1;
    NoRangeInEach(s, i, k);
    NoRangeInEach(s, i, |s| + 1);
    assert r.None? <==> NoRangeIn(s, i, |s| + 1);
  }

  /** A match at j with none before it in [i, j) is what `re.search` from i returns. */
  lemma SearchRangeFinds(s: string, i: nat, j: nat, g1: string, g2: string)
    requires i <= j <= |s| && RangeMatches(s, j, g1, g2)
    requires forall k :: i <= k < j ==> RangeAt(s, k).None?
    ensures SearchRange(s, i) == Some((j, g1, g2))
  {
    RangeAtComplete(s, j, g1, g2);
    SearchRangeLeftmost(s, i);
    var r := SearchRange(s, i);
    assert r.Some?;
    var k := r.value.0;
    assert RangeAt(s, k).Some?;
    assert !(k < j);
    assert !(j < k);
  }

  // ---------------------------------------------------------------- the basis-points pattern

  const BpLead: string := "by "
  const BpTail: string := "basis points"

  /**
    The regular expression `by (\d+)\s*basis points`, ignoring case, matches at i with group g
    and w whitespace characters: "by" in any case, the digits of g, the whitespace, then
    "basis points" in any case.
   */
  ghost predicate BasisPointsMatches(s: string, i: nat, g: string, w: nat) {
    && |g| > 0 && AllDigits(g)
    && HasAtIgnoreCase(s, i, BpLead)
    && HasAt(s, i + |BpLead|, g)
    && i + |BpLead| + |g| + w <= |s|
    && (forall j :: i + |BpLead| + |g| <= j < i + |BpLead| + |g| + w ==> IsSpace(s[j]))
    && HasAtIgnoreCase(s, i + |BpLead| + |g| + w, BpTail)
  }

  /** The match of `by (\d+)\s*basis points`, ignoring case, at position i, as its group. */
  function BasisPointsAt(s: string, i: nat): (r: Option<string>)
    requires i <= |s|
  {
    if !HasAtIgnoreCase(s, i, BpLead) then None
    else
      var a := i + |BpLead|;
      var n := DigitRun(s, a);
      if n == 0 then None
      else
        var w := SpaceRun(s, a + n);
        if !HasAtIgnoreCase(s, a + n + w, BpTail) then None
        else Some(s[a..a + n])
  }

  /** A match found at i is the pattern's pieces there, with the group returned. */
  lemma BasisPointsAtSound(s: string, i: nat)
    requires i <= |s| && BasisPointsAt(s, i).Some?
    ensures
      var g := BasisPointsAt(s, i).value;
      BasisPointsMatches(s, i, g, SpaceRun(s, i + |BpLead| + |g|))
  {
  }

  /**
    The digits before the whitespace and "basis points" are the whole greedy run, and the
    whitespace the whole run of spaces: the pattern matches in one way only.
   */
  lemma BasisPointsAtComplete(s: string, i: nat, g: string, w: nat)
    requires i <= |s| && BasisPointsMatches(s, i, g, w)
    ensures BasisPointsAt(s, i) == Some(g)
  {
    MatchRuns(s, i, g, w);
    BasisPointsAtGroup(s, i, g, w);
  }

  /** In a match, the group is the whole run of digits after "by " and w the whole run of whitespace after it. */
  lemma MatchRuns(s: string, i: nat, g: string, w: nat)
    requires i <= |s| && BasisPointsMatches(s, i, g, w)
    ensures DigitRun(s, i + |BpLead|) == |g| && SpaceRun(s, i + |BpLead| + |g|) == w
  {
    var a := i + |BpLead|;
    var e := a + |g|;
    TailStart(s, e + w);
    DigitsAt(s, a, g);
    assert !IsDigit(s[e]) by {
      if w > 0 {
        assert IsSpace(s[e]);
      }
    }
    DigitRunIs(s, a, |g|);
    SpaceRunIs(s, e, w);
  }

  /** BasisPointsAt from the group found after "by " and the whitespace after it. */
  lemma BasisPointsAtGroup(s: string, i: nat, g: string, w: nat)
    requires HasAtIgnoreCase(s, i, BpLead) && HasAt(s, i + |BpLead|, g)
    requires DigitRun(s, i + |BpLead|) == |g| > 0 && SpaceRun(s, i + |BpLead| + |g|) == w
    requires HasAtIgnoreCase(s, i + |BpLead| + |g| + w, BpTail)
    ensures BasisPointsAt(s, i) == Some(g)
  {
    BasisPointsAtRuns(s, i, |g|, w);
    GroupIs(s, i + |BpLead|, g);
  }

  /** BasisPointsAt from the lengths of the digit and whitespace runs after "by ". */
  lemma BasisPointsAtRuns(s: string, i: nat, n: nat, w: nat)
    requires HasAtIgnoreCase(s, i, BpLead)
    requires DigitRun(s, i + |BpLead|) == n > 0 && SpaceRun(s, i + |BpLead| + n) == w
    requires HasAtIgnoreCase(s, i + |BpLead| + n + w, BpTail)
    ensures BasisPointsAt(s, i) == Some(s[i + |BpLead|..i + |BpLead| + n])
  {
  }

  /** The group found after "by " is the one the text holds there. */
  lemma GroupIs(s: string, a: nat, g: string)
    requires HasAt(s, a, g)
    ensures s[a..a + |g|] == g
  {
  }

  /** "basis points" in any case starts with 'b' or 'B', neither a digit nor whitespace. */
  lemma TailStart(s: string, t: nat)
    requires HasAtIgnoreCase(s, t, BpTail)
    ensures t < |s| && !IsDigit(s[t]) && !IsSpace(s[t])
  {
    assert LowerAscii(s[t..t + |BpTail|][0]) == LowerAscii(BpTail[0]);
  }

  /** The characters of a group of digits found at a are digits of `s`. */
  lemma DigitsAt(s: string, a: nat, g: string)
    requires HasAt(s, a, g) && AllDigits(g)
    ensures forall j :: a <= j < a + |g| ==> IsDigit(s[j])
  {
    assert forall j :: a <= j < a + |g| ==> s[j] == g[j - a];
  }

  /** No position in [i, k) starts a basis-points match. */
  predicate NoBasisPointsIn(s: string, i: nat, k: nat)
    requires k <= |s| + 1
    decreases k - i
  {
    i >= k || (BasisPointsAt(s, i).None? && NoBasisPointsIn(s, i + 1, k))
  }

  /** NoBasisPointsIn is the position-by-position statement. */
  lemma {:induction false} NoBasisPointsInEach(s: string, i: nat, k: nat)
    requires i <= k <= |s| + 1
    ensures NoBasisPointsIn(s, i, k) <==> forall j :: i <= j < k ==> BasisPointsAt(s, j).None?
    decreases k - i
  {
    if i < k {
      NoBasisPointsInEach(s, i + 1, k);
      if NoBasisPointsIn(s, i, k) {
        forall j | i <= j < k ensures BasisPointsAt(s, j).None? {
          if j > i { assert i + 1 <= j < k; }
        }
      } else if BasisPointsAt(s, i).Some? {
        assert !(forall j :: i <= j < k ==> BasisPointsAt(s, j).None?);
      }
    }
  }

  /** `re.search` for the basis-points pattern from position i: the leftmost match at or after i. */
  function SearchBasisPoints(s: string, i: nat): (r: Option<(nat, string)>)
    requires i <= |s|
    ensures r.Some? ==> i <= r.value.0 <= |s| && BasisPointsAt(s, r.value.0) == Some(r.value.1)
    ensures r.Some? ==> AllDigits(r.value.1)
    ensures r.Some? ==> NoBasisPointsIn(s, i, r.value.0)
    ensures r.None? <==> NoBasisPointsIn(s, i, |s| + 1)
    decreases |s| - i
  {
    match BasisPointsAt(s, i)
    case Some(g) =>
      BasisPointsAtSound(s, i);
      Some((i, g))
    case None => if i == |s| then None else SearchBasisPoints(s, i + 1)
  }

  /** The leftmost match: none before it, and None exactly when no position matches. */
  lemma SearchBasisPointsLeftmost(s: string, i: nat)
    requires i <= |s|
    ensures SearchBasisPoints(s, i).Some? ==>
              forall j :: i <= j < SearchBasisPoints(s, i).value.0 ==> BasisPointsAt(s, j).None?
    ensures SearchBasisPoints(s, i).None? <==> forall j :: i <= j <= |s| ==> BasisPointsAt(s, j).None?
  {
    var r := SearchBasisPoints(s, i);
    var k := if r.Some? then r.value.0 else |s| + 1;
    NoBasisPointsInEach(s, i, k);
    NoBasisPointsInEach(s, i, |s| + 1);
    assert r.None? <==> NoBasisPointsIn(s, i, |s| + 1);
  }

  /** A match at j with none before it in [i, j) is what `re.search` from i returns. */
  lemma SearchBasisPointsFinds(s: string, i: nat, j: nat, g: string, w: nat)
    requires i <= j <= |s| && BasisPointsMatches(s, j, g, w)
    requires forall k :: i <= k < j ==> BasisPointsAt(s, k).None?
    ensures SearchBasisPoints(s, i) == Some((j, g))
  {
    BasisPointsAtComplete(s, j, g, w);
    SearchBasisPointsLeftmost(s, i);
    var r := SearchBasisPoints(s, i);
    assert r.Some?;
    var k := r.value.0;
    assert BasisPointsAt(s, k).Some?;
    assert !(k < j);
    assert !(j < k);
  }

  // ---------------------------------------------------------------- float()

  /** The number of '.' in s. */
  function Dots(s: string): nat {
    if s == [] then 0 else Dots(s[..|s| - 1]) + (if s[|s| - 1] == '.' then 1 else 0)
  }

  /** The position of the first '.' in s, if any. */
  function DotIndex(s: string): (r: Option<nat>)
    ensures r.Some? ==> r.value < |s| && s[r.value] == '.' && forall j :: 0 <= j < r.value ==> s[j] != '.'
    ensures r.None? ==> forall j :: 0 <= j < |s| ==> s[j] != '.'
  {
    if s == [] then None
    else if s[0] == '.' then Some(0)
    else match DotIndex(s[1..])
      case None => None
      case Some(k) => Some(k + 1)
  }

  /**
    The value of `int.frac` (either part possibly empty, not both) as an exact rational.
   */
  function DecimalValue(intPart: string, fracPart: string): real
    requires AllDigits(intPart) && AllDigits(fracPart)
  {
    DigitsValue(intPart) as real + DigitsValue(fracPart) as real / Pow10(|fracPart|) as real
  }

  /**
    `float(g)` for a string of digits and dots: a number when it has at most one dot and at
    least one digit, `ValueError` otherwise. Decimal fractions are kept exact.
   */
  function ParseFloat(g: string): (r: Result<real>)
    requires AllNumChars(g)
    ensures r.Failure? ==> r.error == ValueError("could not convert string to float: '" + g + "'")
    ensures DotIndex(g).None? ==> (r.Success? <==> g != [])
    ensures DotIndex(g).None? && r.Success? ==> r.value == DigitsValue(g) as real
    ensures DotIndex(g).Some? ==>
              var k := DotIndex(g).value;
              && (r.Success? <==> AllDigits(g[k + 1..]) && |g| > 1)
              && (r.Success? ==> AllDigits(g[..k]) && r.value == DecimalValue(g[..k], g[k + 1..]))
  {
    match DotIndex(g)
    case None =>
      if g == [] then Failure(ValueError("could not convert string to float: '" + g + "'"))
      else Success(DigitsValue(g) as real)
    case Some(k) =>
      var intPart, fracPart := g[..k], g[k + 1..];
      assert AllDigits(intPart) by {
        assert forall j :: 0 <= j < k ==> intPart[j] == g[j];
      }
      if !AllDigits(fracPart) || |g| == 1 then Failure(ValueError("could not convert string to float: '" + g + "'"))
      else Success(DecimalValue(intPart, fracPart))
  }

  /** A string of digits and dots converts exactly when it has at most one dot and some digit. */
  lemma ParseFloatAccepts(g: string)
    requires AllNumChars(g)
    ensures ParseFloat(g).Success? <==> Dots(g) <= 1 && Dots(g) < |g|
  {
    match DotIndex(g)
    case None =>
      NoDots(g);
    case Some(k) =>
      DotsSplit(g, k);
      NoDots(g[..k]);
      FractionDigits(g[k + 1..]);
  }

  /** A run of digits and dots is all digits exactly when it has no dot. */
  lemma FractionDigits(f: string)
    requires AllNumChars(f)
    ensures AllDigits(f) <==> Dots(f) == 0
  {
    if AllDigits(f) {
      NoDots(f);
    } else {
      var j :| 0 <= j < |f| && !IsDigit(f[j]);
      assert f[j] == '.';
      SomeDot(f, j);
    }
  }

  /** A string with no '.' has zero dots. */
  lemma {:induction false} NoDots(s: string)
    requires forall j :: 0 <= j < |s| ==> s[j] != '.'
    ensures Dots(s) == 0
  {
    if s != [] {
      NoDots(s[..|s| - 1]);
    }
  }

  /** A string with a '.' at j has at least one dot. */
  lemma {:induction false} SomeDot(s: string, j: nat)
    requires j < |s| && s[j] == '.'
    ensures Dots(s) >= 1
  {
    if j < |s| - 1 {
      SomeDot(s[..|s| - 1], j);
    }
  }

  /** Dots are counted on either side of position k. */
  lemma {:induction false} DotsSplit(g: string, k: nat)
    requires k < |g| && g[k] == '.'
    ensures Dots(g) == Dots(g[..k]) + 1 + Dots(g[k + 1..])
  {
    DotsAppend(g[..k + 1], g[k + 1..]);
    assert g[..k + 1] + g[k + 1..] == g;
    assert g[..k + 1][..k] == g[..k];
  }

  /** Counting dots distributes over concatenation. */
  lemma {:induction false} DotsAppend(s: string, t: string)
    ensures Dots(s + t) == Dots(s) + Dots(t)
    decreases |t|
  {
    if t != [] {
      DotsAppend(s, t[..|t| - 1]);
      assert (s + t)[..|s + t| - 1] == s + t[..|t| - 1];
      assert (s + t)[|s + t| - 1] == t[|t| - 1];
    } else {
      assert s + t == s;
    }
  }

  // ---------------------------------------------------------------- extract

  /** The three keys of the result; `None` where the text did not give a value. */
  datatype Extraction = Extraction(
    nominalRate: Option<real>,
    newRange: Option<(real, real)>,
    basisPointsChange: Option<nat>)

  /** CPython's default limit on the digits `int()` converts from a string. */
  const MaxStrDigits: nat := 4300

  /** What `int()` raises for a string of n digits over the limit. */
  function IntLimit(n: nat): Exception {
    ValueError("Exceeds the limit (4300 digits) for integer string conversion: value has "
               + Decimal(n) + " digits; use sys.set_int_max_str_digits() to increase the limit")
  }

  /**
    The change in basis points the text states, if the pattern occurs: `int()` of the group,
    which raises when the group has more digits than the limit.
   */
  function BasisPoints(text: string): (r: Result<Option<nat>>)
    ensures SearchBasisPoints(text, 0).None? ==> r == Success(None)
    ensures SearchBasisPoints(text, 0).Some? ==>
              var g := SearchBasisPoints(text, 0).value.1;
              && (|g| <= MaxStrDigits ==> r == Success(Some(DigitsValue(g))))
              && (|g| > MaxStrDigits ==> r == Failure(IntLimit(|g|)))
  {
    match SearchBasisPoints(text, 0)
    case None => Success(None)
    case Some(m) =>
      if |m.1| > MaxStrDigits then Failure(IntLimit(|m.1|))
      else Success(Some(DigitsValue(m.1)))
  }

  /** A group found in a text no longer than the limit converts. */
  lemma ShortTextConverts(text: string)
    requires |text| <= MaxStrDigits
    ensures BasisPoints(text).Success?
  {
    var m := SearchBasisPoints(text, 0);
    if m.Some? {
      BasisPointsAtSound(text, m.value.0);
    }
  }

  /**
    `extract`: the range and its rounded midpoint from the leftmost range match, and the
    basis-point change from the leftmost basis-point match; an operand that is not a number
    raises, the range's operands before the basis points.
   */
  function Extract(text: string): (r: Result<Extraction>)
    ensures SearchRange(text, 0).None? ==>
              r == (if BasisPoints(text).Failure? then Failure(BasisPoints(text).error)
                    else Success(Extraction(None, None, BasisPoints(text).value)))
    ensures SearchRange(text, 0).Some? ==>
              var m := SearchRange(text, 0).value;
              && (r.Success? <==> ParseFloat(m.1).Success? && ParseFloat(m.2).Success? && BasisPoints(text).Success?)
              && (ParseFloat(m.1).Failure? ==> r == Failure(ParseFloat(m.1).error))
              && (ParseFloat(m.1).Success? && ParseFloat(m.2).Failure? ==> r == Failure(ParseFloat(m.2).error))
              && (ParseFloat(m.1).Success? && ParseFloat(m.2).Success? && BasisPoints(text).Failure? ==>
                    r == Failure(BasisPoints(text).error))
              && (r.Success? ==> r.value.newRange == Some((ParseFloat(m.1).value, ParseFloat(m.2).value)))
    ensures r.Success? ==> BasisPoints(text).Success? && r.value.basisPointsChange == BasisPoints(text).value
    ensures r.Success? ==> (r.value.nominalRate.Some? <==> r.value.newRange.Some?)
    ensures r.Success? && r.value.newRange.Some? ==>
              r.value.nominalRate == Some(Round(Midpoint(r.value.newRange.value), 3))
  {
    var range := SearchRange(text, 0);
    if range.None? then
      var bp :- BasisPoints(text);
      Success(Extraction(None, None, bp))
    else
      var lower :- ParseFloat(range.value.1);
      var upper :- ParseFloat(range.value.2);
      var bp :- BasisPoints(text);
      Success(Extraction(Some(Round(Midpoint((lower, upper)), 3)), Some((lower, upper)), bp))
  }

  /** The middle of a range. */
  function Midpoint(range: (real, real)): (m: real)
    ensures m - range.0 == range.1 - m
  {
    (range.0 + range.1) / 2.0
  }

  /** The nominal rate `round(x, 3)` is within half a thousandth of the midpoint x, a tie going to the even thousandth. */
  lemma RoundThousandths(x: real)
    ensures -0.0005 <= Round(x, 3) - x <= 0.0005
    ensures NearestEven(x * 1000.0, (Round(x, 3) * 1000.0).Floor)
  {
    assert Pow10(3) == 1000 by {
      assert Pow10(1) == 10 && Pow10(2) == 100;
    }
    var k := RoundUnits(x, 3);
    assert Round(x, 3) * 1000.0 == k as real;
  }

  /** When neither pattern occurs the result still has its three keys, all None. */
  lemma NoMatchAllNone(text: string)
    requires SearchRange(text, 0).None? && SearchBasisPoints(text, 0).None?
    ensures Extract(text) == Success(Extraction(None, None, None))
  {
  }

  /** The basis-point key depends on the basis-point pattern only. */
  lemma BasisPointsIndependent(text: string)
    requires Extract(text).Success?
    ensures Extract(text).value.basisPointsChange.Some? <==> SearchBasisPoints(text, 0).Some?
  {
  }

  /** The range keys depend on the range pattern only. */
  lemma RangeIndependent(text: string)
    requires Extract(text).Success?
    ensures Extract(text).value.newRange.Some? <==> SearchRange(text, 0).Some?
    ensures Extract(text).value.nominalRate.Some? <==> SearchRange(text, 0).Some?
  {
  }

  // ---------------------------------------------------------------- examples

  /** No range match starts where the text has no 't'. */
  lemma NoRangeWithoutT(s: string, j: nat)
    requires j <= |s| && (j < |s| ==> s[j] != 't')
    ensures RangeAt(s, j).None?
  {
  }

  /** Positions without a match do not change the leftmost match. */
  lemma {:induction false} SkipToRange(s: string, i: nat, k: nat)
    requires i <= k <= |s|
    requires forall j :: i <= j < k ==> RangeAt(s, j).None?
    ensures SearchRange(s, i) == SearchRange(s, k)
    decreases k - i
  {
    if i < k {
      assert RangeAt(s, i).None?;
      assert SearchRange(s, i) == SearchRange(s, i + 1);
      SkipToRange(s, i + 1, k);
    }
  }

  /** The range statement in upper case. */
  const ShoutedRange: string := "TO A RANGE OF 4.50% TO 4.75%"

  /** The range pattern is case-sensitive: an upper-case statement gives no range. */
  lemma RangeIsCaseSensitive()
    ensures Extract(ShoutedRange).Success?
    ensures Extract(ShoutedRange).value.newRange == None
    ensures Extract(ShoutedRange).value.nominalRate == None
  {
    ShoutedHasNoRange();
    ShortTextConverts(ShoutedRange);
  }

  lemma ShoutedHasNoRange()
    ensures SearchRange(ShoutedRange, 0).None?
  {
    var s := ShoutedRange;
    forall j | 0 <= j <= |s|
      ensures RangeAt(s, j).None?
    {
      NoRangeWithoutT(s, j);
    }
    SearchRangeLeftmost(s, 0);
  }

  /** No 't' in `lead` is followed by 'o' within `lead`, so no "to a range of" starts in it. */
  predicate NoRangeStart(lead: string) {
    forall j :: 0 <= j < |lead| && lead[j] == 't' ==> j + 1 < |lead| && lead[j + 1] != 'o'
  }

  /**
    In `lead`, then "to a range of g1% to g2%", then anything, the leftmost range match is the
    one right after `lead`, with groups g1 and g2.
   */
  lemma LeftmostRange(lead: string, g1: string, g2: string, post: string)
    requires |g1| > 0 && AllNumChars(g1) && |g2| > 0 && AllNumChars(g2)
    requires NoRangeStart(lead)
    ensures SearchRange(lead + RangeLead + g1 + RangeMid + g2 + "%" + post, 0) == Some((|lead|, g1, g2))
  {
    var s := lead + RangeLead + g1 + RangeMid + g2 + "%" + post;
    RangeShapeMatches(lead, g1, g2, post);
    RangeAtComplete(s, |lead|, g1, g2);
    assert s[..|lead|] == lead;
    NoRangeInLead(s, lead);
    SkipToRange(s, 0, |lead|);
  }

  /** The pieces of `lead + "to a range of " + g1 + "% to " + g2 + "%" + post` sit one after the other. */
  lemma RangeShapeMatches(lead: string, g1: string, g2: string, post: string)
    requires |g1| > 0 && AllNumChars(g1) && |g2| > 0 && AllNumChars(g2)
    ensures RangeMatches(lead + RangeLead + g1 + RangeMid + g2 + "%" + post, |lead|, g1, g2)
  {
    var s1 := lead + RangeLead;
    var s2 := s1 + g1;
    var s3 := s2 + RangeMid;
    var s4 := s3 + g2;
    var s5 := s4 + "%";
    var s := s5 + post;
    assert s[|lead|..|s1|] == RangeLead;
    assert s[|s1|..|s2|] == g1;
    assert s[|s2|..|s3|] == RangeMid;
    assert s[|s3|..|s4|] == g2;
    assert s[|s4|..|s5|] == "%";
  }

  /** No range match starts inside a prefix without a "to" in it. */
  lemma NoRangeInLead(s: string, lead: string)
    requires |lead| <= |s| && s[..|lead|] == lead && NoRangeStart(lead)
    ensures forall j :: 0 <= j < |lead| ==> RangeAt(s, j).None?
  {
    forall j | 0 <= j < |lead|
      ensures RangeAt(s, j).None?
    {
      assert !HasAt(s, j, RangeLead) by {
        if j + |RangeLead| <= |s| {
          var w := s[j..j + |RangeLead|];
          assert w[0] == s[j] == lead[j];
          if lead[j] == 't' {
            assert w[1] == s[j + 1] == lead[j + 1] != 'o';
          }
          assert w[0] != RangeLead[0] || w[1] != RangeLead[1];
        }
      }
    }
  }

  /**
    A text that starts "by N basis points" (any case, any whitespace before "basis") has its
    leftmost basis-points match at the start, with group N.
   */
  lemma LeadingBasisPoints(lead: string, digits: string, spaces: string, tail: string, post: string)
    requires EqualsIgnoreCase(lead, BpLead) && EqualsIgnoreCase(tail, BpTail)
    requires |digits| > 0 && AllDigits(digits)
    requires forall j :: 0 <= j < |spaces| ==> IsSpace(spaces[j])
    ensures SearchBasisPoints(lead + digits + spaces + tail + post, 0) == Some((0, digits))
  {
    var s1 := lead + digits;
    var s2 := s1 + spaces;
    var s3 := s2 + tail;
    var s := s3 + post;
    assert s[..|lead|] == lead;
    assert s[|lead|..|s1|] == digits;
    assert s[|s2|..|s3|] == tail;
    assert forall j :: |s1| <= j < |s2| ==> s[j] == spaces[j - |s1|];
    assert BasisPointsMatches(s, 0, digits, |spaces|);
    BasisPointsAtComplete(s, 0, digits, |spaces|);
  }

  /** A run of digits at i that ends before a non-digit is the one DigitRun measures. */
  lemma {:induction false} DigitRunIs(s: string, i: nat, n: nat)
    requires i + n < |s| && !IsDigit(s[i + n])
    requires forall j :: i <= j < i + n ==> IsDigit(s[j])
    ensures DigitRun(s, i) == n
    decreases n
  {
    if n > 0 {
      DigitRunIs(s, i + 1, n - 1);
    }
  }

  /** A run of whitespace at i that ends before a non-space is the one SpaceRun measures. */
  lemma {:induction false} SpaceRunIs(s: string, i: nat, n: nat)
    requires i + n < |s| && !IsSpace(s[i + n])
    requires forall j :: i <= j < i + n ==> IsSpace(s[j])
    ensures SpaceRun(s, i) == n
    decreases n
  {
    if n > 0 {
      SpaceRunIs(s, i + 1, n - 1);
    }
  }

  /** "by 25 basis points to a range of 4.50% to 4.75%", the kind of statement the extractor reads. */
  const Statement: string := "by " + "25" + " " + "basis points" + " " + RangeLead + "4.50" + RangeMid + "4.75" + "%"

  /** The basis-points pattern matches at the start of the statement, with group "25". */
  lemma StatementBasisPoints()
    ensures SearchBasisPoints(Statement, 0) == Some((0, "25"))
    ensures BasisPoints(Statement) == Success(Some(25))
  {
    var post := " " + RangeLead + "4.50" + RangeMid + "4.75" + "%";
    LeadingBasisPoints("by ", "25", " ", "basis points", post);
    StatementStartsWithChange();
    TwentyFive();
  }

  lemma StatementStartsWithChange()
    ensures Statement == "by " + "25" + " " + "basis points" + (" " + RangeLead + "4.50" + RangeMid + "4.75" + "%")
  {
  }

  lemma TwentyFive()
    ensures DigitsValue("25") == 25
  {
    assert "25"[..1] == "2" && "2"[..0] == [];
  }

  /** The leftmost range match in the statement is at position 19, with groups "4.50" and "4.75". */
  lemma StatementRange()
    ensures SearchRange(Statement, 0) == Some((19, "4.50", "4.75"))
  {
    var lead := "by " + "25" + " " + "basis points" + " ";
    assert lead == "by 25 basis points ";
    LeftmostRange(lead, "4.50", "4.75", "");
    assert Statement == lead + RangeLead + "4.50" + RangeMid + "4.75" + "%" + "";
  }

  /** `float("4.50")` is 4.5 and `float("4.75")` is 4.75. */
  lemma StatementOperands()
    ensures ParseFloat("4.50") == Success(4.5)
    ensures ParseFloat("4.75") == Success(4.75)
  {
    assert DotIndex("4.50") == Some(1) by { assert "4.50"[1..] == ".50"; }
    assert "4.50"[..1] == "4" && "4.50"[2..] == "50";
    assert DigitsValue("4") == 4 by { assert "4"[..0] == []; }
    assert DigitsValue("50") == 50 by { assert "50"[..1] == "5" && "5"[..0] == []; }
    assert Pow10(2) == 100;
    assert DotIndex("4.75") == Some(1) by { assert "4.75"[1..] == ".75"; }
    assert "4.75"[..1] == "4" && "4.75"[2..] == "75";
    assert DigitsValue("75") == 75 by { assert "75"[..1] == "7" && "7"[..0] == []; }
  }

  /**
    "...by 25 basis points to a range of 4.50% to 4.75%" gives a change of 25 basis points,
    the range (4.5, 4.75) and the nominal rate 4.625.
   */
  lemma StatementExample()
    ensures Extract(Statement) == Success(Extraction(Some(4.625), Some((4.5, 4.75)), Some(25)))
  {
    StatementBasisPoints();
    StatementRange();
    StatementOperands();
    StatementNominal();
  }

  /** The midpoint of (4.5, 4.75) is 4.625, already a whole number of thousandths. */
  lemma StatementNominal()
    ensures Round(Midpoint((4.5, 4.75)), 3) == 4.625
  {
    assert Midpoint((4.5, 4.75)) == 4.625;
    assert Pow10(3) == 1000 by { assert Pow10(1) == 10 && Pow10(2) == 100; }
    assert RoundHalfEven(4625.0) == 4625;
  }

  /** "BY 10BASIS POINTS": upper case, and no space before "basis". */
  const ShoutedChange: string := "BY " + "10" + "" + "BASIS POINTS" + ""

  /** The basis-points pattern ignores case and needs no space before "basis". */
  lemma BasisPointsIgnoreCase()
    ensures SearchBasisPoints(ShoutedChange, 0) == Some((0, "10"))
    ensures BasisPoints(ShoutedChange) == Success(Some(10))
  {
    assert EqualsIgnoreCase("BY ", BpLead);
    assert EqualsIgnoreCase("BASIS POINTS", BpTail);
    LeadingBasisPoints("BY ", "10", "", "BASIS POINTS", "");
    assert DigitsValue("10") == 10 by { assert "10"[..1] == "1" && "1"[..0] == []; }
  }

  /** A change written with more digits than `int()` converts raises ValueError. */
  lemma LongChangeRaises(digits: string, post: string)
    requires |digits| > MaxStrDigits && AllDigits(digits)
    ensures BasisPoints("by " + digits + " " + "basis points" + post) == Failure(IntLimit(|digits|))
  {
    LeadingBasisPoints("by ", digits, " ", "basis points", post);
  }

  /** An operand of digits and dots that is not a number raises ValueError. */
  lemma MalformedOperandRaises()
    ensures Extract("to a range of 4.5.6% to 5%") == Failure(ValueError("could not convert string to float: '4.5.6'"))
  {
    var text := "to a range of 4.5.6% to 5%";
    assert text == "" + RangeLead + "4.5.6" + RangeMid + "5" + "%" + "";
    LeftmostRange("", "4.5.6", "5", "");
    var m := SearchRange(text, 0);
    assert m == Some((0, "4.5.6", "5"));
    TwoDotsRaise();
    assert ParseFloat(m.value.1).Failure?;
  }

  /** `float("4.5.6")` raises. */
  lemma TwoDotsRaise()
    ensures ParseFloat("4.5.6") == Failure(ValueError("could not convert string to float: '4.5.6'"))
  {
    assert DotIndex("4.5.6") == Some(1) by { assert "4.5.6"[1..] == ".5.6"; }
    assert "4.5.6"[2..] == "5.6";
    assert !IsDigit("5.6"[1]);
  }
}
