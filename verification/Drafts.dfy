/** Validation and totals of a vendor's estimate draft. */
module Drafts {
  import opened Options
  import opened Types

  datatype DraftInput =
    | FixedInput(lines: seq<Line>, durationMinutes: Option<int>)
    | VisitInput(at: int)
    | DeclineInput

  predicate PositiveDatabaseInteger(n: int) {
    0 < n <= MAX_DATABASE_INT
  }

  predicate LineAllowed(line: Line) {
    && PositiveDatabaseInteger(line.quantity)
    && PositiveDatabaseInteger(line.unitAmount)
    && line.quantity * line.unitAmount <= MAX_DATABASE_INT
  }

  /** The left-to-right sum of the line amounts. */
  function Total(lines: seq<Line>): int {
    if lines == [] then 0
    else var last := lines[|lines| - 1]; Total(lines[..|lines| - 1]) + last.quantity * last.unitAmount
  }

  /** The stored content of a draft, or None where the input is refused. A product or sum that
      a double cannot hold exactly is far above the integer limit and refused either way. */
  function Normalize(input: DraftInput): Option<Content> {
    match input
    case FixedInput(lines, duration) =>
      if |lines| == 0 then None
      else if duration.Some? && !PositiveDatabaseInteger(duration.value) then None
      else if exists k :: 0 <= k < |lines| && !LineAllowed(lines[k]) then None
      else if Total(lines) <= 0 || Total(lines) > MAX_DATABASE_INT then None
      else Some(Fixed(lines, Total(lines)))
    case VisitInput(at) => Some(Visit(at))
    case DeclineInput => Some(Decline)
  }

  /** What every stored estimate satisfies: a fixed estimate's total is the sum of quantity
      times unit amount over allowed lines, and a database integer. */
  predicate ContentOk(content: Content) {
    content.Fixed? ==>
      && |content.lines| > 0
      && (forall k :: 0 <= k < |content.lines| ==> LineAllowed(content.lines[k]))
      && content.total == Total(content.lines)
      && PositiveDatabaseInteger(content.total)
  }

  lemma {:induction false} TotalIsPositive(lines: seq<Line>)
    requires forall k :: 0 <= k < |lines| ==> LineAllowed(lines[k])
    ensures Total(lines) >= |lines|
  {
    if lines == [] {
    } else {
      var last := lines[|lines| - 1];
      TotalIsPositive(lines[..|lines| - 1]);
      ProductAtLeastOne(last.quantity, last.unitAmount);
    }
  }

  lemma {:induction false} ProductAtLeastOne(a: int, b: int)
    requires a >= 1 && b >= 1
    ensures a * b >= 1
  {
    assert a * b == (a - 1) * b + b;
    assert (a - 1) * b >= 0;
  }

  /** The only ways to lose a fixed estimate are an empty list, a bad duration, a bad line and
      a total past the limit; in particular the total of allowed lines is never the reason on
      the low side. */
  lemma {:induction false} NormalizeAccepts(lines: seq<Line>, duration: Option<int>)
    ensures Normalize(FixedInput(lines, duration)).Some? <==>
            && lines != []
            && (duration.Some? ==> PositiveDatabaseInteger(duration.value))
            && (forall k :: 0 <= k < |lines| ==> LineAllowed(lines[k]))
            && Total(lines) <= MAX_DATABASE_INT
  {
    if lines != [] && forall k :: 0 <= k < |lines| ==> LineAllowed(lines[k]) {
      TotalIsPositive(lines);
    }
  }

  lemma {:induction false} NormalizedContentOk(input: DraftInput)
    requires Normalize(input).Some?
    ensures ContentOk(Normalize(input).value)
  {
  }

  // ---- laws that fix the total

  /** The total of one line is its product, and lists of lines add up. */
  lemma TotalOfLine(quantity: int, unitAmount: int)
    ensures Total([Line(quantity, unitAmount)]) == quantity * unitAmount && Total([]) == 0
  {
    assert [Line(quantity, unitAmount)][..0] == [];
  }

  lemma {:induction false} TotalOfBoth(lines: seq<Line>, more: seq<Line>)
    ensures Total(lines + more) == Total(lines) + Total(more)
  {
    if more == [] {
      assert lines + more == lines;
    } else {
      var n := |more| - 1;
      TotalOfBoth(lines, more[..n]);
      assert (lines + more)[..|lines + more| - 1] == lines + more[..n];
    }
  }
}
