/** What the two command parsers have in common: the validation errors they
    raise (ExpenseValidationError / IncomeValidationError in the source, here
    tags of one datatype), the result they return, and the first steps both
    take on the raw text. */
module Validation {
  import opened Text

  /** One tag per distinct `raise` in the parsers. Line numbers are 1-based,
      counted from the first line after the command line. A bad date is
      always reported for line 1. */
  datatype ParseError =
    | EmptyMessage            // the text has no lines at all
    | NotEnoughLines          // fewer body lines than the record needs
    | TooManyLines            // more than one optional trailing line
    | RequiredEmpty(line: nat)
    | BadDate                 // line 1 is not DD.MM.YY or DD.MM.YYYY
    | NoAmount                // expense only: none of lines 2-4 holds an amount
    | BadAmount(line: nat)

  datatype Result<T> = Ok(value: T) | Err(error: ParseError)

  /** The errors raised by the checks on the fields, after the line count. */
  predicate IsFieldError(e: ParseError) {
    e.RequiredEmpty? || e.BadDate? || e.NoAmount? || e.BadAmount?
  }

  /** The body lines: every line of the text after the first (the command
      line), stripped. */
  function BodyLines(fullText: string): seq<string> {
    var lines := SplitLines(fullText);
    if lines == [] then [] else StripAll(lines[1..])
  }

  /** Body line `i` is line `i + 1` of the text, stripped: the command line is
      dropped and nothing else is. */
  lemma BodyLinesAreStrippedLines(fullText: string)
    ensures |BodyLines(fullText)| == if fullText == [] then 0 else |SplitLines(fullText)| - 1
    ensures forall i :: 0 <= i < |BodyLines(fullText)| ==>
              BodyLines(fullText)[i] == Strip(SplitLines(fullText)[i + 1])
  {
    SplitLinesFacts(fullText);
  }

  /** Every field is its own `strip()`. */
  predicate AllStripped(fields: seq<string>) {
    forall i :: 0 <= i < |fields| ==> Strip(fields[i]) == fields[i]
  }

  /** A body one line short of the record's width gets an empty last line:
      the optional last field becomes the empty string. */
  function Padded(body: seq<string>, width: nat): (fields: seq<string>)
    requires width - 1 <= |body| <= width
    ensures |fields| == width
    ensures fields[..|body|] == body
    ensures |body| < width ==> fields[width - 1] == ""
  {
    if |body| == width - 1 then body + [""] else body
  }

  /** The body lines, and so the padded fields, are already stripped. */
  lemma {:induction false} PaddedStripped(fullText: string, width: nat)
    requires width - 1 <= |BodyLines(fullText)| <= width
    ensures AllStripped(Padded(BodyLines(fullText), width))
  {
    var body := BodyLines(fullText);
    var fields := Padded(body, width);
    forall i | 0 <= i < |fields|
      ensures Strip(fields[i]) == fields[i]
    {
      if i < |body| {
        assert fields[i] == fields[..|body|][i];
        BodyLinesAreStrippedLines(fullText);
        StripIdempotent(SplitLines(fullText)[i + 1]);
      } else {
        StripUnchanged(fields[i]);
      }
    }
  }

  /** Position in `indices` of the first index whose field is empty, or
      `|indices|` when all of them are filled: the required-field loop, which
      stops at the first empty line. */
  function FirstEmptyPos(fields: seq<string>, indices: seq<nat>): (p: nat)
    requires forall j :: 0 <= j < |indices| ==> indices[j] < |fields|
    ensures p <= |indices|
    ensures forall j :: 0 <= j < p ==> fields[indices[j]] != ""
    ensures p < |indices| ==> fields[indices[p]] == ""
  {
    if indices == [] then 0
    else if fields[indices[0]] == "" then 0
    else 1 + FirstEmptyPos(fields, indices[1..])
  }

  /** The first of the lines `i` .. `n - 1` that is empty, or `n` when all of
      them are filled: the required-field loop over a range of lines. */
  function FirstEmptyFrom(fields: seq<string>, i: nat, n: nat): (p: nat)
    requires i <= n <= |fields|
    ensures i <= p <= n
    ensures forall j :: i <= j < p ==> fields[j] != ""
    ensures p < n ==> fields[p] == ""
    decreases n - i
  {
    if i == n then n
    else if fields[i] == "" then i
    else FirstEmptyFrom(fields, i + 1, n)
  }
}

