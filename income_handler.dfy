/** `parse_income_message` (src/handlers/income_handler.py): the text of an
    /income message becomes the eleven fields of an income row (payment date,
    amount with currency, purpose, client name, client date of birth, phone,
    email, client status, country, manager, comment) or the first validation
    error. */
module IncomeHandler {
  import opened Text
  import opened Primitives
  import opened Validation

  /** Reference definition of `parse_income_message`: the checks in the
      source's order, the first failing one deciding the error. */
  function IncomeResult(fullText: string): Result<seq<string>> {
    var body := BodyLines(fullText);
    if SplitLines(fullText) == [] then Err(EmptyMessage)
    else if |body| < 10 then Err(NotEnoughLines)
    else if |body| > 11 then Err(TooManyLines)
    else CheckIncomeFields(Padded(body, 11))
  }

  /** The checks on the eleven padded fields, in the source's order: lines
      1-10 are required, line 1 is a date and line 2 starts with a number.
      The other lines have no format. */
  function CheckIncomeFields(fields: seq<string>): Result<seq<string>>
    requires |fields| == 11
  {
    var p := FirstEmptyFrom(fields, 0, 10);
    if p < 10 then Err(RequiredEmpty(p + 1))
    else if !IsValidDateFormat(fields[0]) then Err(BadDate)
    else if !StartsWithNumber(fields[1]) then Err(BadAmount(2))
    else Ok(fields)
  }

  /** `parse_income_message(full_text)`: split and strip the text, check the
      line count and pad the comment, then validate the eleven fields. */
  method ParseIncomeMessage(fullText: string) returns (r: Result<seq<string>>)
    ensures r == IncomeResult(fullText)
  {
    var lines := SplitLines(fullText);
    if |lines| == 0 {
      return Err(EmptyMessage);
    }
    var bodyLines := StripAll(lines[1..]);
    var lineCount := |bodyLines|;
    if lineCount < 10 {
      return Err(NotEnoughLines);
    }
    if lineCount > 11 {
      return Err(TooManyLines);
    }
    if lineCount == 10 {
      bodyLines := bodyLines + [""];
      lineCount := 11;
    }
    assert bodyLines == Padded(BodyLines(fullText), 11);
    r := ValidateIncomeFields(bodyLines);
  }

  /** The field checks of `parse_income_message`, from the required-field
      loop to the end, on the eleven padded body lines. */
  method ValidateIncomeFields(bodyLines: seq<string>) returns (r: Result<seq<string>>)
    requires |bodyLines| == 11
    ensures r == CheckIncomeFields(bodyLines)
  {
    // Required fields: lines 1-10.
    for i := 0 to 10
      invariant forall j :: 0 <= j < i ==> bodyLines[j] != ""
    {
      if bodyLines[i] == "" {
        return Err(RequiredEmpty(i + 1));
      }
    }
    if !IsValidDateFormat(bodyLines[0]) {
      return Err(BadDate);
    }
    if !StartsWithNumber(bodyLines[1]) {
      return Err(BadAmount(2));
    }
    return Ok(bodyLines);
  }

  // ---------------------------------------------------------------------
  // Properties of the reference definition

  /** Lines 1-10 are all filled. */
  predicate RequiredFilled(fields: seq<string>)
    requires |fields| == 11
  {
    forall j :: 0 <= j < 10 ==> fields[j] != ""
  }

  /** The required-field error names the lowest empty line among 1-10, and
      it comes before the date and amount checks. */
  lemma FieldsRequiredEmpty(fields: seq<string>, line: nat)
    requires |fields| == 11
    ensures CheckIncomeFields(fields) == Err(RequiredEmpty(line)) <==>
              && 1 <= line <= 10 && fields[line - 1] == ""
              && forall j :: 0 <= j < line - 1 ==> fields[j] != ""
  {
  }

  /** The date error: lines 1-10 are filled and line 1 is not a date. */
  lemma FieldsBadDate(fields: seq<string>)
    requires |fields| == 11
    ensures CheckIncomeFields(fields) == Err(BadDate) <==>
              RequiredFilled(fields) && !IsValidDateFormat(fields[0])
  {
  }

  /** The amount error is always for line 2, and comes last. */
  lemma FieldsBadAmount(fields: seq<string>, line: nat)
    requires |fields| == 11
    ensures CheckIncomeFields(fields) == Err(BadAmount(line)) <==>
              && line == 2 && RequiredFilled(fields) && IsValidDateFormat(fields[0])
              && !StartsWithNumber(fields[1])
  {
  }

  /** An independent statement of what a valid income row is: lines 1-10
      filled, a date of the shape DD.MM.YY or DD.MM.YYYY, and an amount that
      starts with a digit. */
  predicate WellFormedIncome(fields: seq<string>)
    requires |fields| == 11
  {
    && DateShape(fields[0])
    && LeadingDigit(fields[1])
    && forall j :: 2 <= j < 10 ==> fields[j] != ""
  }

  /** On stripped fields, the checks accept exactly the well-formed rows, and
      an accepted row is returned unchanged. */
  lemma FieldsAccepted(fields: seq<string>)
    requires |fields| == 11 && AllStripped(fields)
    ensures CheckIncomeFields(fields).Ok? <==> WellFormedIncome(fields)
    ensures CheckIncomeFields(fields).Ok? ==> CheckIncomeFields(fields).value == fields
  {
    StrippedHasNoFinalNewline(fields[0]);
    DateFormatIsShape(fields[0]);
    StartsWithNumberOnStripped(fields[1]);
  }

  /** The field checks only raise field errors. */
  lemma FieldsErrorKind(fields: seq<string>)
    requires |fields| == 11
    ensures CheckIncomeFields(fields).Err? ==> IsFieldError(CheckIncomeFields(fields).error)
  {
  }

  // ---------------------------------------------------------------------
  // Properties of the whole parser, on the message text

  /** Only the empty text is an empty message. */
  lemma IncomeEmpty(fullText: string)
    ensures IncomeResult(fullText) == Err(EmptyMessage) <==> fullText == []
  {
    SplitLinesFacts(fullText);
    var body := BodyLines(fullText);
    if 10 <= |body| <= 11 {
      FieldsErrorKind(Padded(body, 11));
    }
  }

  /** The line count is checked before any field: fewer than ten body lines
      (eleven lines with the command) is too few, more than eleven too
      many. */
  lemma IncomeLineCount(fullText: string)
    requires fullText != []
    ensures IncomeResult(fullText) == Err(NotEnoughLines) <==> |SplitLines(fullText)| < 11
    ensures IncomeResult(fullText) == Err(TooManyLines) <==> |SplitLines(fullText)| > 12
  {
    SplitLinesFacts(fullText);
    BodyLinesAreStrippedLines(fullText);
    var body := BodyLines(fullText);
    if 10 <= |body| <= 11 {
      FieldsErrorKind(Padded(body, 11));
    }
  }

  /** A message is accepted exactly when it has ten or eleven body lines and
      those, stripped and padded, form a well-formed row. The row returned
      holds the stripped body lines in order, with an empty comment when the
      eleventh line is missing. */
  lemma IncomeAccepted(fullText: string)
    ensures IncomeResult(fullText).Ok? <==>
              && fullText != [] && 11 <= |SplitLines(fullText)| <= 12
              && WellFormedIncome(Padded(BodyLines(fullText), 11))
    ensures IncomeResult(fullText).Ok? ==>
              var fields := IncomeResult(fullText).value;
              && |fields| == 11
              && (forall i :: 0 <= i < |SplitLines(fullText)| - 1 ==>
                    fields[i] == Strip(SplitLines(fullText)[i + 1]))
              && (|SplitLines(fullText)| == 11 ==> fields[10] == "")
  {
    SplitLinesFacts(fullText);
    BodyLinesAreStrippedLines(fullText);
    var body := BodyLines(fullText);
    if fullText != [] && 10 <= |body| <= 11 {
      var fields := Padded(body, 11);
      PaddedStripped(fullText, 11);
      FieldsAccepted(fields);
      assert forall i :: 0 <= i < |body| ==> fields[i] == fields[..|body|][i];
    }
  }

  // ---------------------------------------------------------------------
  // Worked examples

  /** Ten lines with the amount first: accepted, the comment padded. */
  lemma IncomeExampleAccepted()
    ensures CheckIncomeFields(["24.12.2024", "500 USD", "Consulting", "John Smith", "01.01.1990",
                               "+1 555 0100", "john@example.com", "new", "USA", "Kate", ""])
         == Ok(["24.12.2024", "500 USD", "Consulting", "John Smith", "01.01.1990",
                "+1 555 0100", "john@example.com", "new", "USA", "Kate", ""])
  {
  }

  /** The currency before the amount is rejected. */
  lemma IncomeExampleBadAmount()
    ensures CheckIncomeFields(["24.12.2024", "USD 500", "Consulting", "John Smith", "01.01.1990",
                               "+1 555 0100", "john@example.com", "new", "USA", "Kate", ""])
         == Err(BadAmount(2))
  {
  }

  /** An empty email line is reported as line 7, before the amount. */
  lemma IncomeExampleRequired()
    ensures CheckIncomeFields(["24.12.2024", "USD 500", "Consulting", "John Smith", "01.01.1990",
                               "+1 555 0100", "", "new", "USA", "Kate", ""])
         == Err(RequiredEmpty(7))
  {
  }

  /** The lines of the ten-line scenario, typed as a message: none holds a
      line boundary, so splitting the text gives them back. */
  lemma IncomeExampleSplit(lines: seq<string>)
    requires lines == ["/income", "24.12.2024", "500 USD", "Consulting", "John Smith", "01.01.1990",
                      "+1 555 0100", "john@example.com", "new", "USA", "Kate"]
    ensures SplitLines(JoinLines(lines)) == lines
  {
    assert forall i :: 0 <= i < |lines| ==> NoLineBreak(lines[i]);
    SplitJoinLines(lines);
  }

  /** The scenario's body lines have no surrounding whitespace. */
  lemma IncomeExampleStripped(lines: seq<string>)
    requires lines == ["/income", "24.12.2024", "500 USD", "Consulting", "John Smith", "01.01.1990",
                      "+1 555 0100", "john@example.com", "new", "USA", "Kate"]
    ensures StripAll(lines[1..]) == lines[1..]
  {
    StripUnchanged(lines[1]);
    StripUnchanged(lines[2]);
    StripUnchanged(lines[3]);
    StripUnchanged(lines[4]);
    StripUnchanged(lines[5]);
    StripUnchanged(lines[6]);
    StripUnchanged(lines[7]);
    StripUnchanged(lines[8]);
    StripUnchanged(lines[9]);
    StripUnchanged(lines[10]);
  }

  /** The ten-line scenario from the message text: accepted, padded to eleven
      fields with an empty comment. */
  lemma IncomeExampleMessage(lines: seq<string>)
    requires lines == ["/income", "24.12.2024", "500 USD", "Consulting", "John Smith", "01.01.1990",
                      "+1 555 0100", "john@example.com", "new", "USA", "Kate"]
    ensures IncomeResult(JoinLines(lines)) == Ok(lines[1..] + [""])
  {
    IncomeExampleSplit(lines);
    IncomeExampleStripped(lines);
    assert BodyLines(JoinLines(lines)) == lines[1..];
    assert Padded(lines[1..], 11) == lines[1..] + [""];
    IncomeExampleAccepted();
  }
}

