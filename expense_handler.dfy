/** `parse_expense_message` (src/handlers/expense_handler.py): the text of an
    /expense message becomes the seven fields of an expense row
    (date, amount in USD, amount in EUR, amount in another currency, expense
    name, manager, comment) or the first validation error. */
module ExpenseHandler {
  import opened Text
  import opened Primitives
  import opened Validation

  /** Lines 1, 5 and 6 (date, expense name, manager), as zero-based indices in
      the order the source checks them. */
  const RequiredIndices: seq<nat> := [0, 4, 5]

  /** An amount line that holds an amount: it is filled and starts with a
      number. */
  predicate AmountGiven(line: string) {
    line != "" && StartsWithNumber(line)
  }

  /** An amount line that is filled but does not start with a number. */
  predicate AmountMalformed(line: string) {
    line != "" && !StartsWithNumber(line)
  }

  /** Reference definition of `parse_expense_message`: the checks in the
      source's order, the first failing one deciding the error. */
  function ExpenseResult(fullText: string): Result<seq<string>> {
    var body := BodyLines(fullText);
    if SplitLines(fullText) == [] then Err(EmptyMessage)
    else if |body| < 6 then Err(NotEnoughLines)
    else if |body| > 7 then Err(TooManyLines)
    else CheckExpenseFields(Padded(body, 7))
  }

  /** The checks on the seven padded fields, in the source's order: the
      required lines 1, 5 and 6, the date on line 1, then the amounts on lines
      2-4 (at least one given, then the first malformed one). */
  function CheckExpenseFields(fields: seq<string>): Result<seq<string>>
    requires |fields| == 7
  {
    var p := FirstEmptyPos(fields, RequiredIndices);
    if p < |RequiredIndices| then Err(RequiredEmpty(RequiredIndices[p] + 1))
    else if !IsValidDateFormat(fields[0]) then Err(BadDate)
    else if !(AmountGiven(fields[1]) || AmountGiven(fields[2]) || AmountGiven(fields[3])) then Err(NoAmount)
    else if AmountMalformed(fields[1]) then Err(BadAmount(2))
    else if AmountMalformed(fields[2]) then Err(BadAmount(3))
    else if AmountMalformed(fields[3]) then Err(BadAmount(4))
    else Ok(fields)
  }

  /** `parse_expense_message(full_text)`: split and strip the text, check the
      line count and pad the comment, then validate the seven fields. */
  method ParseExpenseMessage(fullText: string) returns (r: Result<seq<string>>)
    ensures r == ExpenseResult(fullText)
  {
    var lines := SplitLines(fullText);
    if |lines| == 0 {
      return Err(EmptyMessage);
    }
    var bodyLines := StripAll(lines[1..]);
    var lineCount := |bodyLines|;
    if lineCount < 6 {
      return Err(NotEnoughLines);
    }
    if lineCount > 7 {
      return Err(TooManyLines);
    }
    if lineCount == 6 {
      bodyLines := bodyLines + [""];
      lineCount := 7;
    }
    assert bodyLines == Padded(BodyLines(fullText), 7);
    r := ValidateExpenseFields(bodyLines);
  }

  /** The field checks of `parse_expense_message`, from the required-field
      loop to the end, on the seven padded body lines. */
  method ValidateExpenseFields(bodyLines: seq<string>) returns (r: Result<seq<string>>)
    requires |bodyLines| == 7
    ensures r == CheckExpenseFields(bodyLines)
  {
    // Required fields: line 1 (date), line 5 (expense name), line 6 (manager).
    var requiredIndices := RequiredIndices;
    var k := 0;
    while k < |requiredIndices|
      invariant 0 <= k <= |requiredIndices|
      invariant forall j :: 0 <= j < k ==> bodyLines[requiredIndices[j]] != ""
    {
      var i := requiredIndices[k];
      if bodyLines[i] == "" {
        assert FirstEmptyPos(bodyLines, requiredIndices) == k;
        return Err(RequiredEmpty(i + 1));
      }
      k := k + 1;
    }
    assert FirstEmptyPos(bodyLines, requiredIndices) == |requiredIndices|;

    if !IsValidDateFormat(bodyLines[0]) {
      return Err(BadDate);
    }

    // Lines 2-4: at least one amount, and no malformed one.
    var amountLines := [bodyLines[1], bodyLines[2], bodyLines[3]];
    var hasAnyAmount := false;
    var n := 0;
    while n < |amountLines| && !hasAnyAmount
      invariant 0 <= n <= |amountLines|
      invariant hasAnyAmount <==> exists j :: 0 <= j < n && AmountGiven(amountLines[j])
    {
      hasAnyAmount := amountLines[n] != "" && StartsWithNumber(amountLines[n]);
      n := n + 1;
    }
    if !hasAnyAmount {
      assert !AmountGiven(amountLines[0]) && !AmountGiven(amountLines[1]) && !AmountGiven(amountLines[2]);
      return Err(NoAmount);
    }

    var index := 0;
    while index < |amountLines|
      invariant 0 <= index <= |amountLines|
      invariant forall j :: 0 <= j < index ==> !AmountMalformed(amountLines[j])
    {
      var value := amountLines[index];
      if value != "" && !StartsWithNumber(value) {
        assert index > 0 ==> !AmountMalformed(amountLines[0]);
        assert index > 1 ==> !AmountMalformed(amountLines[1]);
        return Err(BadAmount(index + 2));
      }
      index := index + 1;
    }
    assert !AmountMalformed(amountLines[0]) && !AmountMalformed(amountLines[1]);
    assert !AmountMalformed(amountLines[2]);
    return Ok(bodyLines);
  }

  // ---------------------------------------------------------------------
  // Properties of the reference definition

  /** The required lines 1, 5 and 6 are all filled. */
  predicate RequiredFilled(fields: seq<string>)
    requires |fields| == 7
  {
    fields[0] != "" && fields[4] != "" && fields[5] != ""
  }

  /** Where the required-field loop stops, written out for lines 1, 5, 6. */
  lemma RequiredPosition(fields: seq<string>)
    requires |fields| == 7
    ensures FirstEmptyPos(fields, RequiredIndices) ==
              if fields[0] == "" then 0 else if fields[4] == "" then 1 else if fields[5] == "" then 2 else 3
  {
    var rest: seq<nat> := [4, 5];
    var last: seq<nat> := [5];
    assert RequiredIndices[1..] == rest && rest[1..] == last && last[1..] == [];
    if fields[0] != "" {
      assert FirstEmptyPos(fields, RequiredIndices) == 1 + FirstEmptyPos(fields, rest);
      if fields[4] != "" {
        assert FirstEmptyPos(fields, rest) == 1 + FirstEmptyPos(fields, last);
        if fields[5] != "" {
          assert FirstEmptyPos(fields, last) == 1 + FirstEmptyPos(fields, []);
        }
      }
    }
  }

  /** The required-field error names the first empty line in the order 1, 5,
      6, and it comes before any check of the date or the amounts. */
  lemma FieldsRequiredEmpty(fields: seq<string>, line: nat)
    requires |fields| == 7
    ensures CheckExpenseFields(fields) == Err(RequiredEmpty(line)) <==>
              || (line == 1 && fields[0] == "")
              || (line == 5 && fields[0] != "" && fields[4] == "")
              || (line == 6 && fields[0] != "" && fields[4] != "" && fields[5] == "")
  {
    RequiredPosition(fields);
  }

  /** The date error: the required lines are filled and line 1 is not a
      date. */
  lemma FieldsBadDate(fields: seq<string>)
    requires |fields| == 7
    ensures CheckExpenseFields(fields) == Err(BadDate) <==>
              RequiredFilled(fields) && !IsValidDateFormat(fields[0])
  {
    RequiredPosition(fields);
  }

  /** The missing-amount error: everything before it passed and none of lines
      2-4 holds an amount. It wins over malformed amount lines. */
  lemma FieldsNoAmount(fields: seq<string>)
    requires |fields| == 7
    ensures CheckExpenseFields(fields) == Err(NoAmount) <==>
              && RequiredFilled(fields) && IsValidDateFormat(fields[0])
              && forall k :: 1 <= k <= 3 ==> !AmountGiven(fields[k])
  {
    RequiredPosition(fields);
  }

  /** The malformed-amount error names the first filled line among 2-4 that
      does not start with a number, once at least one of them holds an
      amount. */
  lemma FieldsBadAmount(fields: seq<string>, line: nat)
    requires |fields| == 7
    ensures CheckExpenseFields(fields) == Err(BadAmount(line)) <==>
              && RequiredFilled(fields) && IsValidDateFormat(fields[0])
              && (AmountGiven(fields[1]) || AmountGiven(fields[2]) || AmountGiven(fields[3]))
              && 2 <= line <= 4 && AmountMalformed(fields[line - 1])
              && forall k :: 1 <= k < line - 1 ==> !AmountMalformed(fields[k])
  {
    RequiredPosition(fields);
  }

  /** An independent statement of what a valid expense row is: a date of the
      shape DD.MM.YY or DD.MM.YYYY, an expense name and a manager, at least
      one amount line, and every filled amount line starting with a digit. */
  predicate WellFormedExpense(fields: seq<string>)
    requires |fields| == 7
  {
    && DateShape(fields[0])
    && fields[4] != "" && fields[5] != ""
    && (LeadingDigit(fields[1]) || LeadingDigit(fields[2]) || LeadingDigit(fields[3]))
    && forall k :: 1 <= k <= 3 ==> fields[k] == "" || LeadingDigit(fields[k])
  }

  /** On a stripped amount line the number check looks at the first
      character only. */
  lemma AmountOnStripped(line: string)
    requires Strip(line) == line
    ensures AmountGiven(line) <==> LeadingDigit(line)
    ensures AmountMalformed(line) <==> line != "" && !LeadingDigit(line)
  {
    StartsWithNumberOnStripped(line);
  }

  /** On stripped fields, the checks accept exactly the well-formed rows, and
      an accepted row is returned unchanged. */
  lemma FieldsAccepted(fields: seq<string>)
    requires |fields| == 7 && AllStripped(fields)
    ensures CheckExpenseFields(fields).Ok? <==> WellFormedExpense(fields)
    ensures CheckExpenseFields(fields).Ok? ==> CheckExpenseFields(fields).value == fields
  {
    RequiredPosition(fields);
    StrippedHasNoFinalNewline(fields[0]);
    DateFormatIsShape(fields[0]);
    AmountOnStripped(fields[1]);
    AmountOnStripped(fields[2]);
    AmountOnStripped(fields[3]);
  }

  // ---------------------------------------------------------------------
  // Properties of the whole parser, on the message text

  /** The field checks only raise field errors. */
  lemma FieldsErrorKind(fields: seq<string>)
    requires |fields| == 7
    ensures CheckExpenseFields(fields).Err? ==> IsFieldError(CheckExpenseFields(fields).error)
  {
  }

  /** Only the empty text is an empty message. */
  lemma ExpenseEmpty(fullText: string)
    ensures ExpenseResult(fullText) == Err(EmptyMessage) <==> fullText == []
  {
    SplitLinesFacts(fullText);
    var body := BodyLines(fullText);
    if 6 <= |body| <= 7 {
      FieldsErrorKind(Padded(body, 7));
    }
  }

  /** The line count is checked before any field: fewer than six body lines
      (seven lines with the command) is too few, more than seven too many. */
  lemma ExpenseLineCount(fullText: string)
    requires fullText != []
    ensures ExpenseResult(fullText) == Err(NotEnoughLines) <==> |SplitLines(fullText)| < 7
    ensures ExpenseResult(fullText) == Err(TooManyLines) <==> |SplitLines(fullText)| > 8
  {
    SplitLinesFacts(fullText);
    BodyLinesAreStrippedLines(fullText);
    var body := BodyLines(fullText);
    if 6 <= |body| <= 7 {
      FieldsErrorKind(Padded(body, 7));
    }
  }

  /** A message is accepted exactly when it has six or seven body lines and
      those, stripped and padded, form a well-formed row. The row returned
      holds the stripped body lines in order, with an empty comment when the
      seventh line is missing. */
  lemma ExpenseAccepted(fullText: string)
    ensures ExpenseResult(fullText).Ok? <==>
              && fullText != [] && 7 <= |SplitLines(fullText)| <= 8
              && WellFormedExpense(Padded(BodyLines(fullText), 7))
    ensures ExpenseResult(fullText).Ok? ==>
              var fields := ExpenseResult(fullText).value;
              && |fields| == 7
              && (forall i :: 0 <= i < |SplitLines(fullText)| - 1 ==>
                    fields[i] == Strip(SplitLines(fullText)[i + 1]))
              && (|SplitLines(fullText)| == 7 ==> fields[6] == "")
  {
    SplitLinesFacts(fullText);
    BodyLinesAreStrippedLines(fullText);
    var body := BodyLines(fullText);
    if fullText != [] && 6 <= |body| <= 7 {
      var fields := Padded(body, 7);
      PaddedStripped(fullText, 7);
      FieldsAccepted(fields);
      assert forall i :: 0 <= i < |body| ==> fields[i] == fields[..|body|][i];
    }
  }

  // ---------------------------------------------------------------------
  // Worked examples

  /** Six lines with one amount: accepted, the comment padded with "". */
  lemma ExpenseExampleAccepted()
    ensures CheckExpenseFields(["24.12.2024", "319 USD", "", "", "Salary", "Kate", ""])
         == Ok(["24.12.2024", "319 USD", "", "", "Salary", "Kate", ""])
  {
  }

  /** A malformed USD line is reported even when the EUR line holds an
      amount. */
  lemma ExpenseExampleBadAmount()
    ensures CheckExpenseFields(["24.12.2024", "abc", "276 EUR", "", "Salary", "Kate", ""])
         == Err(BadAmount(2))
  {
  }

  /** With no amount at all the missing amount is reported, not the malformed
      line. */
  lemma ExpenseExampleNoAmount()
    ensures CheckExpenseFields(["24.12.2024", "abc", "", "", "Salary", "Kate", ""])
         == Err(NoAmount)
  {
  }

  /** An empty manager line is reported before the malformed date. */
  lemma ExpenseExampleRequired()
    ensures CheckExpenseFields(["2024-12-24", "319 USD", "", "", "Salary", "", ""])
         == Err(RequiredEmpty(6))
  {
  }

  /** The date must match the whole line. */
  lemma ExpenseExampleBadDate()
    ensures CheckExpenseFields(["24.12.2024 r", "319 USD", "", "", "Salary", "Kate", ""])
         == Err(BadDate)
  {
  }

  /** The lines of the six-line scenario, typed as a message: none holds a
      line boundary, so splitting the text gives them back. */
  lemma ExpenseExampleSplit(lines: seq<string>)
    requires lines == ["/expense", "24.12.2024", "319 USD", "", "", "Salary", "Kate"]
    ensures SplitLines(JoinLines(lines)) == lines
  {
    assert forall i :: 0 <= i < |lines| ==> NoLineBreak(lines[i]);
    SplitJoinLines(lines);
  }

  /** The scenario's body lines have no surrounding whitespace. */
  lemma ExpenseExampleStripped(lines: seq<string>)
    requires lines == ["/expense", "24.12.2024", "319 USD", "", "", "Salary", "Kate"]
    ensures StripAll(lines[1..]) == lines[1..]
  {
    StripUnchanged(lines[1]);
    StripUnchanged(lines[2]);
    StripUnchanged(lines[5]);
    StripUnchanged(lines[6]);
  }

  /** The six-line scenario from the message text: the six body lines are
      accepted, the comment padded with "". */
  lemma ExpenseExampleMessage(lines: seq<string>)
    requires lines == ["/expense", "24.12.2024", "319 USD", "", "", "Salary", "Kate"]
    ensures ExpenseResult(JoinLines(lines)) == Ok(["24.12.2024", "319 USD", "", "", "Salary", "Kate", ""])
  {
    ExpenseExampleSplit(lines);
    ExpenseExampleStripped(lines);
    assert BodyLines(JoinLines(lines)) == lines[1..];
    assert Padded(lines[1..], 7) == ["24.12.2024", "319 USD", "", "", "Salary", "Kate", ""];
    ExpenseExampleAccepted();
  }
}

