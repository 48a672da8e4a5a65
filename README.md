# Message parsing and validation of telegram-accounting-bot

The bot turns a chat message into a spreadsheet row. The message has a command
line (`/expense` or `/income`) followed by one field per line. This project
models the two parsers that decide whether such a message is a well-formed
record: `parse_expense_message` (seven fields: date, amounts in USD, EUR and in
another currency, expense name, manager, optional comment) and
`parse_income_message` (eleven fields: payment date, amount with currency,
purpose, client name, date of birth, phone, email, status, country, manager,
optional comment). Each parser returns the padded row or the first validation
error it meets. The model also covers the two field checks the parsers share,
`_is_valid_date_format` and `_starts_with_number`.

Layout:

- `text.dfy` (module `Text`): the Python string builtins the parsers use.
  `str.splitlines()` is modelled with all of Python's line boundaries,
  including `\r\n` as one boundary, and a final boundary that opens no new line.
  `str.strip()` is modelled with Python's whitespace set. `\d` is modelled as
  the ASCII digits.
- `primitives.dfy` (module `Primitives`): the date pattern and the number
  pattern. Both appear as identical copies in the two handler files and are
  modelled once here as the regular expressions they are, with greedy
  matching and Python's `$`.
- `validation.dfy` (module `Validation`): the error tags and the `Result` type.
  It also holds the steps both parsers share: body lines, padding, and the
  first empty required line.
- `expense_handler.dfy` and `income_handler.dfy`: each parser is written twice.
  - A reference function (`ExpenseResult`, `IncomeResult`) states the checks
    in the source's order.
  - An imperative method has the source's loops and early exits, and its
    contract is equality with the reference function. The method is split in
    two: one method splits, strips, counts and pads, and a second runs the
    field loops on the padded body.
  - Lemmas characterise the reference function: which text gives which error,
    the precedence between errors, and an independent definition of a valid
    row (`WellFormedExpense`, `WellFormedIncome`) that the parser accepts
    exactly.

Each error is a tag instead of the source's message text: `EmptyMessage`,
`NotEnoughLines`, `TooManyLines`, `RequiredEmpty(line)`, `BadDate`,
`NoAmount`, `BadAmount(line)`. Line numbers are 1-based and counted after the
command line, as in the source's messages. The parsers keep no state, so
there is no class. Determinism needs no lemma: each result is a function of
the message text.

Three details of the code that the model keeps:

- The date pattern ends in `$`, so trailing text after a valid date is
  rejected: `"24.12.2024 r"` fails (`Primitives.DateFormatExamples`).
- Python's `$` also matches just before one final `"\n"`
  (`Primitives.DateFormatTrailingNewline`). A stripped value never ends in a
  newline, so inside the parsers the check accepts exactly the shapes
  DD.MM.YY and DD.MM.YYYY (`Primitives.StrippedDateFormat`).
- A filled but malformed amount line is not reported when no amount line
  holds a number: the missing-amount check at expense_handler.py:143-150 runs
  first (`ExpenseHandler.ExpenseExampleNoAmount`).

## Model

| member | source | states |
|---|---|---|
| `ExpenseHandler.ParseExpenseMessage` | src/handlers/expense_handler.py:86-116 | the parser's result equals the reference definition `ExpenseResult` for every text |
| `ExpenseHandler.ValidateExpenseFields` | src/handlers/expense_handler.py:117-161 | the required-field loop, the date check, the any-amount loop and the malformed-amount loop together return what `CheckExpenseFields` gives, for any seven fields |
| `ExpenseHandler.ExpenseEmpty` | src/handlers/expense_handler.py:86-91 | the empty-message error is raised exactly for the empty text |
| `ExpenseHandler.ExpenseLineCount` | src/handlers/expense_handler.py:96-107 | for a non-empty text, too few lines exactly when the text has under 7 lines (6 body lines), too many exactly when it has over 8, before any field is looked at |
| `ExpenseHandler.ExpenseAccepted` | src/handlers/expense_handler.py:86-161 | a text is accepted iff it has 6-7 body lines whose stripped, padded form is a well-formed expense row; the row returned has 7 fields, field i is body line i stripped, and the comment is "" when it was omitted |
| `ExpenseHandler.FieldsAccepted` | src/handlers/expense_handler.py:117-161 | on stripped fields the checks accept exactly the rows `WellFormedExpense` describes (date shape, name, manager, at least one amount, every filled amount line starting with a digit) and return them unchanged |
| `ExpenseHandler.FieldsRequiredEmpty` | src/handlers/expense_handler.py:117-126 | the required-field error names the first empty line in the order 1, 5, 6, whatever the date and amounts hold |
| `ExpenseHandler.FieldsBadDate` | src/handlers/expense_handler.py:133-137 | the date error is raised iff lines 1, 5, 6 are filled and line 1 fails the date pattern |
| `ExpenseHandler.FieldsNoAmount` | src/handlers/expense_handler.py:139-150 | the no-amount error is raised iff the earlier checks pass and none of lines 2-4 is filled and starts with a number; it wins over malformed lines |
| `ExpenseHandler.FieldsBadAmount` | src/handlers/expense_handler.py:152-158 | the malformed-amount error for line n is raised iff the earlier checks pass, some amount is given, line n (2-4) is filled but does not start with a number, and no earlier amount line is |
| `ExpenseHandler.RequiredPosition` | src/handlers/expense_handler.py:119-126 | the required-field loop stops at line 1, 5 or 6, whichever is empty first, or runs through |
| `ExpenseHandler.AmountOnStripped` | src/handlers/expense_handler.py:143-154 | on a stripped line, holding an amount means starting with a digit, and malformed means filled without a leading digit |
| `ExpenseHandler.FieldsErrorKind` | src/handlers/expense_handler.py:117-158 | the field checks raise only required, date and amount errors |
| `ExpenseHandler.ExpenseExampleAccepted` | src/handlers/expense_handler.py:117-161 | the padded fields "24.12.2024", "319 USD", "", "", "Salary", "Kate", "" pass every field check and come back as they are |
| `ExpenseHandler.ExpenseExampleSplit` | src/handlers/expense_handler.py:86-86 | the scenario's message, typed line by line, splits back into its seven lines |
| `ExpenseHandler.ExpenseExampleStripped` | src/handlers/expense_handler.py:94-94 | stripping leaves the scenario's body lines as they are |
| `ExpenseHandler.ExpenseExampleMessage` | src/handlers/expense_handler.py:86-161 | the message "/expense", "24.12.2024", "319 USD", "", "", "Salary", "Kate", typed line by line, is accepted as the row "24.12.2024", "319 USD", "", "", "Salary", "Kate", "" |
| `ExpenseHandler.ExpenseExampleBadAmount` | src/handlers/expense_handler.py:152-158 | USD "abc" with EUR "276 EUR" gives the amount error for line 2 |
| `ExpenseHandler.ExpenseExampleNoAmount` | src/handlers/expense_handler.py:143-150 | USD "abc" with no other amount gives the no-amount error, not the malformed-line error |
| `ExpenseHandler.ExpenseExampleRequired` | src/handlers/expense_handler.py:119-126 | an empty manager line is reported as line 6 before the malformed date |
| `ExpenseHandler.ExpenseExampleBadDate` | src/handlers/expense_handler.py:133-137 | "24.12.2024 r" fails the date check |
| `IncomeHandler.ParseIncomeMessage` | src/handlers/income_handler.py:90-120 | the parser's result equals the reference definition `IncomeResult` for every text |
| `IncomeHandler.ValidateIncomeFields` | src/handlers/income_handler.py:121-148 | the loop over lines 1-10, the date check and the amount check together return what `CheckIncomeFields` gives, for any eleven fields |
| `IncomeHandler.IncomeEmpty` | src/handlers/income_handler.py:90-95 | the empty-message error is raised exactly for the empty text |
| `IncomeHandler.IncomeLineCount` | src/handlers/income_handler.py:100-111 | for a non-empty text, too few lines exactly when the text has under 11 lines (10 body lines), too many exactly when it has over 12 |
| `IncomeHandler.IncomeAccepted` | src/handlers/income_handler.py:90-148 | a text is accepted iff it has 10-11 body lines whose stripped, padded form is a well-formed income row; the row returned has 11 fields, field i is body line i stripped, and the comment is "" when it was omitted |
| `IncomeHandler.FieldsAccepted` | src/handlers/income_handler.py:121-148 | on stripped fields the checks accept exactly the rows `WellFormedIncome` describes (lines 1-10 filled, date shape, amount starting with a digit) and return them unchanged |
| `IncomeHandler.FieldsRequiredEmpty` | src/handlers/income_handler.py:121-129 | the required-field error names the lowest empty line among 1-10, whatever the date and amount hold |
| `IncomeHandler.FieldsBadDate` | src/handlers/income_handler.py:134-138 | the date error is raised iff lines 1-10 are filled and line 1 fails the date pattern |
| `IncomeHandler.FieldsBadAmount` | src/handlers/income_handler.py:140-145 | the amount error is always for line 2 and is raised iff the earlier checks pass and line 2 does not start with a number |
| `IncomeHandler.FieldsErrorKind` | src/handlers/income_handler.py:121-145 | the field checks raise only required, date and amount errors |
| `IncomeHandler.IncomeExampleAccepted` | src/handlers/income_handler.py:121-148 | eleven padded fields with "500 USD" on line 2 pass every field check and come back as they are |
| `IncomeHandler.IncomeExampleSplit` | src/handlers/income_handler.py:90-90 | the scenario's message, typed line by line, splits back into its eleven lines |
| `IncomeHandler.IncomeExampleStripped` | src/handlers/income_handler.py:98-98 | stripping leaves the scenario's body lines as they are |
| `IncomeHandler.IncomeExampleMessage` | src/handlers/income_handler.py:90-148 | a minimal message with ten body lines, typed line by line, is accepted as those ten lines followed by an empty comment |
| `IncomeHandler.IncomeExampleBadAmount` | src/handlers/income_handler.py:140-145 | "USD 500" gives the amount error for line 2 |
| `IncomeHandler.IncomeExampleRequired` | src/handlers/income_handler.py:121-129 | an empty email line is reported as line 7, before the malformed amount |
| `Validation.BodyLinesAreStrippedLines` | src/handlers/expense_handler.py:86-94 | body line i is line i + 1 of the text, stripped; there is one body line fewer than text lines |
| `Validation.Padded` | src/handlers/expense_handler.py:109-112 | padding gives exactly the record's width, keeps the body as a prefix and fills the missing last field with "" |
| `Validation.PaddedStripped` | src/handlers/income_handler.py:98-116 | every field of the padded body is already stripped |
| `Validation.FirstEmptyPos` | src/handlers/expense_handler.py:119-126 | the position where the loop over the required indices stops: all earlier indices are filled, and the one it stops at is empty |
| `Validation.FirstEmptyFrom` | src/handlers/income_handler.py:122-129 | the line where the loop over a range stops: all earlier lines are filled, and the one it stops at is empty |
| `Primitives.DateFormatIsShape` | src/handlers/expense_handler.py:164-170 | on a value not ending in a newline, the date pattern accepts exactly DD.MM.YY and DD.MM.YYYY, the whole value (anchored at both ends) |
| `Primitives.DateFormatTrailingNewline` | src/handlers/income_handler.py:151-157 | the pattern's `$` accepts a date followed by one "\n", and only then |
| `Primitives.StrippedDateFormat` | src/handlers/expense_handler.py:164-170 | on a stripped value the date check is exactly the shape check |
| `Primitives.StrippedHasNoFinalNewline` | src/handlers/expense_handler.py:94-94 | a stripped value never ends in a newline |
| `Primitives.DateFormatExamples` | src/handlers/income_handler.py:151-157 | "24.12.2024", "24.12.24" and "99.99.99" pass (no calendar check); "2024-12-24", "24.12.2024 r", "24.12.202" and "" fail |
| `Primitives.MatchNumberIff` | src/handlers/expense_handler.py:182-184 | the number pattern matches iff the value starts with a digit: the optional decimal part never decides |
| `Primitives.MatchNumberSpan` | src/handlers/expense_handler.py:182-184 | a match is a non-empty prefix of digits and separators that starts with a digit |
| `Primitives.DigitRunMaximal` | src/handlers/expense_handler.py:182-184 | the greedy digit run is maximal: digits up to its end and none right after |
| `Primitives.MatchNumberExamples` | src/handlers/income_handler.py:169-171 | "12,5 EUR" matches 4 characters, "12." matches 2, "500.00 USD" matches 6, ".5" does not match |
| `Primitives.StartsWithNumberIff` | src/handlers/expense_handler.py:173-184 | the check holds iff the stripped value is non-empty and starts with a digit |
| `Primitives.StartsWithNumberOnStripped` | src/handlers/income_handler.py:160-171 | on a stripped value the check looks only at its first character |
| `Primitives.StartsWithNumberAcceptsExamples` | src/handlers/expense_handler.py:173-184 | "500 USD", "12,5 EUR" and "12." start with a number |
| `Primitives.StartsWithNumberRejectsExamples` | src/handlers/income_handler.py:160-171 | "USD 500", ".5" and "" do not |
| `Text.StripSlice` | src/handlers/expense_handler.py:94-94 | strip returns a slice of its input with only whitespace cut on either side, neither end of it is whitespace, and it is empty iff the input is all whitespace |
| `Text.StripIdempotent` | src/handlers/income_handler.py:98-98 | stripping twice is stripping once |
| `Text.StripUnchanged` | src/handlers/expense_handler.py:178-178 | a value without whitespace at its ends is left unchanged |
| `Text.SplitLinesFacts` | src/handlers/expense_handler.py:86-88 | only the empty text has no lines, and no line holds a line boundary |
| `Text.SplitJoinLines` | src/handlers/income_handler.py:90-90 | splitting a text typed line by line gives back its lines |

## Left out

- The async chat handlers `handle_expense` and `handle_income`, and the
  `register_*` functions. Their jobs are receiving the message, answering the
  user and appending a row through the Google Sheets client. That is I/O with
  the chat service and the spreadsheet, outside this model.
- `google_sheets_client.py`, `config.py`, `bot.py`, `service_commands.py`,
  `excel_handler.py` and `handlers/__init__.py` are not part of this model:
  they are transport, credentials, configuration and bootstrap.
- The wording of the error messages: each `raise` is a tag of `ParseError`,
  with the line number the message names.
- `\d` matches any Unicode decimal digit in Python. The model accepts only
  the ASCII digits 0-9, so values with other scripts' digits are outside it.
- The source's `assert line_count == 7` (and `== 11`) is not a separate check:
  after the count checks and the padding it always holds, and the model's
  padding makes the width exact.
