# QIF record assembly, modelled in Dafny

This project models the core of a small Rust reader for QIF (Quicken Interchange
Format) files, and proves properties of that model.

**The line reader (`src/parser.rs`).**
- `parse_with_format` cuts the text at every `\n`.
- A line starting with `!Type` sets the file type to the text from its seventh character on.
- A line starting with `^` closes the record being read: it is pushed and an empty record (`empty_item`) takes its place.
- Every line then goes through `parse_line`, which dispatches on the line's first character:
  - `T` or `U` sets the amount: the rest of the line, trimmed and read as a number, or 0 when it does not read as one.
  - `P` sets the payee to the rest of the line.
  - `L` sets the category to the rest of the line.
  - `D` sets the date through `parse_date`.
- The record still open after the last line is dropped.
- `parse` is `parse_with_format` with the day/month/year format.

**The transaction builder (`src/transaction.rs`).**
- `QifTransaction` has a derived builder: one setter per field, and a `build` that fails unless `date`, `amount` and `payee` were set.
- Every other field defaults to empty.
- The tests drive the builder in two ways:
  - `test_builder` sets every field and builds.
  - `test_parsing_builder` runs a `^`-delimited loop over the lines of a three-record bank file. Each `^` line pushes `build().unwrap()` and resets the builder. A `T` line sets the amount to `parse_number(line).unwrap()` and a `D` line sets the date to `parse_date(rest, format).unwrap()`, where `rest` is the line after its first character. A `P` line sets the payee to the rest of the line verbatim.

**Layout.**
- `wrappers.dfy`: Option and Result.
- `text.dfy`: the Rust string operations the reader uses: `starts_with`, `split`, `lines` and `trim`.
- `tags.dfy`: the kinds of line, each told by its first character.
- `records.dfy`: how lines group into records between `^` lines, and "the last line with a given tag".
- `sample.dfy`: the tests' bank file.
- `parser.dfy`: `src/parser.rs`.
- `transaction.dfy`: `src/transaction.rs`.

The loops are methods proved against specification functions:
- `ParseWithFormat` against `Parsed`.
- `ParsingBuilderLoop` against `LoopOutcome`.

Lemmas then characterise those functions in terms of the `^` lines of the input:
- how many records there are;
- which lines each record is read from;
- which line sets each field;
- what happens to lines after the last `^`;
- when the test loop panics.

## Model

| member | source | states |
|---|---|---|
| Text.StartsWithTag | src/parser.rs:63-79 | `starts_with` on a one-character pattern holds exactly when the line is non-empty and starts with that character |
| Text.StartsWith | src/parser.rs:43-46 | `starts_with` holds exactly when the text is the pattern followed by something |
| Text.Split | src/parser.rs:39 | `split("\n")` yields at least one piece and no piece contains the separator |
| Text.JoinOfSplit | src/parser.rs:39 | splitting loses nothing: joining the pieces with the separator gives the text back |
| Text.SplitOfJoin | src/parser.rs:39 | splitting a join of separator-free pieces gives exactly those pieces |
| Text.SplitAppend | src/parser.rs:39 | the pieces of `a + "\n" + b` are the pieces of `a` followed by the pieces of `b` |
| Text.Lines | src/transaction.rs:107 | `lines()` yields lines that contain no `\n` |
| Text.LinesOfJoin | src/transaction.rs:107 | `lines()` gives back the lines joined by `\n`, provided none holds `\n` or ends in `\r` and the last is non-empty |
| Text.TrimStart | src/parser.rs:64 | the result is a suffix of the input; every character cut is whitespace; the result does not start with whitespace |
| Text.TrimEnd | src/parser.rs:64 | the result is a prefix of the input; every character cut is whitespace; the result does not end with whitespace |
| Text.Trim | src/parser.rs:64 | `trim()` yields an infix of the input, with only whitespace cut at either end, that neither starts nor ends with whitespace |
| Records.Terminators | src/parser.rs:46 | lists every index of a line starting with `^`, each once, in increasing order |
| Records.SegmentCount | src/parser.rs:46-49 | there is exactly one closed record per `^` line |
| Records.SegmentBetweenTerminators | src/parser.rs:46-49 | closed record k holds exactly the lines strictly between `^` line k-1 (or the start) and `^` line k |
| Records.OpenAfterLastTerminator | src/parser.rs:46-53 | the open record is exactly the lines after the last `^` line |
| Records.UnterminatedTailIgnored | src/parser.rs:42-55 | appending lines with no `^` leaves the closed records unchanged and only extends the open one |
| Records.OpenWithoutTerminators | src/parser.rs:42-55 | lines with no `^` form no closed record and are all still open |
| Records.CloseRecord | src/parser.rs:46-49 | a `^` line turns the open record into the last closed one and leaves nothing open |
| Records.RecordAfterClosed | src/parser.rs:46-49 | after a closed record, a run of lines and a `^` add exactly that run as one record |
| Records.LastWhere | src/parser.rs:62-82 | finds nothing exactly when no line is wanted; otherwise finds a wanted line with no wanted line after it |
| Records.LastWhereAt | src/parser.rs:62-82 | a wanted line with no wanted line after it is what LastWhere finds |
| Records.LastWhereSnoc | src/parser.rs:62-82 | one more line is the new last wanted line if it is wanted, else the answer is unchanged |
| Sample.SampleLinesOf | src/transaction.rs:59-71 | both `split("\n")` and `lines()` cut the tests' bank file into its thirteen lines |
| Sample.SampleRecords | src/transaction.rs:59-71 | the bank file's lines form three records, the `!Type` line in the first, and leave nothing open |
| Parser.ParseLine | src/parser.rs:62-82 | `parse_line` gives the record that reading a one-line record gives; a line with none of the tags T, U, P, L, D changes nothing |
| Parser.EmptyItem | src/parser.rs:22-30 | `empty_item` has every text field empty, amount 0 and no splits |
| Parser.AmountOf | src/parser.rs:63-71 | the amount of a `T` or `U` line is the trimmed rest of the line read as a number, or 0 when it does not read as one |
| Parser.AssembleStep | src/parser.rs:50 | reading one more line is `parse_line` on the record read so far |
| Parser.AssembleConcat | src/parser.rs:42-51 | reading a record's lines in two parts is the same as reading them whole |
| Parser.LastLineWins | src/parser.rs:63-81 | each field holds the value from the last line with its tag. Amount: the trimmed rest parsed, or 0 on failure. Payee and category: the rest verbatim. Date: `parse_date` of the rest. |
| Parser.LastHeaderWins | src/parser.rs:43-45 | the file type comes from the last `!Type` line, from its seventh character on; with no such line it stays empty |
| Parser.ItemsOf | src/parser.rs:42-53 | there is one item per closed record, and every item's `splits` is empty |
| Parser.ParseWithFormat | src/parser.rs:32-56 | the loop returns the file type and the items of `Parsed`: the last header's type, and one record per closed segment read from `empty_item` |
| Parser.HeaderStep | src/parser.rs:43-45 | one line changes the file type only when it starts with `!Type` |
| Parser.RecordStep | src/parser.rs:46-50 | a `^` line pushes the open record and restarts from `empty_item`; any other line is read into the open record |
| Parser.Parse | src/parser.rs:58-60 | `parse` is `parse_with_format` with the format `%d/%m/%Y` |
| Parser.ItemsBetweenTerminators | src/parser.rs:42-53 | there is one item per `^` line, in the order of those lines; item k is read only from the lines between `^` line k-1 and `^` line k |
| Parser.UnterminatedTailDiscarded | src/parser.rs:42-55 | text after the last `^` never becomes an item, so a file lacking its final `^` loses its last record |
| Parser.HeadersConcat | src/parser.rs:44 | the `!Type` length condition holds for a concatenation when it holds for both parts |
| Parser.SampleParsed | src/transaction.rs:59-71 | `parse_with_format` on the bank file gives type `Bank` and three items, each with its date, amount and payee |
| Parser.SampleItems | src/transaction.rs:59-71 | the three items of the bank file, field by field |
| Parser.ItemsOfThree | src/parser.rs:42-53 | three closed records give three items, each read from its own record |
| Parser.ThreeLineRecord | src/parser.rs:62-82 | a record of lines `parse_line` ignores, then a D, a T and a P line, reads to that date, amount and payee |
| Transaction.QifTransactionBuilder.constructor | src/transaction.rs:9-11 | `QifTransactionBuilder::default()` starts with every field unset |
| Transaction.QifTransactionBuilder.SetDate | src/transaction.rs:12-13 | sets `date` to the value given and changes no other field |
| Transaction.QifTransactionBuilder.SetAmount | src/transaction.rs:15 | sets `amount` and changes no other field |
| Transaction.QifTransactionBuilder.SetMemo | src/transaction.rs:17-18 | sets `memo` and changes no other field |
| Transaction.QifTransactionBuilder.SetPayee | src/transaction.rs:20 | sets `payee` and changes no other field |
| Transaction.QifTransactionBuilder.SetCategory | src/transaction.rs:22-23 | sets `category` and changes no other field |
| Transaction.QifTransactionBuilder.SetClearedStatus | src/transaction.rs:25-26 | sets `cleared_status` and changes no other field |
| Transaction.QifTransactionBuilder.SetAddress | src/transaction.rs:28-29 | sets `address` and changes no other field |
| Transaction.QifTransactionBuilder.SetSplits | src/transaction.rs:31-32 | sets `splits` and changes no other field |
| Transaction.QifTransactionBuilder.SetNumberOfTheCheck | src/transaction.rs:34-35 | sets `number_of_the_check` and changes no other field |
| Transaction.QifTransactionBuilder.Build | src/transaction.rs:9-36 | succeeds exactly when date, amount and payee are set, otherwise fails naming the first missing one in the order date, amount, payee. On success each field holds the value set last, and each defaulted field never set is empty. |
| Transaction.TestBuilder | src/transaction.rs:74-100 | a failing `parse_number` is returned as the error; otherwise `build` succeeds with exactly the values given, the date stored verbatim as `03/03/10` |
| Transaction.ParsingBuilderLoop | src/transaction.rs:104-125 | the loop ends as `LoopOutcome` says: panicked at a line, or finished with the records it pushed |
| Transaction.ReadLine | src/transaction.rs:115-120 | the `match` arm panics exactly when `parse_number` fails on a T line or `parse_date` on a D line; otherwise it sets only the line's own field and any other first character changes nothing |
| Transaction.Step | src/transaction.rs:109-120 | one pass of the loop. A panic is final. Otherwise a panic happens at the current line. A pass that does not panic keeps the records pushed so far and adds exactly one on a `^` line, after which date, amount and payee are unset. |
| Transaction.Run | src/transaction.rs:109-123 | the whole loop from a fresh builder: a panic is at one of the lines, and a finished loop pushed one record per `^` line |
| Transaction.FieldsStep | src/transaction.rs:115-120 | one more line overwrites only its own field among date, amount and payee (the last line of a tag wins); other lines keep all three |
| Transaction.RunTracksOpen | src/transaction.rs:109-120 | until a panic, the builder's date, amount and payee are those set by the last D, T and P lines since the last `^` line, and are unset when there is none |
| Transaction.PanicSticks | src/transaction.rs:109-123 | after a panic, later lines change nothing |
| Transaction.LoopRecords | src/transaction.rs:109-113 | a finished loop pushed one record per `^` line, in order; record k is built from the lines between `^` k-1 and `^` k, has all three required fields, and everything else is empty |
| Transaction.LoopPanics | src/transaction.rs:110-118 | the loop panics exactly when some line fails, and then at the first failing line. A line fails when it is a `^` with an incomplete record, a T line with a failing `parse_number`, or a D line with a failing `parse_date`. |
| Transaction.LastStepPanics | src/transaction.rs:110-118 | with the loop still running, the next line panics exactly when it fails |
| Transaction.LoopQuietTail | src/transaction.rs:114-120 | lines with no `^` and no failing arm push nothing and cause no panic |
| Transaction.LoopAfterRecord | src/transaction.rs:109-113 | after a closed record, a complete record and its `^` push exactly that record |
| Transaction.LoopThreeRecords | src/transaction.rs:109-113 | three complete `^`-closed records push exactly three records |
| Transaction.SampleLoop | src/transaction.rs:103-127 | on the bank file, the loop either finishes with the three records (date, amount, payee) when the five conversions succeed, or panics when one fails |
| Transaction.TestParsingBuilder | src/transaction.rs:102-128 | `test_parsing_builder` finishes exactly when the bank file's dates and amounts convert, and then yields three records |

## Left out

- Floating point: the `f32` amount of `src/parser.rs` is a `real`. The parse of the trimmed text is a parameter that returns an optional value (`External.parseF32`). Rounding, NaN and infinities are not modelled; the fallback to 0 on a failed parse is.
- `date::parse_date`, `crate::parse_number` and `src/errors.rs` are not part of this model. The helpers are parameters (`Parser.External`, `Transaction.Helpers`), and nothing is proved about what they return.
- `QifParsingError` is modelled as `UninitializedField(name)` or another error, because its definition is not part of this model.
- The two files use two revisions of `parse_date`. `src/parser.rs` stores its `String` result. The tests of `src/transaction.rs` unwrap a `Result`, modelled as an optional value.
- `src/split.rs` is not part of this model: a transaction's split type is the type parameter `S`.
- `println!` output (src/parser.rs:40, 66) has no effect on results and is left out.
- The `fmt::Display` impls (src/transaction.rs:38-46, src/investment.rs) are left out. `src/investment.rs` as a whole is left out: it is a plain record with no logic.
- Serde derives and the `'a` borrowed strings are left out: every text field is an owned `string`.
- Parser.ParseWithFormat: a `!Type` line shorter than six characters makes `line[6..]` panic; this is a precondition (`HeadersLongEnough`) rather than a modelled panic.
- Transaction.ParsingBuilderLoop: an empty line makes `&line[..1]` panic; every line being non-empty is a precondition.
- Text is a sequence of Unicode characters, not UTF-8 bytes, so slicing inside a multi-byte character (a panic in Rust) is not modelled.
- Transaction.TestBuilder returns the built transaction where the test returns `Ok(())`. The test's final checks of `parse_date(&tb.date, ..)` and `amount == -37900` depend on helpers outside this model. The model checks only that the stored date is the verbatim `"03/03/10"` and that the amount and payee are the values given.
- Transaction.TestParsingBuilder does not model the `dbg!` output. The result count of 3 is proved under the condition that the five conversions succeed.
- The builder's setters return the builder for chaining in Rust; here they are plain methods called one after another.
