/** src/transaction.rs: the `QifTransaction` record, the builder its
    `#[derive(Builder)]` generates, and the two tests that drive that builder
    (`test_builder` and the line loop of `test_parsing_builder`). */
module Transaction {
  import opened Wrappers
  import opened Text
  import opened Tags
  import opened Records
  import opened Sample

  /** Rust's `i64`. */
  type I64 = x: int | -0x8000_0000_0000_0000 <= x < 0x8000_0000_0000_0000

  /** The crate's parsing error. Its definition (src/errors.rs) is not part of this
      model; the builder reports a required field that was never set by its name. */
  datatype QifParsingError = UninitializedField(field: string) | OtherError(detail: string)

  /** A transaction. `S` stands for the split record of src/split.rs, which is not part
      of this model. */
  datatype QifTransaction<S> = QifTransaction(
    date: string,
    amount: I64,
    memo: string,
    payee: string,
    category: string,
    clearedStatus: string,
    address: seq<string>,
    splits: seq<S>,
    numberOfTheCheck: string)

  /** `built` is what a built record holds for the builder field `field`: the value set
      last, or the field's default when it was never set. */
  predicate Takes<T(==)>(field: Option<T>, built: T, default: T) {
    if field.Some? then built == field.value else built == default
  }

  /** `QifTransactionBuilder`: every field starts unset; each setter overwrites its
      field; `Build` checks the three fields that have no default. */
  class QifTransactionBuilder<S> {
    var date: Option<string>
    var amount: Option<I64>
    var memo: Option<string>
    var payee: Option<string>
    var category: Option<string>
    var clearedStatus: Option<string>
    var address: Option<seq<string>>
    var splits: Option<seq<S>>
    var numberOfTheCheck: Option<string>

    /** None of the fields that have a default was set. */
    predicate DefaultsUnset()
      reads this
    {
      memo.None? && category.None? && clearedStatus.None? && address.None? && splits.None? && numberOfTheCheck.None?
    }

    /** `QifTransactionBuilder::default()`. */
    constructor ()
      ensures date.None? && amount.None? && payee.None? && DefaultsUnset()
    {
      date, amount, memo, payee := None, None, None, None;
      category, clearedStatus, address, splits, numberOfTheCheck := None, None, None, None, None;
    }

    method SetDate(value: string)
      modifies this`date
      ensures date == Some(value)
    {
      date := Some(value);
    }

    method SetAmount(value: I64)
      modifies this`amount
      ensures amount == Some(value)
    {
      amount := Some(value);
    }

    method SetMemo(value: string)
      modifies this`memo
      ensures memo == Some(value)
    {
      memo := Some(value);
    }

    method SetPayee(value: string)
      modifies this`payee
      ensures payee == Some(value)
    {
      payee := Some(value);
    }

    method SetCategory(value: string)
      modifies this`category
      ensures category == Some(value)
    {
      category := Some(value);
    }

    method SetClearedStatus(value: string)
      modifies this`clearedStatus
      ensures clearedStatus == Some(value)
    {
      clearedStatus := Some(value);
    }

    method SetAddress(value: seq<string>)
      modifies this`address
      ensures address == Some(value)
    {
      address := Some(value);
    }

    method SetSplits(value: seq<S>)
      modifies this`splits
      ensures splits == Some(value)
    {
      splits := Some(value);
    }

    method SetNumberOfTheCheck(value: string)
      modifies this`numberOfTheCheck
      ensures numberOfTheCheck == Some(value)
    {
      numberOfTheCheck := Some(value);
    }

    /** `build()`: succeeds exactly when date, amount and payee were all set, and then
        holds the value last given to each setter and the default (empty) for every
        defaulted field never set. Otherwise it names the first missing required field,
        in declaration order. */
    function Build(): (r: Result<QifTransaction<S>, QifParsingError>)
      reads this
      ensures r.Success? <==> date.Some? && amount.Some? && payee.Some?
      ensures date.None? ==> r == Failure(UninitializedField("date"))
      ensures date.Some? && amount.None? ==> r == Failure(UninitializedField("amount"))
      ensures date.Some? && amount.Some? && payee.None? ==> r == Failure(UninitializedField("payee"))
      ensures r.Success? ==> r.value.date == date.value && r.value.amount == amount.value && r.value.payee == payee.value
      ensures r.Success? ==> && Takes(memo, r.value.memo, "") && Takes(category, r.value.category, "")
                             && Takes(clearedStatus, r.value.clearedStatus, "") && Takes(address, r.value.address, [])
                             && Takes(splits, r.value.splits, []) && Takes(numberOfTheCheck, r.value.numberOfTheCheck, "")
    {
      if date.None? then Failure(UninitializedField("date"))
      else if amount.None? then Failure(UninitializedField("amount"))
      else if payee.None? then Failure(UninitializedField("payee"))
      else
        Success(QifTransaction(date.value, amount.value, memo.GetOr(""), payee.value, category.GetOr(""),
                               clearedStatus.GetOr(""), address.GetOr([]), splits.GetOr([]), numberOfTheCheck.GetOr("")))
    }
  }

  /** The two helpers the tests call whose code is not part of this model:
      `crate::parse_number` and `date::parse_date(text, format)` (None when it fails). */
  datatype Helpers = Helpers(parseNumber: string -> Result<I64, QifParsingError>, parseDate: (string, string) -> Option<string>)

  /** The date format of the tests (month/day/two-digit year). */
  const TestDateFormat: string := "%m/%d/%y"

  /** `test_builder`: set every field, the amount from `parse_number("T-379.00")`, and
      build. A failing `parse_number` is returned as the test's error; otherwise `build`
      cannot fail and the record holds exactly the values given, the date verbatim. */
  method TestBuilder<S>(helpers: Helpers) returns (r: Result<QifTransaction<S>, QifParsingError>)
    ensures var n := helpers.parseNumber("T-379.00");
            n.Failure? ==> r == Failure(n.error)
    ensures var n := helpers.parseNumber("T-379.00");
            n.Success? ==> r == Success(QifTransaction("03/03/10", n.value, "DUMMY", "CITY OF SPRINGFIELD", "DUMMY",
                                                       "DUMMY", ["DUMMY"], [], "DUMMY"))
  {
    var builder := new QifTransactionBuilder<S>();
    builder.SetDate("03/03/10");
    var number := helpers.parseNumber("T-379.00");
    if number.Failure? {
      return Failure(number.error);
    }
    builder.SetAmount(number.value);
    builder.SetPayee("CITY OF SPRINGFIELD");
    builder.SetMemo("DUMMY");
    builder.SetCategory("DUMMY");
    builder.SetClearedStatus("DUMMY");
    builder.SetAddress(["DUMMY"]);
    builder.SetNumberOfTheCheck("DUMMY");
    builder.SetSplits([]);
    assert builder.date == Some("03/03/10") && builder.amount == Some(number.value) && builder.payee == Some("CITY OF SPRINGFIELD");
    assert builder.memo == builder.category == builder.clearedStatus == builder.numberOfTheCheck == Some("DUMMY");
    assert builder.address == Some(["DUMMY"]) && builder.splits == Some([]);
    r := builder.Build();
    ghost var t := r.value;
    assert t.date == "03/03/10" && t.amount == number.value && t.payee == "CITY OF SPRINGFIELD";
    assert t.memo == t.category == t.clearedStatus == t.numberOfTheCheck == "DUMMY";
    assert t.address == ["DUMMY"] && t.splits == [];
  }

  /** What the builder holds for date, amount and payee after the lines `seg` of the open
      record: the conversion of the last line with the field's tag, unset with none. */
  function DateSet(seg: seq<string>, fmt: string, helpers: Helpers): Option<string> {
    var line := LastWhere(seg, IsDateLine);
    if line.Some? then helpers.parseDate(line.value[1..], fmt) else None
  }

  function AmountSet(seg: seq<string>, helpers: Helpers): Option<I64> {
    var line := LastWhere(seg, IsNumberLine);
    if line.Some? then helpers.parseNumber(line.value).ToOption() else None
  }

  function PayeeSet(seg: seq<string>): Option<string> {
    var line := LastWhere(seg, IsPayeeLine);
    if line.Some? then Some(line.value[1..]) else None
  }

  /** The open record has the three fields `build` requires. */
  predicate Complete(seg: seq<string>, fmt: string, helpers: Helpers) {
    DateSet(seg, fmt, helpers).Some? && AmountSet(seg, helpers).Some? && PayeeSet(seg).Some?
  }

  /** The transaction built from a complete record: its three required fields, every
      other field empty. */
  function RecordOf<S>(seg: seq<string>, fmt: string, helpers: Helpers): QifTransaction<S>
    requires Complete(seg, fmt, helpers)
  {
    QifTransaction(DateSet(seg, fmt, helpers).value, AmountSet(seg, helpers).value, "", PayeeSet(seg).value, "", "", [], [], "")
  }

  /** Reading `line` with the record `seg` open panics: a `^` line whose `build().unwrap()`
      fails, a `T` line whose `parse_number` fails, or a `D` line whose `parse_date` fails. */
  predicate FailsOn(seg: seq<string>, line: string, fmt: string, helpers: Helpers) {
    (IsTerminator(line) && !Complete(seg, fmt, helpers)) || ArmFails(line, fmt, helpers)
  }

  /** The arm the line's first character selects panics: `parse_number` fails on a `T`
      line or `parse_date` on a `D` line. */
  predicate ArmFails(line: string, fmt: string, helpers: Helpers) {
    || (IsNumberLine(line) && helpers.parseNumber(line).Failure?)
    || (IsDateLine(line) && helpers.parseDate(line[1..], fmt).None?)
  }

  /** How the test loop ends: with the records it pushed, or with a panic at a line. */
  datatype Outcome<S> = Finished(records: seq<QifTransaction<S>>) | Panicked(line: nat)

  /** Where the test loop stands after some lines: its outcome so far and what the
      builder holds for the three required fields (the others are never set). */
  datatype Progress<S> = Progress(outcome: Outcome<S>, date: Option<string>, amount: Option<I64>, payee: Option<string>)

  /** The loop taking line number `n`: a panic is final; a terminator pushes the built
      record and resets the fields, or panics when one of them is unset; a failing arm
      panics; otherwise the line's own field takes its converted value. */
  function Step<S>(p: Progress<S>, line: string, n: nat, fmt: string, helpers: Helpers): (r: Progress<S>)
    ensures p.outcome.Panicked? ==> r == p
    ensures p.outcome.Finished? && r.outcome.Panicked? ==> r.outcome.line == n
    ensures r.outcome.Finished? ==> && p.outcome.Finished?
                                    && p.outcome.records <= r.outcome.records
                                    && |r.outcome.records| == |p.outcome.records| + if IsTerminator(line) then 1 else 0
    ensures r.outcome.Finished? && IsTerminator(line) ==> r.date.None? && r.amount.None? && r.payee.None?
  {
    if p.outcome.Panicked? then p
    else if IsTerminator(line) then
      if p.date.Some? && p.amount.Some? && p.payee.Some? then
        var record := QifTransaction(p.date.value, p.amount.value, "", p.payee.value, "", "", [], [], "");
        Progress(Finished(p.outcome.records + [record]), None, None, None)
      else p.(outcome := Panicked(n))
    else if ArmFails(line, fmt, helpers) then p.(outcome := Panicked(n))
    else
      p.(date := if IsDateLine(line) then helpers.parseDate(line[1..], fmt) else p.date,
         amount := if IsNumberLine(line) then helpers.parseNumber(line).ToOption() else p.amount,
         payee := if IsPayeeLine(line) then Some(line[1..]) else p.payee)
  }

  /** The loop over `lines`, one line at a time from a fresh builder and no records. */
  function Run<S>(lines: seq<string>, fmt: string, helpers: Helpers): (r: Progress<S>)
    ensures r.outcome.Panicked? ==> r.outcome.line < |lines|
    ensures r.outcome.Finished? ==> |r.outcome.records| == |Terminators(lines)|
  {
    if lines == [] then Progress(Finished([]), None, None, None)
    else
      var n := |lines| - 1;
      Step(Run(lines[..n], fmt, helpers), lines[n], n, fmt, helpers)
  }

  /** How the test loop over `lines` ends. */
  function LoopOutcome<S>(lines: seq<string>, fmt: string, helpers: Helpers): Outcome<S>
  {
    Run<S>(lines, fmt, helpers).outcome
  }

  /** The loop of `test_parsing_builder`, over the lines of any text: a `^` line pushes
      `build().unwrap()` and resets the builder; then the first character selects the
      arm: `T` sets the amount to `parse_number(line).unwrap()`, `P` the payee to the
      rest of the line, `D` the date to `parse_date(rest, format).unwrap()`; any other
      character does nothing. An empty line would panic at `&line[..1]`. */
  method ParsingBuilderLoop<S>(lines: seq<string>, fmt: string, helpers: Helpers) returns (outcome: Outcome<S>)
    requires forall i :: 0 <= i < |lines| ==> lines[i] != []
    ensures outcome == LoopOutcome(lines, fmt, helpers)
  {
    var results: seq<QifTransaction<S>> := [];
    var item := new QifTransactionBuilder<S>();
    assert lines[..|lines|] == lines;
    for i := 0 to |lines|
      invariant fresh(item)
      invariant Run<S>(lines[..i], fmt, helpers) == Progress(Finished(results), item.date, item.amount, item.payee)
      invariant item.DefaultsUnset()
    {
      var line := lines[i];
      assert lines[..i + 1][..i] == lines[..i];
      StartsWithTag(line, '^');
      if StartsWith(line, "^") {
        var built := item.Build();
        if built.Failure? {
          PanicSticks<S>(lines, i + 1, fmt, helpers);
          return Panicked(i);
        }
        results := results + [built.value];
        item := new QifTransactionBuilder<S>();
      }
      var panicked := ReadLine(item, line, fmt, helpers);
      if panicked {
        PanicSticks<S>(lines, i + 1, fmt, helpers);
        return Panicked(i);
      }
    }
    outcome := Finished(results);
  }

  /** The `match &line[..1]` of the test loop on one builder: `T` sets the amount to
      `parse_number(line)`, `P` the payee to the rest of the line, `D` the date to
      `parse_date(rest, format)`; `panicked` tells that an `unwrap` there fails. Any
      other first character leaves the builder as it was. */
  method ReadLine<S>(item: QifTransactionBuilder<S>, line: string, fmt: string, helpers: Helpers) returns (panicked: bool)
    requires line != []
    modifies item`date, item`amount, item`payee
    ensures panicked <==> ArmFails(line, fmt, helpers)
    ensures !panicked ==> item.date == if IsDateLine(line) then helpers.parseDate(line[1..], fmt) else old(item.date)
    ensures !panicked ==> item.amount == if IsNumberLine(line) then helpers.parseNumber(line).ToOption() else old(item.amount)
    ensures !panicked ==> item.payee == if IsPayeeLine(line) then Some(line[1..]) else old(item.payee)
  {
    panicked := false;
    match line[0]
    case 'T' =>
      var number := helpers.parseNumber(line);
      if number.Failure? {
        return true;
      }
      item.SetAmount(number.value);
    case 'P' =>
      item.SetPayee(line[1..]);
    case 'D' =>
      var date := helpers.parseDate(line[1..], fmt);
      if date.None? {
        return true;
      }
      item.SetDate(date.value);
    case _ =>
  }

  /** How the builder's fields change with one more line: the line's own field takes its
      converted value, and every other field (all of them for a line without a `T`, `P`
      or `D` tag) keeps its value. */
  lemma FieldsStep(seg: seq<string>, line: string, fmt: string, helpers: Helpers)
    ensures DateSet(seg + [line], fmt, helpers)
            == if IsDateLine(line) then helpers.parseDate(line[1..], fmt) else DateSet(seg, fmt, helpers)
    ensures AmountSet(seg + [line], helpers)
            == if IsNumberLine(line) then helpers.parseNumber(line).ToOption() else AmountSet(seg, helpers)
    ensures PayeeSet(seg + [line]) == if IsPayeeLine(line) then Some(line[1..]) else PayeeSet(seg)
  {
    LastWhereSnoc(seg, line, IsDateLine);
    LastWhereSnoc(seg, line, IsNumberLine);
    LastWhereSnoc(seg, line, IsPayeeLine);
  }

  /** While the loop has not panicked, the builder's three fields are those the lines of
      the open record set (DateSet, AmountSet, PayeeSet). */
  lemma {:induction false} RunTracksOpen<S>(lines: seq<string>, fmt: string, helpers: Helpers)
    requires Run<S>(lines, fmt, helpers).outcome.Finished?
    ensures var p, seg := Run<S>(lines, fmt, helpers), Open(lines);
            p.date == DateSet(seg, fmt, helpers) && p.amount == AmountSet(seg, helpers) && p.payee == PayeeSet(seg)
  {
    if lines != [] {
      var n := |lines| - 1;
      var prefix := lines[..n];
      RunTracksOpen<S>(prefix, fmt, helpers);
      if !IsTerminator(lines[n]) {
        FieldsStep(Open(prefix), lines[n], fmt, helpers);
      }
    }
  }

  /** A panic ends the loop: later lines do not change the outcome. */
  lemma {:induction false} PanicSticks<S>(lines: seq<string>, k: nat, fmt: string, helpers: Helpers)
    requires k <= |lines| && LoopOutcome<S>(lines[..k], fmt, helpers).Panicked?
    ensures Run<S>(lines, fmt, helpers) == Run<S>(lines[..k], fmt, helpers)
    decreases |lines| - k
  {
    if k == |lines| {
      assert lines[..k] == lines;
    } else {
      var n := |lines| - 1;
      assert lines[..n][..k] == lines[..k];
      PanicSticks<S>(lines[..n], k, fmt, helpers);
    }
  }

  /** A finished loop pushed one record per terminator, in order: record `k` is built
      from closed record `k` of `lines`, which has all three required fields. */
  lemma {:induction false} LoopRecords<S>(lines: seq<string>, fmt: string, helpers: Helpers)
    requires LoopOutcome<S>(lines, fmt, helpers).Finished?
    ensures var records, segs := LoopOutcome<S>(lines, fmt, helpers).records, Segments(lines);
            && |records| == |segs| == |Terminators(lines)|
            && forall k :: 0 <= k < |records| ==> Complete(segs[k], fmt, helpers) && records[k] == RecordOf(segs[k], fmt, helpers)
  {
    SegmentCount(lines);
    if lines != [] {
      var n := |lines| - 1;
      LoopRecords<S>(lines[..n], fmt, helpers);
      RunTracksOpen<S>(lines[..n], fmt, helpers);
    }
  }

  /** Line `j` of `lines` fails, with the lines before it read. */
  predicate FailsAt(lines: seq<string>, j: nat, fmt: string, helpers: Helpers)
    requires j < |lines|
  {
    FailsOn(Open(lines[..j]), lines[j], fmt, helpers)
  }

  /** The loop panics exactly when some line fails, and then at the first one. */
  lemma {:induction false} LoopPanics<S>(lines: seq<string>, fmt: string, helpers: Helpers)
    ensures LoopOutcome<S>(lines, fmt, helpers).Panicked? <==> exists j :: 0 <= j < |lines| && FailsAt(lines, j, fmt, helpers)
    ensures var outcome := LoopOutcome<S>(lines, fmt, helpers);
            outcome.Panicked? ==> && outcome.line < |lines| && FailsAt(lines, outcome.line, fmt, helpers)
                                  && forall j :: 0 <= j < outcome.line ==> !FailsAt(lines, j, fmt, helpers)
  {
    if lines != [] {
      var n := |lines| - 1;
      var prefix := lines[..n];
      LoopPanics<S>(prefix, fmt, helpers);
      FailsAtPrefix(lines, n, fmt, helpers);
      if LoopOutcome<S>(prefix, fmt, helpers).Finished? {
        LastStepPanics<S>(lines, fmt, helpers);
      }
    }
  }

  /** The lines before `n` fail in `lines[..n]` as they do in `lines`. */
  lemma FailsAtPrefix(lines: seq<string>, n: nat, fmt: string, helpers: Helpers)
    requires n <= |lines|
    ensures forall j :: 0 <= j < n ==> FailsAt(lines[..n], j, fmt, helpers) == FailsAt(lines, j, fmt, helpers)
  {
    forall j | 0 <= j < n ensures FailsAt(lines[..n], j, fmt, helpers) == FailsAt(lines, j, fmt, helpers) {
      assert lines[..n][j] == lines[j] && lines[..n][..j] == lines[..j];
    }
  }

  /** With the loop still running before the last line, it panics exactly when that line fails. */
  lemma LastStepPanics<S>(lines: seq<string>, fmt: string, helpers: Helpers)
    requires lines != [] && LoopOutcome<S>(lines[..|lines| - 1], fmt, helpers).Finished?
    ensures LoopOutcome<S>(lines, fmt, helpers).Panicked? <==> FailsAt(lines, |lines| - 1, fmt, helpers)
    ensures LoopOutcome<S>(lines, fmt, helpers).Panicked? ==> LoopOutcome<S>(lines, fmt, helpers).line == |lines| - 1
  {
    RunTracksOpen<S>(lines[..|lines| - 1], fmt, helpers);
  }

  /** Lines with no terminator and no failing arm leave the outcome as it was. */
  lemma {:induction false} LoopQuietTail<S>(lines: seq<string>, tail: seq<string>, fmt: string, helpers: Helpers)
    requires LoopOutcome<S>(lines, fmt, helpers).Finished?
    requires forall i :: 0 <= i < |tail| ==> !IsTerminator(tail[i]) && !ArmFails(tail[i], fmt, helpers)
    ensures LoopOutcome<S>(lines + tail, fmt, helpers) == LoopOutcome<S>(lines, fmt, helpers)
  {
    if tail == [] {
      assert lines + tail == lines;
    } else {
      var n := |tail| - 1;
      LoopQuietTail<S>(lines, tail[..n], fmt, helpers);
      assert tail == tail[..n] + [tail[n]];
      assert lines + tail == (lines + tail[..n]) + [tail[n]];
      assert (lines + tail)[..|lines| + n] == lines + tail[..n];
    }
  }

  /** After a closed record, a complete record free of failing lines and its terminator
      push exactly that record. */
  lemma LoopAfterRecord<S>(lines: seq<string>, record: seq<string>, terminator: string, fmt: string, helpers: Helpers)
    requires LoopOutcome<S>(lines, fmt, helpers).Finished? && Open(lines) == []
    requires forall i :: 0 <= i < |record| ==> !IsTerminator(record[i]) && !ArmFails(record[i], fmt, helpers)
    requires Complete(record, fmt, helpers) && IsTerminator(terminator)
    ensures LoopOutcome<S>(lines + record + [terminator], fmt, helpers)
            == Finished(LoopOutcome<S>(lines, fmt, helpers).records + [RecordOf(record, fmt, helpers)])
  {
    LoopQuietTail<S>(lines, record, fmt, helpers);
    UnterminatedTailIgnored(lines, record);
    assert Open(lines + record) == record;
    RunTracksOpen<S>(lines + record, fmt, helpers);
    assert (lines + record + [terminator])[..|lines + record|] == lines + record;
  }

  /** The five conversions the bank file of the tests needs all succeed. */
  predicate SampleParses(fmt: string, helpers: Helpers) {
    && helpers.parseDate("03/03/10", fmt).Some? && helpers.parseDate("03/04/10", fmt).Some?
    && helpers.parseNumber("T-379.00").Success? && helpers.parseNumber("T-20.28").Success?
    && helpers.parseNumber("T-421.35").Success?
  }

  /** A record of the sample's shape: lines without a `T`, `P` or `D` tag, then a date
      line, an amount line and a payee line. */
  lemma ThreeLineFields(ignored: seq<string>, dateLine: string, amountLine: string, payeeLine: string, fmt: string, helpers: Helpers)
    requires forall i :: 0 <= i < |ignored| ==> !IsDateLine(ignored[i]) && !IsNumberLine(ignored[i]) && !IsPayeeLine(ignored[i])
    requires IsDateLine(dateLine) && IsNumberLine(amountLine) && IsPayeeLine(payeeLine)
    ensures var rec := ignored + [dateLine, amountLine, payeeLine];
            && DateSet(rec, fmt, helpers) == helpers.parseDate(dateLine[1..], fmt)
            && AmountSet(rec, helpers) == helpers.parseNumber(amountLine).ToOption()
            && PayeeSet(rec) == Some(payeeLine[1..])
  {
    var rec := ignored + [dateLine, amountLine, payeeLine];
    var n := |ignored|;
    assert rec[n] == dateLine && rec[n + 1] == amountLine && rec[n + 2] == payeeLine;
    LastWhereAt(rec, IsDateLine, n);
    LastWhereAt(rec, IsNumberLine, n + 1);
    LastWhereAt(rec, IsPayeeLine, n + 2);
  }

  lemma SampleFirstFields(fmt: string, helpers: Helpers)
    ensures DateSet(FirstRecord, fmt, helpers) == helpers.parseDate("03/03/10", fmt)
    ensures AmountSet(FirstRecord, helpers) == helpers.parseNumber("T-379.00").ToOption()
    ensures PayeeSet(FirstRecord) == Some("CITY OF SPRINGFIELD")
  {
    var rec := FirstRecord;
    assert rec == rec[..1] + [rec[1], rec[2], rec[3]];
    ThreeLineFields(rec[..1], rec[1], rec[2], rec[3], fmt, helpers);
    assert rec[1][1..] == "03/03/10";
    assert rec[3][1..] == "CITY OF SPRINGFIELD";
  }

  lemma SampleSecondFields(fmt: string, helpers: Helpers)
    ensures DateSet(SecondRecord, fmt, helpers) == helpers.parseDate("03/04/10", fmt)
    ensures AmountSet(SecondRecord, helpers) == helpers.parseNumber("T-20.28").ToOption()
    ensures PayeeSet(SecondRecord) == Some("YOUR LOCAL SUPERMARKET")
  {
    var rec := SecondRecord;
    assert rec == [] + [rec[0], rec[1], rec[2]];
    ThreeLineFields([], rec[0], rec[1], rec[2], fmt, helpers);
    assert rec[0][1..] == "03/04/10";
    assert rec[2][1..] == "YOUR LOCAL SUPERMARKET";
  }

  lemma SampleThirdFields(fmt: string, helpers: Helpers)
    ensures DateSet(ThirdRecord, fmt, helpers) == helpers.parseDate("03/03/10", fmt)
    ensures AmountSet(ThirdRecord, helpers) == helpers.parseNumber("T-421.35").ToOption()
    ensures PayeeSet(ThirdRecord) == Some("SPRINGFIELD WATER UTILITY")
  {
    var rec := ThirdRecord;
    assert rec == [] + [rec[0], rec[1], rec[2]];
    ThreeLineFields([], rec[0], rec[1], rec[2], fmt, helpers);
    assert rec[0][1..] == "03/03/10";
    assert rec[2][1..] == "SPRINGFIELD WATER UTILITY";
  }

  /** The loop over the bank file of the tests: when the five conversions succeed it
      finishes with three records, one per `^` line, each holding its date, amount and
      payee and nothing else; when one of them fails it panics. */
  lemma SampleLoop<S>(fmt: string, helpers: Helpers)
    ensures SampleParses(fmt, helpers) ==> LoopOutcome<S>(SampleLines, fmt, helpers) == Finished([
              QifTransaction(helpers.parseDate("03/03/10", fmt).value, helpers.parseNumber("T-379.00").value, "", "CITY OF SPRINGFIELD", "", "", [], [], ""),
              QifTransaction(helpers.parseDate("03/04/10", fmt).value, helpers.parseNumber("T-20.28").value, "", "YOUR LOCAL SUPERMARKET", "", "", [], [], ""),
              QifTransaction(helpers.parseDate("03/03/10", fmt).value, helpers.parseNumber("T-421.35").value, "", "SPRINGFIELD WATER UTILITY", "", "", [], [], "")])
    ensures !SampleParses(fmt, helpers) ==> LoopOutcome<S>(SampleLines, fmt, helpers).Panicked?
  {
    if SampleParses(fmt, helpers) {
      SampleFirstFields(fmt, helpers);
      SampleSecondFields(fmt, helpers);
      SampleThirdFields(fmt, helpers);
      SampleQuiet(fmt, helpers);
      LoopThreeRecords<S>(FirstRecord, SecondRecord, ThirdRecord, fmt, helpers);
    } else {
      SampleFailure<S>(fmt, helpers);
    }
  }

  /** Three complete records free of failing lines, each closed by `^`, make the loop
      push exactly those three records. */
  lemma LoopThreeRecords<S>(a: seq<string>, b: seq<string>, c: seq<string>, fmt: string, helpers: Helpers)
    requires forall i :: 0 <= i < |a| ==> !IsTerminator(a[i]) && !ArmFails(a[i], fmt, helpers)
    requires forall i :: 0 <= i < |b| ==> !IsTerminator(b[i]) && !ArmFails(b[i], fmt, helpers)
    requires forall i :: 0 <= i < |c| ==> !IsTerminator(c[i]) && !ArmFails(c[i], fmt, helpers)
    requires Complete(a, fmt, helpers) && Complete(b, fmt, helpers) && Complete(c, fmt, helpers)
    ensures LoopOutcome<S>(a + ["^"] + b + ["^"] + c + ["^"], fmt, helpers)
            == Finished([RecordOf(a, fmt, helpers), RecordOf(b, fmt, helpers), RecordOf(c, fmt, helpers)])
  {
    var twice := a + ["^"] + b + ["^"];
    var ra, rb, rc := RecordOf<S>(a, fmt, helpers), RecordOf<S>(b, fmt, helpers), RecordOf<S>(c, fmt, helpers);
    LoopTwoRecords<S>(a, b, fmt, helpers);
    LoopAfterRecord<S>(twice, c, "^", fmt, helpers);
    assert [ra, rb] + [rc] == [ra, rb, rc];
  }

  /** Two such records push exactly those two and leave nothing open. */
  lemma LoopTwoRecords<S>(a: seq<string>, b: seq<string>, fmt: string, helpers: Helpers)
    requires forall i :: 0 <= i < |a| ==> !IsTerminator(a[i]) && !ArmFails(a[i], fmt, helpers)
    requires forall i :: 0 <= i < |b| ==> !IsTerminator(b[i]) && !ArmFails(b[i], fmt, helpers)
    requires Complete(a, fmt, helpers) && Complete(b, fmt, helpers)
    ensures LoopOutcome<S>(a + ["^"] + b + ["^"], fmt, helpers) == Finished([RecordOf(a, fmt, helpers), RecordOf(b, fmt, helpers)])
    ensures Open(a + ["^"] + b + ["^"]) == []
  {
    var once := a + ["^"];
    var ra, rb := RecordOf<S>(a, fmt, helpers), RecordOf<S>(b, fmt, helpers);
    LoopFirstRecord<S>(a, "^", fmt, helpers);
    LoopAfterRecord<S>(once, b, "^", fmt, helpers);
    assert [ra] + [rb] == [ra, rb];
    RecordAfterClosed(once, b, "^");
  }

  /** A complete first record free of failing lines, closed by a terminator, is pushed
      alone and leaves nothing open. */
  lemma LoopFirstRecord<S>(record: seq<string>, terminator: string, fmt: string, helpers: Helpers)
    requires forall i :: 0 <= i < |record| ==> !IsTerminator(record[i]) && !ArmFails(record[i], fmt, helpers)
    requires Complete(record, fmt, helpers) && IsTerminator(terminator)
    ensures LoopOutcome<S>(record + [terminator], fmt, helpers) == Finished([RecordOf(record, fmt, helpers)])
    ensures Open(record + [terminator]) == []
  {
    var lines := record + [terminator];
    LoopQuiet<S>(record, fmt, helpers);
    OpenWithoutTerminators(record);
    RunTracksOpen<S>(record, fmt, helpers);
    assert lines[..|record|] == record && lines[|record|] == terminator;
    var p := Run<S>(record, fmt, helpers);
    assert p == Progress(Finished([]), DateSet(record, fmt, helpers), AmountSet(record, helpers), PayeeSet(record));
    assert Run<S>(lines, fmt, helpers) == Step(p, terminator, |record|, fmt, helpers);
    assert [] + [RecordOf<S>(record, fmt, helpers)] == [RecordOf<S>(record, fmt, helpers)];
    CloseRecord(record, terminator);
  }

  /** Lines with no terminator and no failing arm, read from the start, push nothing. */
  lemma LoopQuiet<S>(lines: seq<string>, fmt: string, helpers: Helpers)
    requires forall i :: 0 <= i < |lines| ==> !IsTerminator(lines[i]) && !ArmFails(lines[i], fmt, helpers)
    ensures LoopOutcome<S>(lines, fmt, helpers) == Finished([])
  {
    LoopQuietTail<S>([], lines, fmt, helpers);
    assert [] + lines == lines;
  }

  /** No line of the three records is a terminator or, when the conversions succeed, fails. */
  lemma SampleQuiet(fmt: string, helpers: Helpers)
    requires SampleParses(fmt, helpers)
    ensures forall i :: 0 <= i < |FirstRecord| ==> !IsTerminator(FirstRecord[i]) && !ArmFails(FirstRecord[i], fmt, helpers)
    ensures forall i :: 0 <= i < |SecondRecord| ==> !IsTerminator(SecondRecord[i]) && !ArmFails(SecondRecord[i], fmt, helpers)
    ensures forall i :: 0 <= i < |ThirdRecord| ==> !IsTerminator(ThirdRecord[i]) && !ArmFails(ThirdRecord[i], fmt, helpers)
  {
    assert FirstRecord[1][1..] == "03/03/10";
    assert SecondRecord[0][1..] == "03/04/10";
    assert ThirdRecord[0][1..] == "03/03/10";
  }

  /** A failing conversion in the bank file makes some line of it fail. */
  lemma SampleFailure<S>(fmt: string, helpers: Helpers)
    requires !SampleParses(fmt, helpers)
    ensures LoopOutcome<S>(SampleLines, fmt, helpers).Panicked?
  {
    var lines := SampleLines;
    assert lines[1] == "D03/03/10" && lines[1][1..] == "03/03/10";
    assert lines[5] == "D03/04/10" && lines[5][1..] == "03/04/10";
    assert lines[2] == "T-379.00" && lines[6] == "T-20.28" && lines[10] == "T-421.35";
    var j: nat;
    if helpers.parseDate("03/03/10", fmt).None? {
      j := 1;
    } else if helpers.parseDate("03/04/10", fmt).None? {
      j := 5;
    } else if helpers.parseNumber("T-379.00").Failure? {
      j := 2;
    } else if helpers.parseNumber("T-20.28").Failure? {
      j := 6;
    } else {
      j := 10;
    }
    assert FailsAt(lines, j, fmt, helpers);
    FailingLinePanics<S>(lines, j, fmt, helpers);
  }

  /** A line that fails makes the loop panic. */
  lemma FailingLinePanics<S>(lines: seq<string>, j: nat, fmt: string, helpers: Helpers)
    requires j < |lines| && FailsAt(lines, j, fmt, helpers)
    ensures LoopOutcome<S>(lines, fmt, helpers).Panicked?
  {
    LoopPanics<S>(lines, fmt, helpers);
  }

  /** `test_parsing_builder`: the loop over the tests' bank file with the month/day/year
      format. It yields three records exactly when the file's dates and amounts convert. */
  method TestParsingBuilder<S>(helpers: Helpers) returns (outcome: Outcome<S>)
    ensures outcome.Finished? <==> SampleParses(TestDateFormat, helpers)
    ensures outcome.Finished? ==> |outcome.records| == 3
  {
    var lines := Lines(SampleText);
    SampleLinesOf();
    assert forall i :: 0 <= i < |lines| ==> lines[i] != [];
    outcome := ParsingBuilderLoop<S>(lines, TestDateFormat, helpers);
    SampleLoop<S>(TestDateFormat, helpers);
  }
}
