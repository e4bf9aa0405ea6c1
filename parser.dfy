/** The line-oriented QIF reader of src/parser.rs: `parse_with_format` and `parse`, the
    per-line dispatch `parse_line`, `empty_item`, and the records they produce. */
module Parser {
  import opened Wrappers
  import opened Text
  import opened Tags
  import opened Records
  import opened Sample

  datatype QifSplit = QifSplit(category: string, memo: string, amount: real)

  datatype QifItem = QifItem(date: string, amount: real, payee: string, category: string, splits: seq<QifSplit>)

  datatype Qif = Qif(fileType: string, items: seq<QifItem>)

  /** The two helpers the reader calls whose code is not part of this model:
      `date::parse_date(text, format)` and Rust's `str::parse::<f32>` (None when it fails). */
  datatype External = External(parseDate: (string, string) -> string, parseF32: string -> Option<real>)

  /** The date format `parse` passes on. */
  const DefaultDateFormat: string := "%d/%m/%Y"

  /** A header line: one starting with `!Type`. The file type is the text from its
      seventh character on (`line[6..]`), which needs the line to be at least six long. */
  predicate IsTypeLine(line: string) { StartsWith(line, "!Type") }

  /** What `parse_with_format` needs of its input not to panic: `line[6..]` exists for
      every header line. */
  predicate HeadersLongEnough(lines: seq<string>) {
    forall i :: 0 <= i < |lines| && IsTypeLine(lines[i]) ==> |lines[i]| >= 6
  }

  /** A line that `parse_line` reads: one starting with `T`, `U`, `P`, `L` or `D`. */
  predicate IsFieldLine(line: string) {
    IsAmountLine(line) || IsPayeeLine(line) || IsCategoryLine(line) || IsDateLine(line)
  }

  /** `empty_item`: the record a new record starts from. */
  function EmptyItem(): (item: QifItem)
    ensures item.date == "" && item.payee == "" && item.category == ""
    ensures item.amount == 0.0 && item.splits == []
  {
    QifItem("", 0.0, "", "", [])
  }

  /** The amount of a `T` or `U` line: the text after the tag, trimmed, read as a number;
      zero when it does not read as one. */
  function AmountOf(line: string, ext: External): (amount: real)
    requires |line| >= 1
    ensures ext.parseF32(Trim(line[1..])).Some? ==> amount == ext.parseF32(Trim(line[1..])).value
    ensures ext.parseF32(Trim(line[1..])).None? ==> amount == 0.0
  {
    ext.parseF32(Trim(line[1..])).GetOr(0.0)
  }

  /** The record `item` becomes once the lines `seg` are read into it: each field that
      `parse_line` sets takes its value from the LAST line of `seg` bearing its tag, and
      keeps its value when `seg` has no such line; `splits` is never touched. */
  function Assemble(item: QifItem, seg: seq<string>, fmt: string, ext: External): QifItem
  {
    var amountLine, payeeLine := LastWhere(seg, IsAmountLine), LastWhere(seg, IsPayeeLine);
    var categoryLine, dateLine := LastWhere(seg, IsCategoryLine), LastWhere(seg, IsDateLine);
    item.(
      amount := if amountLine.Some? then AmountOf(amountLine.value, ext) else item.amount,
      payee := if payeeLine.Some? then payeeLine.value[1..] else item.payee,
      category := if categoryLine.Some? then categoryLine.value[1..] else item.category,
      date := if dateLine.Some? then ext.parseDate(dateLine.value[1..], fmt) else item.date)
  }

  /** `parse_line`: the record after reading one line is the record after reading a
      one-line record, and a line with none of the five tags changes nothing. */
  method ParseLine(line: string, item: QifItem, fmt: string, ext: External) returns (updated: QifItem)
    ensures updated == Assemble(item, [line], fmt, ext)
    ensures !IsFieldLine(line) ==> updated == item
  {
    StartsWithTag(line, 'T');
    StartsWithTag(line, 'U');
    StartsWithTag(line, 'P');
    StartsWithTag(line, 'L');
    StartsWithTag(line, 'D');
    updated := item;
    if StartsWith(line, "T") || StartsWith(line, "U") {
      var amount := match ext.parseF32(Trim(line[1..])) case None => 0.0 case Some(v) => v;
      updated := updated.(amount := amount);
    }
    if StartsWith(line, "P") {
      updated := updated.(payee := line[1..]);
    }
    if StartsWith(line, "L") {
      updated := updated.(category := line[1..]);
    }
    if StartsWith(line, "D") {
      updated := updated.(date := ext.parseDate(line[1..], fmt));
    }
  }

  /** Reading a record in two parts is reading it whole. */
  lemma {:induction false} AssembleConcat(item: QifItem, first: seq<string>, second: seq<string>, fmt: string, ext: External)
    ensures Assemble(item, first + second, fmt, ext) == Assemble(Assemble(item, first, fmt, ext), second, fmt, ext)
  {
    if second == [] {
      assert first + second == first;
    } else {
      var n := |second| - 1;
      var line := second[n];
      AssembleConcat(item, first, second[..n], fmt, ext);
      assert first + second == (first + second[..n]) + [line];
      assert second == second[..n] + [line];
      AssembleStep(item, first + second[..n], line, fmt, ext);
      AssembleStep(Assemble(item, first, fmt, ext), second[..n], line, fmt, ext);
    }
  }

  lemma AssembleStep(item: QifItem, seg: seq<string>, line: string, fmt: string, ext: External)
    ensures Assemble(item, seg + [line], fmt, ext) == Assemble(Assemble(item, seg, fmt, ext), [line], fmt, ext)
  {
    LastWhereSnoc(seg, line, IsAmountLine);
    LastWhereSnoc(seg, line, IsPayeeLine);
    LastWhereSnoc(seg, line, IsCategoryLine);
    LastWhereSnoc(seg, line, IsDateLine);
    LastWhereSnoc([], line, IsAmountLine);
    LastWhereSnoc([], line, IsPayeeLine);
    LastWhereSnoc([], line, IsCategoryLine);
    LastWhereSnoc([], line, IsDateLine);
    assert [] + [line] == [line];
  }

  /** A later line of a tag overwrites an earlier one: each field of the record holds the
      value of the last line bearing its tag. */
  lemma LastLineWins(item: QifItem, seg: seq<string>, fmt: string, ext: External, j: nat)
    requires j < |seg|
    ensures IsAmountLine(seg[j]) && (forall i :: j < i < |seg| ==> !IsAmountLine(seg[i]))
            ==> Assemble(item, seg, fmt, ext).amount == AmountOf(seg[j], ext)
    ensures IsPayeeLine(seg[j]) && (forall i :: j < i < |seg| ==> !IsPayeeLine(seg[i]))
            ==> Assemble(item, seg, fmt, ext).payee == seg[j][1..]
    ensures IsCategoryLine(seg[j]) && (forall i :: j < i < |seg| ==> !IsCategoryLine(seg[i]))
            ==> Assemble(item, seg, fmt, ext).category == seg[j][1..]
    ensures IsDateLine(seg[j]) && (forall i :: j < i < |seg| ==> !IsDateLine(seg[i]))
            ==> Assemble(item, seg, fmt, ext).date == ext.parseDate(seg[j][1..], fmt)
  {
    if IsAmountLine(seg[j]) && (forall i :: j < i < |seg| ==> !IsAmountLine(seg[i])) {
      LastWhereAt(seg, IsAmountLine, j);
    }
    if IsPayeeLine(seg[j]) && (forall i :: j < i < |seg| ==> !IsPayeeLine(seg[i])) {
      LastWhereAt(seg, IsPayeeLine, j);
    }
    if IsCategoryLine(seg[j]) && (forall i :: j < i < |seg| ==> !IsCategoryLine(seg[i])) {
      LastWhereAt(seg, IsCategoryLine, j);
    }
    if IsDateLine(seg[j]) && (forall i :: j < i < |seg| ==> !IsDateLine(seg[i])) {
      LastWhereAt(seg, IsDateLine, j);
    }
  }

  /** The file type: the text after `!Type` and one more character on the last header
      line, or empty when there is none. */
  function FileTypeOf(lines: seq<string>): string
    requires HeadersLongEnough(lines)
  {
    var header := LastWhere(lines, IsTypeLine);
    if header.Some? then header.value[6..] else ""
  }

  /** The last header line sets the file type; with no header it stays empty. */
  lemma LastHeaderWins(lines: seq<string>, j: nat)
    requires HeadersLongEnough(lines) && j < |lines|
    ensures IsTypeLine(lines[j]) && (forall i :: j < i < |lines| ==> !IsTypeLine(lines[i]))
            ==> FileTypeOf(lines) == lines[j][6..]
    ensures (forall i :: 0 <= i < |lines| ==> !IsTypeLine(lines[i])) ==> FileTypeOf(lines) == ""
  {
    if IsTypeLine(lines[j]) && (forall i :: j < i < |lines| ==> !IsTypeLine(lines[i])) {
      LastWhereAt(lines, IsTypeLine, j);
    }
  }

  /** The records of a file: one per terminator, each read from an empty record through
      the lines of its segment. Nothing ever adds a split. */
  function ItemsOf(lines: seq<string>, fmt: string, ext: External): (items: seq<QifItem>)
    ensures |items| == |Segments(lines)|
    ensures forall k :: 0 <= k < |items| ==> items[k].splits == []
  {
    var segs := Segments(lines);
    seq(|segs|, k requires 0 <= k < |segs| => Assemble(EmptyItem(), segs[k], fmt, ext))
  }

  /** What `parse_with_format` returns for `content`. */
  function Parsed(content: string, fmt: string, ext: External): Qif
    requires HeadersLongEnough(Split(content, '\n'))
  {
    var lines := Split(content, '\n');
    Qif(FileTypeOf(lines), ItemsOf(lines, fmt, ext))
  }

  /** `parse_with_format`: split the text at each `\n`; a header line sets the file type,
      a terminator pushes the record being read and starts an empty one, and every line
      goes through `parse_line`. The record still open at the end is dropped. */
  method ParseWithFormat(content: string, fmt: string, ext: External) returns (q: Qif)
    requires HeadersLongEnough(Split(content, '\n'))
    ensures q == Parsed(content, fmt, ext)
  {
    var results: seq<QifItem> := [];
    var fileType := "";
    var current := EmptyItem();
    var lines := Split(content, '\n');
    for i := 0 to |lines|
      invariant HeadersLongEnough(lines[..i])
      invariant fileType == FileTypeOf(lines[..i])
      invariant results == ItemsOf(lines[..i], fmt, ext)
      invariant current == Assemble(EmptyItem(), Open(lines[..i]), fmt, ext)
    {
      var line := lines[i];
      HeaderStep(lines, i);
      RecordStep(lines, i, fmt, ext);
      if StartsWith(line, "!Type") {
        fileType := line[6..];
      }
      if StartsWith(line, "^") {
        results := results + [current];
        current := EmptyItem();
      }
      current := ParseLine(line, current, fmt, ext);
    }
    assert lines[..|lines|] == lines;
    q := Qif(fileType, results);
  }

  /** How the file type changes when the reader takes line `i` of `lines`. */
  lemma HeaderStep(lines: seq<string>, i: nat)
    requires i < |lines| && HeadersLongEnough(lines)
    ensures HeadersLongEnough(lines[..i]) && HeadersLongEnough(lines[..i + 1])
    ensures IsTypeLine(lines[i]) ==> |lines[i]| >= 6
    ensures FileTypeOf(lines[..i + 1]) == if StartsWith(lines[i], "!Type") then lines[i][6..] else FileTypeOf(lines[..i])
  {
    assert lines[..i + 1] == lines[..i] + [lines[i]];
    LastWhereSnoc(lines[..i], lines[i], IsTypeLine);
  }

  /** How the closed records and the open one change when the reader takes line `i`. */
  lemma RecordStep(lines: seq<string>, i: nat, fmt: string, ext: External)
    requires i < |lines|
    ensures ItemsOf(lines[..i + 1], fmt, ext)
            == if StartsWith(lines[i], "^") then ItemsOf(lines[..i], fmt, ext) + [Assemble(EmptyItem(), Open(lines[..i]), fmt, ext)]
               else ItemsOf(lines[..i], fmt, ext)
    ensures Assemble(EmptyItem(), Open(lines[..i + 1]), fmt, ext)
            == if StartsWith(lines[i], "^") then Assemble(EmptyItem(), [lines[i]], fmt, ext)
               else Assemble(Assemble(EmptyItem(), Open(lines[..i]), fmt, ext), [lines[i]], fmt, ext)
  {
    var prefix, line, longer := lines[..i], lines[i], lines[..i + 1];
    assert longer[..i] == prefix;
    assert longer[i] == line;
    StartsWithTag(line, '^');
    if IsTerminator(line) {
      assert Open(longer) == [];
      assert Segments(longer) == Segments(prefix) + [Open(prefix)];
      assert Assemble(EmptyItem(), [line], fmt, ext) == EmptyItem();
    } else {
      assert Open(longer) == Open(prefix) + [line];
      AssembleStep(EmptyItem(), Open(prefix), line, fmt, ext);
    }
  }

  /** `parse`: `parse_with_format` with the day/month/year format. */
  method Parse(content: string, ext: External) returns (q: Qif)
    requires HeadersLongEnough(Split(content, '\n'))
    ensures q == Parsed(content, DefaultDateFormat, ext)
  {
    q := ParseWithFormat(content, DefaultDateFormat, ext);
  }

  /** One record per line starting with `^`, in the order of those lines; record `k` is
      read from an empty record through exactly the lines strictly between terminator
      `k - 1` (or the start) and terminator `k`. */
  lemma ItemsBetweenTerminators(content: string, fmt: string, ext: External)
    requires HeadersLongEnough(Split(content, '\n'))
    ensures var lines := Split(content, '\n');
            var ts := Terminators(lines);
            var items := Parsed(content, fmt, ext).items;
            && |items| == |ts|
            && forall k :: 0 <= k < |items| ==>
                 SegmentStart(ts, k) <= ts[k] && items[k] == Assemble(EmptyItem(), lines[SegmentStart(ts, k)..ts[k]], fmt, ext)
  {
    var lines := Split(content, '\n');
    SegmentCount(lines);
    forall k | 0 <= k < |Terminators(lines)|
      ensures var ts := Terminators(lines);
              SegmentStart(ts, k) <= ts[k] && Segments(lines)[k] == lines[SegmentStart(ts, k)..ts[k]]
    {
      SegmentBetweenTerminators(lines, k);
    }
  }

  /** Text after the last terminator never becomes a record: appending lines none of
      which starts with `^` leaves the records as they were. In particular a file whose
      last record lacks its `^` line loses that record. */
  lemma UnterminatedTailDiscarded(content: string, tail: string, fmt: string, ext: External)
    requires HeadersLongEnough(Split(content, '\n')) && HeadersLongEnough(Split(tail, '\n'))
    requires forall i :: 0 <= i < |Split(tail, '\n')| ==> !IsTerminator(Split(tail, '\n')[i])
    ensures HeadersLongEnough(Split(content + "\n" + tail, '\n'))
    ensures Parsed(content + "\n" + tail, fmt, ext).items == Parsed(content, fmt, ext).items
  {
    var lines, tailLines := Split(content, '\n'), Split(tail, '\n');
    SplitAppend(content, tail, '\n');
    assert Split(content + "\n" + tail, '\n') == lines + tailLines;
    HeadersConcat(lines, tailLines);
    UnterminatedTailIgnored(lines, tailLines);
  }

  lemma HeadersConcat(lines: seq<string>, more: seq<string>)
    requires HeadersLongEnough(lines) && HeadersLongEnough(more)
    ensures HeadersLongEnough(lines + more)
  {
    forall i | 0 <= i < |lines + more| && IsTypeLine((lines + more)[i]) ensures |(lines + more)[i]| >= 6 {
      if i >= |lines| {
        assert (lines + more)[i] == more[i - |lines|];
      }
    }
  }

  /** The bank file of the tests, read by `parse_with_format`: file type `Bank` and three
      records carrying each record's payee, date and amount lines. */
  lemma SampleParsed(fmt: string, ext: External)
    ensures HeadersLongEnough(Split(SampleText, '\n'))
    ensures var q := Parsed(SampleText, fmt, ext);
            && q.fileType == "Bank" && |q.items| == 3
            && q.items[0] == QifItem(ext.parseDate("03/03/10", fmt), AmountOf("T-379.00", ext), "CITY OF SPRINGFIELD", "", [])
            && q.items[1] == QifItem(ext.parseDate("03/04/10", fmt), AmountOf("T-20.28", ext), "YOUR LOCAL SUPERMARKET", "", [])
            && q.items[2] == QifItem(ext.parseDate("03/03/10", fmt), AmountOf("T-421.35", ext), "SPRINGFIELD WATER UTILITY", "", [])
  {
    SampleLinesOf();
    SampleHeader();
    SampleItems(fmt, ext);
  }

  lemma SampleItems(fmt: string, ext: External)
    ensures ItemsOf(SampleLines, fmt, ext) == [
              QifItem(ext.parseDate("03/03/10", fmt), AmountOf("T-379.00", ext), "CITY OF SPRINGFIELD", "", []),
              QifItem(ext.parseDate("03/04/10", fmt), AmountOf("T-20.28", ext), "YOUR LOCAL SUPERMARKET", "", []),
              QifItem(ext.parseDate("03/03/10", fmt), AmountOf("T-421.35", ext), "SPRINGFIELD WATER UTILITY", "", [])]
  {
    SampleRecords();
    ItemsOfThree(SampleLines, FirstRecord, SecondRecord, ThirdRecord, fmt, ext);
    SampleFirstRecord(fmt, ext);
    SampleSecondRecord(fmt, ext);
    SampleThirdRecord(fmt, ext);
  }

  /** Three closed records make three items, each read from its own record. */
  lemma ItemsOfThree(lines: seq<string>, a: seq<string>, b: seq<string>, c: seq<string>, fmt: string, ext: External)
    requires Segments(lines) == [a, b, c]
    ensures ItemsOf(lines, fmt, ext) == [Assemble(EmptyItem(), a, fmt, ext), Assemble(EmptyItem(), b, fmt, ext), Assemble(EmptyItem(), c, fmt, ext)]
  {
  }

  lemma SampleHeader()
    ensures HeadersLongEnough(SampleLines) && FileTypeOf(SampleLines) == "Bank"
  {
    var lines := SampleLines;
    forall i | 0 < i < |lines| ensures !IsTypeLine(lines[i]) {
      if IsTypeLine(lines[i]) {
        StartsWithHead(lines[i], "!Type");
      }
    }
    LastWhereAt(lines, IsTypeLine, 0);
  }

  lemma SampleFirstRecord(fmt: string, ext: External)
    ensures Assemble(EmptyItem(), FirstRecord, fmt, ext)
            == QifItem(ext.parseDate("03/03/10", fmt), AmountOf("T-379.00", ext), "CITY OF SPRINGFIELD", "", [])
  {
    var rec := FirstRecord;
    assert rec == rec[..1] + [rec[1], rec[2], rec[3]];
    assert !IsFieldLine(rec[0]);
    ThreeLineRecord(rec[..1], rec[1], rec[2], rec[3], fmt, ext);
    assert rec[1][1..] == "03/03/10";
    assert rec[3][1..] == "CITY OF SPRINGFIELD";
  }

  lemma SampleSecondRecord(fmt: string, ext: External)
    ensures Assemble(EmptyItem(), SecondRecord, fmt, ext)
            == QifItem(ext.parseDate("03/04/10", fmt), AmountOf("T-20.28", ext), "YOUR LOCAL SUPERMARKET", "", [])
  {
    var rec := SecondRecord;
    assert rec == [] + [rec[0], rec[1], rec[2]];
    ThreeLineRecord([], rec[0], rec[1], rec[2], fmt, ext);
    assert rec[0][1..] == "03/04/10";
    assert rec[2][1..] == "YOUR LOCAL SUPERMARKET";
  }

  lemma SampleThirdRecord(fmt: string, ext: External)
    ensures Assemble(EmptyItem(), ThirdRecord, fmt, ext)
            == QifItem(ext.parseDate("03/03/10", fmt), AmountOf("T-421.35", ext), "SPRINGFIELD WATER UTILITY", "", [])
  {
    var rec := ThirdRecord;
    assert rec == [] + [rec[0], rec[1], rec[2]];
    ThreeLineRecord([], rec[0], rec[1], rec[2], fmt, ext);
    assert rec[0][1..] == "03/03/10";
    assert rec[2][1..] == "SPRINGFIELD WATER UTILITY";
  }

  /** A record of the sample's shape: lines `parse_line` ignores, then a date line, an
      amount line and a payee line. */
  lemma ThreeLineRecord(ignored: seq<string>, dateLine: string, amountLine: string, payeeLine: string, fmt: string, ext: External)
    requires forall i :: 0 <= i < |ignored| ==> !IsFieldLine(ignored[i])
    requires HasTag(dateLine, 'D') && HasTag(amountLine, 'T') && HasTag(payeeLine, 'P')
    ensures Assemble(EmptyItem(), ignored + [dateLine, amountLine, payeeLine], fmt, ext)
            == QifItem(ext.parseDate(dateLine[1..], fmt), AmountOf(amountLine, ext), payeeLine[1..], "", [])
  {
    var rec := ignored + [dateLine, amountLine, payeeLine];
    var n := |ignored|;
    assert rec[n] == dateLine && rec[n + 1] == amountLine && rec[n + 2] == payeeLine;
    assert forall i :: 0 <= i < |rec| ==> !IsCategoryLine(rec[i]);
    LastWhereAt(rec, IsDateLine, n);
    LastWhereAt(rec, IsAmountLine, n + 1);
    LastWhereAt(rec, IsPayeeLine, n + 2);
  }
}
