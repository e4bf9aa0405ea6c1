/** The three-record bank file `qif_content` that `test_parsing_builder` of
    src/transaction.rs reads, and how it splits into lines and records. */
module Sample {
  import opened Text
  import opened Tags
  import opened Records

  const FirstRecord: seq<string> := ["!Type:Bank", "D03/03/10", "T-379.00", "PCITY OF SPRINGFIELD"]
  const SecondRecord: seq<string> := ["D03/04/10", "T-20.28", "PYOUR LOCAL SUPERMARKET"]
  const ThirdRecord: seq<string> := ["D03/03/10", "T-421.35", "PSPRINGFIELD WATER UTILITY"]

  const SampleLines: seq<string> := FirstRecord + ["^"] + SecondRecord + ["^"] + ThirdRecord + ["^"]

  /** The file as one text, as the tests spell it: the thirteen lines joined by `\n`,
      with no newline after the last `^`. */
  const SampleText: string := Join(SampleLines, '\n')

  /** Both ways of cutting the text into lines (`split("\n")` and `lines()`) give the
      thirteen lines. */
  lemma SampleLinesOf()
    ensures Split(SampleText, '\n') == SampleLines
    ensures Lines(SampleText) == SampleLines
  {
    PlainRecords();
    var lines := SampleLines;
    assert forall i :: 0 <= i < |lines| ==> PlainLine(lines[i]) by {
      forall i | 0 <= i < |lines| ensures PlainLine(lines[i]) {
        if i < 4 {
          assert lines[i] == FirstRecord[i];
        } else if i < 5 {
          assert lines[i] == "^";
        } else if i < 8 {
          assert lines[i] == SecondRecord[i - 5];
        } else if i < 9 {
          assert lines[i] == "^";
        } else if i < 12 {
          assert lines[i] == ThirdRecord[i - 9];
        } else {
          assert lines[i] == "^";
        }
      }
    }
    SplitOfJoin(lines, '\n');
    LinesOfJoin(lines);
  }

  /** A line that joining with `\n` and cutting at `\n` or into `lines()` gives back:
      it holds no `\n` and does not end in `\r`. */
  predicate PlainLine(line: string) {
    '\n' !in line && StripCarriageReturn(line) == line
  }

  lemma PlainRecords()
    ensures forall i :: 0 <= i < |FirstRecord| ==> PlainLine(FirstRecord[i])
    ensures forall i :: 0 <= i < |SecondRecord| ==> PlainLine(SecondRecord[i])
    ensures forall i :: 0 <= i < |ThirdRecord| ==> PlainLine(ThirdRecord[i])
    ensures PlainLine("^")
  {
    PlainRecord(FirstRecord);
    PlainRecord(SecondRecord);
    PlainRecord(ThirdRecord);
  }

  lemma PlainRecord(record: seq<string>)
    requires record == FirstRecord || record == SecondRecord || record == ThirdRecord
    ensures forall i :: 0 <= i < |record| ==> PlainLine(record[i])
  {
  }

  /** The thirteen lines make three records, the `!Type` line belonging to the first,
      and leave nothing open. */
  lemma SampleRecords()
    ensures Segments(SampleLines) == [FirstRecord, SecondRecord, ThirdRecord]
    ensures Open(SampleLines) == []
  {
    assert forall i :: 0 <= i < |FirstRecord| ==> !IsTerminator(FirstRecord[i]);
    assert forall i :: 0 <= i < |SecondRecord| ==> !IsTerminator(SecondRecord[i]);
    assert forall i :: 0 <= i < |ThirdRecord| ==> !IsTerminator(ThirdRecord[i]);
    RecordAfterClosed([], FirstRecord, "^");
    assert [] + FirstRecord + ["^"] == FirstRecord + ["^"];
    RecordAfterClosed(FirstRecord + ["^"], SecondRecord, "^");
    RecordAfterClosed(FirstRecord + ["^"] + SecondRecord + ["^"], ThirdRecord, "^");
  }
}
