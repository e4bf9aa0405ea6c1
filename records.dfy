/** How a QIF file's lines group into records. A line starting with `^` ends the record
    being read; the lines since the previous such line (or since the start of the file)
    are that record's lines. Both parsers of the system (`parse_with_format` and the
    builder loop of the transaction tests) group lines this way. */
module Records {
  import opened Wrappers
  import opened Text
  import opened Tags

  /** The record still open at the end of `lines`: the lines after the last terminator
      (OpenAfterLastTerminator). */
  function Open(lines: seq<string>): seq<string>
  {
    if lines == [] then []
    else
      var n := |lines| - 1;
      if IsTerminator(lines[n]) then [] else Open(lines[..n]) + [lines[n]]
  }

  /** The closed records of `lines`, one per terminator, in the order of their terminators:
      each holds the lines after the previous terminator and before its own. */
  function Segments(lines: seq<string>): seq<seq<string>>
  {
    if lines == [] then []
    else
      var n := |lines| - 1;
      if IsTerminator(lines[n]) then Segments(lines[..n]) + [Open(lines[..n])] else Segments(lines[..n])
  }

  /** The indices of the terminator lines, in increasing order, each exactly once. */
  function Terminators(lines: seq<string>): (ts: seq<nat>)
    ensures forall k :: 0 <= k < |ts| ==> ts[k] < |lines| && IsTerminator(lines[ts[k]])
    ensures forall k, m :: 0 <= k < m < |ts| ==> ts[k] < ts[m]
    ensures forall i :: 0 <= i < |lines| && IsTerminator(lines[i]) ==> i in ts
  {
    if lines == [] then []
    else
      var n := |lines| - 1;
      var prior := Terminators(lines[..n]);
      assert forall i :: 0 <= i < n ==> lines[..n][i] == lines[i];
      prior + if IsTerminator(lines[n]) then [n] else []
  }

  /** Where record `k` starts: at the beginning, or just after the previous terminator. */
  function SegmentStart(ts: seq<nat>, k: nat): nat
    requires k <= |ts|
  {
    if k == 0 then 0 else ts[k - 1] + 1
  }

  /** There is one closed record per terminator. */
  lemma {:induction false} SegmentCount(lines: seq<string>)
    ensures |Segments(lines)| == |Terminators(lines)|
  {
    if lines != [] {
      SegmentCount(lines[..|lines| - 1]);
    }
  }

  /** The open record is exactly the lines after the last terminator (all lines when
      there is none). */
  lemma {:induction false} OpenAfterLastTerminator(lines: seq<string>)
    ensures var ts := Terminators(lines);
            SegmentStart(ts, |ts|) <= |lines| && Open(lines) == lines[SegmentStart(ts, |ts|)..]
  {
    if lines != [] {
      var n := |lines| - 1;
      var prefix := lines[..n];
      OpenAfterLastTerminator(prefix);
      var ts, pts := Terminators(lines), Terminators(prefix);
      if IsTerminator(lines[n]) {
        assert ts == pts + [n];
      } else {
        assert ts == pts;
        var start := SegmentStart(pts, |pts|);
        SliceOfPrefix(lines, n, start, n);
        assert lines[start..] == lines[start..n] + [lines[n]];
      }
    }
  }

  /** Closed record `k` is exactly the lines strictly between terminator `k - 1` (or the
      start of the file) and terminator `k`. */
  lemma {:induction false} SegmentBetweenTerminators(lines: seq<string>, k: nat)
    requires k < |Terminators(lines)|
    ensures var ts := Terminators(lines);
            && k < |Segments(lines)| && SegmentStart(ts, k) <= ts[k]
            && Segments(lines)[k] == lines[SegmentStart(ts, k)..ts[k]]
  {
    var n := |lines| - 1;
    var prefix := lines[..n];
    var ts, pts := Terminators(lines), Terminators(prefix);
    SegmentCount(lines);
    SegmentCount(prefix);
    if k < |pts| {
      SegmentBetweenTerminators(prefix, k);
      assert ts[k] == pts[k];
      assert k > 0 ==> ts[k - 1] == pts[k - 1];
      assert Segments(lines)[k] == Segments(prefix)[k];
      SliceOfPrefix(lines, n, SegmentStart(pts, k), pts[k]);
    } else {
      assert IsTerminator(lines[n]) && ts == pts + [n];
      OpenAfterLastTerminator(prefix);
      assert SegmentStart(ts, k) == SegmentStart(pts, |pts|);
      SliceOfPrefix(lines, n, SegmentStart(pts, |pts|), n);
    }
  }

  lemma SliceOfPrefix(lines: seq<string>, n: nat, a: nat, b: nat)
    requires a <= b <= n <= |lines|
    ensures lines[..n][a..b] == lines[a..b]
  {
  }

  /** Lines after the last terminator never make a record: appending lines free of
      terminators leaves the closed records as they were and only grows the open one. */
  lemma {:induction false} UnterminatedTailIgnored(lines: seq<string>, tail: seq<string>)
    requires forall i :: 0 <= i < |tail| ==> !IsTerminator(tail[i])
    ensures Segments(lines + tail) == Segments(lines)
    ensures Open(lines + tail) == Open(lines) + tail
  {
    if tail == [] {
      assert lines + tail == lines;
    } else {
      var n := |tail| - 1;
      var shorter := lines + tail[..n];
      UnterminatedTailIgnored(lines, tail[..n]);
      assert tail == tail[..n] + [tail[n]];
      assert lines + tail == shorter + [tail[n]];
      assert (shorter + [tail[n]])[..|shorter|] == shorter;
    }
  }

  /** Lines without a terminator are all still open. */
  lemma OpenWithoutTerminators(lines: seq<string>)
    requires forall i :: 0 <= i < |lines| ==> !IsTerminator(lines[i])
    ensures Open(lines) == lines && Segments(lines) == []
  {
    UnterminatedTailIgnored([], lines);
    assert [] + lines == lines;
  }

  /** A terminator closes the open record: it becomes the last closed one. */
  lemma CloseRecord(lines: seq<string>, terminator: string)
    requires IsTerminator(terminator)
    ensures Segments(lines + [terminator]) == Segments(lines) + [Open(lines)]
    ensures Open(lines + [terminator]) == []
  {
    assert (lines + [terminator])[..|lines|] == lines;
  }

  /** After a closed record, a run of lines and a terminator add exactly one record: that run. */
  lemma RecordAfterClosed(lines: seq<string>, record: seq<string>, terminator: string)
    requires Open(lines) == [] && IsTerminator(terminator)
    requires forall i :: 0 <= i < |record| ==> !IsTerminator(record[i])
    ensures Segments(lines + record + [terminator]) == Segments(lines) + [record]
    ensures Open(lines + record + [terminator]) == []
  {
    UnterminatedTailIgnored(lines, record);
    CloseRecord(lines + record, terminator);
    assert Open(lines + record) == record;
  }

  /** The last line of `lines` that satisfies `wanted`, if any. */
  function LastWhere(lines: seq<string>, wanted: string -> bool): (r: Option<string>)
    ensures r.None? <==> forall i :: 0 <= i < |lines| ==> !wanted(lines[i])
    ensures r.Some? ==> wanted(r.value) && exists j :: && 0 <= j < |lines| && lines[j] == r.value
                                                       && forall i :: j < i < |lines| ==> !wanted(lines[i])
  {
    if lines == [] then None
    else
      var n := |lines| - 1;
      assert forall i :: 0 <= i < n ==> lines[..n][i] == lines[i];
      if wanted(lines[n]) then Some(lines[n]) else LastWhere(lines[..n], wanted)
  }

  /** The line at `j` is what LastWhere finds when no later line is wanted. */
  lemma {:induction false} LastWhereAt(lines: seq<string>, wanted: string -> bool, j: nat)
    requires j < |lines| && wanted(lines[j])
    requires forall i :: j < i < |lines| ==> !wanted(lines[i])
    ensures LastWhere(lines, wanted) == Some(lines[j])
  {
    var n := |lines| - 1;
    if j < n {
      LastWhereAt(lines[..n], wanted, j);
    }
  }

  /** One more line: it is the last wanted line if it is wanted, else nothing changes. */
  lemma LastWhereSnoc(lines: seq<string>, line: string, wanted: string -> bool)
    ensures LastWhere(lines + [line], wanted) == if wanted(line) then Some(line) else LastWhere(lines, wanted)
  {
    assert (lines + [line])[..|lines|] == lines;
  }
}
