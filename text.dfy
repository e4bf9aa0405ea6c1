/** The string operations of Rust's standard library that the parser relies on:
    `starts_with`, `split` on one character, `lines` and `trim`.
    Text is a sequence of characters. */
module Text {

  /** Rust's `str::starts_with` with a string pattern: `s` is `prefix` followed by
      something. */
  predicate StartsWith(s: string, prefix: string)
    ensures StartsWith(s, prefix) <==> exists rest :: s == prefix + rest
  {
    if |prefix| <= |s| && s[..|prefix|] == prefix then
      assert s == prefix + s[|prefix|..];
      true
    else
      false
  }

  /** `line` starts with the one-character tag `tag`. */
  predicate HasTag(line: string, tag: char) {
    |line| > 0 && line[0] == tag
  }

  /** Starting with a one-character string is having that character as tag. */
  lemma StartsWithTag(line: string, tag: char)
    ensures StartsWith(line, [tag]) <==> HasTag(line, tag)
  {
    if |line| > 0 && line[..1] == [tag] {
      assert line[..1][0] == line[0];
    }
  }

  /** Starting with a prefix means starting with its first character. */
  lemma StartsWithHead(s: string, prefix: string)
    requires |prefix| > 0 && StartsWith(s, prefix)
    ensures HasTag(s, prefix[0])
  {
    assert s[..|prefix|][0] == s[0];
  }

  /** The pieces of `s` between occurrences of `sep`, as Rust's `str::split` yields them:
      there is always at least one piece, no piece holds `sep`, and a separator at
      either end (or two in a row) yields an empty piece. */
  function Split(s: string, sep: char): (pieces: seq<string>)
    ensures |pieces| >= 1
    ensures forall i :: 0 <= i < |pieces| ==> sep !in pieces[i]
  {
    if s == [] then [[]]
    else
      var rest := Split(s[1..], sep);
      if s[0] == sep then [[]] + rest
      else [[s[0]] + rest[0]] + rest[1..]
  }

  /** The pieces put back together with `sep` between each two of them. */
  function Join(pieces: seq<string>, sep: char): string
    requires |pieces| >= 1
  {
    if |pieces| == 1 then pieces[0] else pieces[0] + [sep] + Join(pieces[1..], sep)
  }

  /** Splitting loses nothing: joining the pieces gives the text back. */
  lemma {:induction false} JoinOfSplit(s: string, sep: char)
    ensures Join(Split(s, sep), sep) == s
  {
    if s != [] {
      var rest := Split(s[1..], sep);
      JoinOfSplit(s[1..], sep);
      if s[0] != sep {
        if |rest| > 1 {
          assert rest[1..][0] == rest[1];
          assert Join(rest, sep) == rest[0] + [sep] + Join(rest[1..], sep);
        }
        assert [s[0]] + s[1..] == s;
      } else {
        assert [sep] + s[1..] == s;
      }
    }
  }

  /** One piece free of the separator, then the separator, splits off as that piece. */
  lemma {:induction false} SplitPiece(p: string, t: string, sep: char)
    requires sep !in p
    ensures Split(p + [sep] + t, sep) == [p] + Split(t, sep)
    ensures Split(p, sep) == [p]
  {
    if p == [] {
      assert [sep] + t == p + [sep] + t;
      assert ([sep] + t)[1..] == t;
    } else {
      SplitPiece(p[1..], t, sep);
      assert (p + [sep] + t)[1..] == p[1..] + [sep] + t;
      assert [p[0]] + p[1..] == p;
    }
  }

  /** Splitting undoes joining, when no piece holds the separator. */
  lemma {:induction false} SplitOfJoin(pieces: seq<string>, sep: char)
    requires |pieces| >= 1
    requires forall i :: 0 <= i < |pieces| ==> sep !in pieces[i]
    ensures Split(Join(pieces, sep), sep) == pieces
  {
    if |pieces| == 1 {
      SplitPiece(pieces[0], [], sep);
    } else {
      SplitOfJoin(pieces[1..], sep);
      SplitPiece(pieces[0], Join(pieces[1..], sep), sep);
      assert [pieces[0]] + pieces[1..] == pieces;
    }
  }

  /** Joining two non-empty runs of pieces is joining each and putting `sep` between. */
  lemma {:induction false} JoinAppend(xs: seq<string>, ys: seq<string>, sep: char)
    requires |xs| >= 1 && |ys| >= 1
    ensures Join(xs + ys, sep) == Join(xs, sep) + [sep] + Join(ys, sep)
  {
    if |xs| > 1 {
      JoinAppend(xs[1..], ys, sep);
      assert (xs + ys)[1..] == xs[1..] + ys;
    } else {
      assert (xs + ys)[1..] == ys;
    }
  }

  /** Text joined at a separator splits into the pieces of each part. */
  lemma {:induction false} SplitAppend(a: string, b: string, sep: char)
    ensures Split(a + [sep] + b, sep) == Split(a, sep) + Split(b, sep)
  {
    JoinOfSplit(a, sep);
    JoinOfSplit(b, sep);
    JoinAppend(Split(a, sep), Split(b, sep), sep);
    var pieces := Split(a, sep) + Split(b, sep);
    assert forall i :: 0 <= i < |pieces| ==> sep !in pieces[i] by {
      forall i | 0 <= i < |pieces| ensures sep !in pieces[i] {
        if i >= |Split(a, sep)| {
          assert pieces[i] == Split(b, sep)[i - |Split(a, sep)|];
        }
      }
    }
    SplitOfJoin(pieces, sep);
  }

  /** The line with one trailing carriage return removed, if it has one. */
  function StripCarriageReturn(p: string): string {
    if |p| > 0 && p[|p| - 1] == '\r' then p[..|p| - 1] else p
  }

  /** Rust's `str::lines`: the text split at each `\n`, with a `\r` just before a `\n`
      dropped and no empty line after a final `\n` (an empty text has no lines). */
  function Lines(s: string): (lines: seq<string>)
    ensures forall j :: 0 <= j < |lines| ==> '\n' !in lines[j]
  {
    var pieces := Split(s, '\n');
    var n := if pieces[|pieces| - 1] == [] then |pieces| - 1 else |pieces|;
    seq(n, j requires 0 <= j < n => if j < |pieces| - 1 then StripCarriageReturn(pieces[j]) else pieces[j])
  }

  /** Lines undoes joining with `\n`, for lines without `\n` or a trailing `\r` when the
      last line is not empty. */
  lemma {:induction false} LinesOfJoin(lines: seq<string>)
    requires |lines| >= 1 && lines[|lines| - 1] != []
    requires forall i :: 0 <= i < |lines| ==> '\n' !in lines[i] && StripCarriageReturn(lines[i]) == lines[i]
    ensures Lines(Join(lines, '\n')) == lines
  {
    var text := Join(lines, '\n');
    SplitOfJoin(lines, '\n');
    assert Split(text, '\n') == lines;
    var r := Lines(text);
    assert |r| == |lines|;
    forall j | 0 <= j < |lines| ensures r[j] == lines[j] {
      assert r[j] == if j < |lines| - 1 then StripCarriageReturn(lines[j]) else lines[j];
    }
  }

  /** The characters Rust's `char::is_whitespace` accepts (Unicode White_Space). */
  predicate IsWhitespace(c: char) {
    ('\t' <= c <= '\r') || c == ' ' || c == '\U{85}' || c == '\U{A0}' || c == '\U{1680}'
    || ('\U{2000}' <= c <= '\U{200A}') || c == '\U{2028}' || c == '\U{2029}'
    || c == '\U{202F}' || c == '\U{205F}' || c == '\U{3000}'
  }

  /** `s` without its leading whitespace: a suffix of `s`, all that was cut is whitespace,
      and what is left does not start with whitespace. */
  function TrimStart(s: string): (r: string)
    ensures |r| <= |s| && r == s[|s| - |r|..]
    ensures forall i :: 0 <= i < |s| - |r| ==> IsWhitespace(s[i])
    ensures r == [] || !IsWhitespace(r[0])
  {
    if s != [] && IsWhitespace(s[0]) then TrimStart(s[1..]) else s
  }

  /** `s` without its trailing whitespace: a prefix of `s`, all that was cut is whitespace,
      and what is left does not end with whitespace. */
  function TrimEnd(s: string): (r: string)
    ensures |r| <= |s| && r == s[..|r|]
    ensures forall i :: |r| <= i < |s| ==> IsWhitespace(s[i])
    ensures r == [] || !IsWhitespace(r[|r| - 1])
  {
    if s != [] && IsWhitespace(s[|s| - 1]) then TrimEnd(s[..|s| - 1]) else s
  }

  /** Rust's `str::trim`: the infix of `s` left after cutting whitespace from both ends. */
  function Trim(s: string): (r: string)
    ensures exists i, j ::
              && 0 <= i <= j <= |s| && r == s[i..j]
              && (forall k :: 0 <= k < i ==> IsWhitespace(s[k]))
              && (forall k :: j <= k < |s| ==> IsWhitespace(s[k]))
    ensures r == [] || (!IsWhitespace(r[0]) && !IsWhitespace(r[|r| - 1]))
  {
    var front := TrimStart(s);
    var r := TrimEnd(front);
    var i := |s| - |front|;
    assert r == s[i..i + |r|];
    r
  }
}
