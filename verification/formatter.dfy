/** Table and string formatting of the command-line output (internal/output/formatter.go). */
module Formatter {
  import opened Text

  const Ellipsis: string := "..."

  function Max0(n: int): nat {
    if n < 0 then 0 else n
  }

  /** How many leading characters of a too-long string survive truncation to `maxLen`:
      all `maxLen` when there is no room for an ellipsis, else `maxLen - 3`. */
  function KeptPrefix(maxLen: int): nat {
    if maxLen <= 3 then Max0(maxLen) else maxLen - 3
  }

  /** `TruncateString`: cuts `s` to at most `maxLen` characters (runes, not bytes),
      marking the cut with "..." when `maxLen` leaves room for it. */
  function TruncateString(s: string, maxLen: int): (r: string)
    // never longer than the room given; nothing at all for a non-positive room
    ensures |r| <= Max0(maxLen)
    // a string that fits is returned unchanged
    ensures 0 < maxLen && |s| <= maxLen ==> r == s
    // a string that does not fit is cut to exactly `maxLen` characters ...
    ensures |s| > maxLen > 0 ==> |r| == maxLen
    // ... keeping its first KeptPrefix(maxLen) characters ...
    ensures |s| > maxLen ==> r[..KeptPrefix(maxLen)] == s[..KeptPrefix(maxLen)]
    // ... followed by "..." exactly when maxLen > 3
    ensures |s| > maxLen ==> r[KeptPrefix(maxLen)..] == (if maxLen > 3 then Ellipsis else "")
  {
    if maxLen <= 0 then ""
    else if |s| <= maxLen then s
    else if maxLen <= 3 then s[..maxLen]
    else s[..maxLen - 3] + Ellipsis
  }

  /** Truncation is idempotent: a truncated string already fits. */
  lemma TruncateIdempotent(s: string, maxLen: int)
    ensures TruncateString(TruncateString(s, maxLen), maxLen) == TruncateString(s, maxLen)
  {
  }

  /** Go's `strings.ReplaceAll(s, string(a), string(b))` for one-character strings. */
  function ReplaceChar(s: string, a: char, b: char): (r: string)
    ensures |r| == |s|
    ensures forall i :: 0 <= i < |s| ==> r[i] == (if s[i] == a then b else s[i])
  {
    if |s| == 0 then "" else [if s[0] == a then b else s[0]] + ReplaceChar(s[1..], a, b)
  }

  /** The string `FormatMultilineString` hands to `TruncateString`: line breaks
      replaced by spaces, then the white-space separated fields joined by single spaces. */
  function CollapseWhitespace(s: string): (c: string)
    // single inner spaces only: no line break, no tab, no leading, trailing or repeated space
    ensures Normalized(c)
    // every non-space character of the input is kept, in order, and nothing else
    ensures Strip(c) == Strip(s)
    // empty exactly for empty or white-space-only input
    ensures c == "" <==> AllSpace(s)
    // the line-break replacements make no difference: the input's own fields joined by single spaces
    ensures c == Join(Fields(s), " ")
  {
    var c := Join(Fields(ReplaceChar(ReplaceChar(s, '\n', ' '), '\r', ' ')), " ");
    CollapseIsJoinOfFields(s);
    JoinWordsNormalized(Fields(s));
    StripJoinOfWords(Fields(s));
    ConcatFields(s);
    StripEmptyIffAllSpace(s);
    assert c == "" <==> Fields(s) == [] by {
      if Fields(s) != [] {
        JoinOfWords(Fields(s));
      }
    }
    c
  }

  /** `FormatMultilineString`: a single-line rendering of `s` in at most `maxLen` characters. */
  function FormatMultilineString(s: string, maxLen: int): (r: string)
    ensures |r| <= Max0(maxLen)
    ensures forall i :: 0 <= i < |r| ==> r[i] != '\n' && r[i] != '\r'
    ensures AllSpace(s) ==> r == ""
    ensures |CollapseWhitespace(s)| <= maxLen ==> r == CollapseWhitespace(s)
    // collapsed text that does not fit is truncated like any other string
    ensures r == TruncateString(CollapseWhitespace(s), maxLen)
  {
    var c := CollapseWhitespace(s);
    NormalizedHasNoLineBreak(c);
    TruncateString(c, maxLen)
  }

  lemma NormalizedHasNoLineBreak(c: string)
    requires Normalized(c)
    ensures forall i :: 0 <= i < |c| ==> c[i] != '\n' && c[i] != '\r'
  {
    forall i | 0 <= i < |c| ensures c[i] != '\n' && c[i] != '\r' {
      if IsSpace(c[i]) {
        assert c[i] == ' ';
      }
    }
  }

  /** Collapsing is idempotent: its output is already collapsed. */
  lemma {:induction false} CollapseIdempotent(s: string)
    ensures CollapseWhitespace(CollapseWhitespace(s)) == CollapseWhitespace(s)
  {
    var ws := Fields(s);
    CollapseIsJoinOfFields(s);
    CollapseIsJoinOfFields(Join(ws, " "));
    FieldsOfJoin(ws);
  }

  lemma CollapseIsJoinOfFields(s: string)
    ensures Join(Fields(ReplaceChar(ReplaceChar(s, '\n', ' '), '\r', ' ')), " ") == Join(Fields(s), " ")
  {
    FieldsReplaceSpace(s, '\n');
    FieldsReplaceSpace(ReplaceChar(s, '\n', ' '), '\r');
  }

  /** Replacing one white-space character by ' ' does not change the fields. */
  lemma {:induction false} FieldsReplaceSpace(s: string, a: char)
    requires IsSpace(a)
    ensures Fields(ReplaceChar(s, a, ' ')) == Fields(s)
    decreases |s|
  {
    var t := ReplaceChar(s, a, ' ');
    if |s| > 0 {
      if IsSpace(s[0]) {
        assert t[1..] == ReplaceChar(s[1..], a, ' ');
        FieldsReplaceSpace(s[1..], a);
      } else {
        FieldsReplaceSpace(s[WordLen(s)..], a);
        FieldsReplaceAfterWord(s, a);
      }
    }
  }

  /** The step of `FieldsReplaceSpace` over a leading word, given the rest. */
  lemma FieldsReplaceAfterWord(s: string, a: char)
    requires IsSpace(a) && |s| > 0 && !IsSpace(s[0])
    requires Fields(ReplaceChar(s[WordLen(s)..], a, ' ')) == Fields(s[WordLen(s)..])
    ensures Fields(ReplaceChar(s, a, ' ')) == Fields(s)
  {
    var t := ReplaceChar(s, a, ' ');
    var n := WordLen(s);
    WordLenAgrees(s, t);
    assert t[..n] == s[..n];
    assert t[n..] == ReplaceChar(s[n..], a, ' ');
  }

  lemma WordLenAgrees(s: string, t: string)
    requires |s| == |t|
    requires forall i :: 0 <= i < |s| ==> (IsSpace(s[i]) <==> IsSpace(t[i]))
    ensures WordLen(s) == WordLen(t)
    decreases |s|
  {
    if |s| > 0 {
      WordLenAgrees(s[1..], t[1..]);
    }
  }

  lemma StripEmptyIffAllSpace(s: string)
    ensures Strip(s) == "" <==> AllSpace(s)
    decreases |s|
  {
    if |s| > 0 {
      StripEmptyIffAllSpace(s[1..]);
    }
  }

  // ---------------------------------------------------------------------------
  // Table

  /** The rows and headers of a table; column alignment is the tab writer's job. */
  datatype Table = Table(headers: seq<string>, rows: seq<seq<string>>)

  function NewTable(headers: seq<string>): (t: Table)
    ensures t.headers == headers && t.rows == []
  {
    Table(headers, [])
  }

  /** `AddRow`: appends one row at the end and leaves the headers and earlier rows alone. */
  function AddRow(t: Table, row: seq<string>): (t': Table)
    ensures t'.headers == t.headers
    ensures |t'.rows| == |t.rows| + 1
    ensures t'.rows[..|t.rows|] == t.rows && t'.rows[|t.rows|] == row
  {
    t.(rows := t.rows + [row])
  }

  /** One dash per byte of each header (Go's `len` counts bytes). */
  function SeparatorCells(headers: seq<string>): (cells: seq<string>)
    ensures |cells| == |headers|
    ensures forall i :: 0 <= i < |headers| ==> cells[i] == Repeat('-', ByteLen(headers[i]))
  {
    if |headers| == 0 then [] else [Repeat('-', ByteLen(headers[0]))] + SeparatorCells(headers[1..])
  }

  function RowLines(rows: seq<seq<string>>): (ls: seq<string>)
    ensures |ls| == |rows|
    ensures forall k :: 0 <= k < |rows| ==> ls[k] == Join(rows[k], "\t")
  {
    if |rows| == 0 then [] else [Join(rows[0], "\t")] + RowLines(rows[1..])
  }

  /** The tab-separated lines `PrintTo` hands to the tab writer: the header line, the
      separator line, then one line per row in insertion order. */
  function Lines(t: Table): (ls: seq<string>)
    ensures |ls| == 2 + |t.rows|
    ensures ls[0] == Join(t.headers, "\t")
    ensures ls[1] == Join(SeparatorCells(t.headers), "\t")
    ensures forall k :: 0 <= k < |t.rows| ==> ls[2 + k] == Join(t.rows[k], "\t")
  {
    [Join(t.headers, "\t"), Join(SeparatorCells(t.headers), "\t")] + RowLines(t.rows)
  }

  /** Adding a row adds exactly its line at the end of the printed table. */
  lemma AddRowAppendsLine(t: Table, row: seq<string>)
    ensures Lines(AddRow(t, row)) == Lines(t) + [Join(row, "\t")]
  {
    var a, b := Lines(AddRow(t, row)), Lines(t) + [Join(row, "\t")];
    forall k | 0 <= k < |a| ensures a[k] == b[k] {
      if k < 2 + |t.rows| {
        assert b[k] == Lines(t)[k];
      }
    }
  }

  /** An empty table still prints its header and separator lines. */
  lemma EmptyTablePrintsHeader(headers: seq<string>)
    ensures Lines(NewTable(headers)) == [Join(headers, "\t"), Join(SeparatorCells(headers), "\t")]
  {
  }

  /** The pinned examples of TruncateString, rune-aware on multi-byte text. */
  lemma TruncateExamples()
    ensures TruncateString("hello world", 8) == "hello..."
    ensures TruncateString("hello", 2) == "he"
    ensures TruncateString("hello", 3) == "hel"
    ensures TruncateString("hello", 5) == "hello"
    ensures TruncateString("hello", -2) == ""
    // the accents are combining marks (U+0301): each counts as a rune of its own
    ensures TruncateString("cafe\U{0301} re\U{0301}sume\U{0301}", 8) == "cafe\U{0301}..."
    ensures TruncateString("多言語サポート対応", 6) == "多言語..."
  {
  }
}
