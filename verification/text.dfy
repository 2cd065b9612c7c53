/** The parts of Go's `strings`, `unicode` and `unicode/utf8` packages that the
    command-line client relies on, over strings taken as sequences of Unicode
    scalar values (a Go string holding valid UTF-8). */
module Text {

  /** Go's `unicode.IsSpace`: the Latin-1 spaces, then the Unicode White_Space
      code points above Latin-1. */
  predicate IsSpace(c: char) {
    || c == '\t' || c == '\n' || c == '\U{000B}' || c == '\U{000C}' || c == '\r' || c == ' '
    || c == '\U{0085}' || c == '\U{00A0}' || c == '\U{1680}'
    || ('\U{2000}' <= c && c <= '\U{200A}')
    || c == '\U{2028}' || c == '\U{2029}' || c == '\U{202F}' || c == '\U{205F}' || c == '\U{3000}'
  }

  predicate AllSpace(s: string) {
    forall i :: 0 <= i < |s| ==> IsSpace(s[i])
  }

  predicate NoSpace(s: string) {
    forall i :: 0 <= i < |s| ==> !IsSpace(s[i])
  }

  /** A field as `strings.Fields` returns it: non-empty, without white space. */
  predicate IsWord(w: string) {
    |w| > 0 && NoSpace(w)
  }

  predicate AllWords(ws: seq<string>) {
    forall k :: 0 <= k < |ws| ==> IsWord(ws[k])
  }

  // ---------------------------------------------------------------------------
  // strings.Fields and strings.Join

  /** Length of the longest white-space-free prefix of `s`. */
  function WordLen(s: string): (n: nat)
    ensures n <= |s|
    ensures NoSpace(s[..n])
    ensures n < |s| ==> IsSpace(s[n])
  {
    if |s| == 0 || IsSpace(s[0]) then 0 else 1 + WordLen(s[1..])
  }

  /** Go's `strings.Fields`: the maximal runs of non-space characters, in order. */
  function Fields(s: string): (ws: seq<string>)
    ensures AllWords(ws)
    decreases |s|
  {
    if |s| == 0 then []
    else if IsSpace(s[0]) then Fields(s[1..])
    else
      var n := WordLen(s);
      [s[..n]] + Fields(s[n..])
  }

  /** Go's `strings.Join`. */
  function Join(ws: seq<string>, sep: string): string {
    if |ws| == 0 then ""
    else if |ws| == 1 then ws[0]
    else ws[0] + sep + Join(ws[1..], sep)
  }

  /** Concatenation without separator. */
  function Concat(ws: seq<string>): string {
    if |ws| == 0 then "" else ws[0] + Concat(ws[1..])
  }

  /** The non-space characters of `s`, in order. */
  function Strip(s: string): (r: string)
    ensures NoSpace(r)
  {
    if |s| == 0 then ""
    else if IsSpace(s[0]) then Strip(s[1..])
    else [s[0]] + Strip(s[1..])
  }

  /** A string whose only white space is single ' ' characters strictly inside it:
      no other space character, no leading or trailing space, no run of spaces. */
  predicate Normalized(s: string) {
    forall i :: 0 <= i < |s| && IsSpace(s[i]) ==>
      s[i] == ' ' && 0 < i < |s| - 1 && !IsSpace(s[i + 1])
  }

  lemma {:induction false} FieldsOfAllSpace(s: string)
    requires AllSpace(s)
    ensures Fields(s) == []
    decreases |s|
  {
    if |s| > 0 {
      FieldsOfAllSpace(s[1..]);
    }
  }

  lemma {:induction false} JoinOfWords(ws: seq<string>)
    requires AllWords(ws) && |ws| > 0
    ensures var j := Join(ws, " ");
      |j| > 0 && !IsSpace(j[0]) && !IsSpace(j[|j| - 1]) && j[0] == ws[0][0]
  {
    if |ws| > 1 {
      JoinOfWords(ws[1..]);
      var rest := Join(ws[1..], " ");
      assert Join(ws, " ") == ws[0] + " " + rest;
    }
  }

  /** Joining fields with single spaces yields a normalized string. */
  lemma {:induction false} JoinWordsNormalized(ws: seq<string>)
    requires AllWords(ws)
    ensures Normalized(Join(ws, " "))
  {
    if |ws| == 1 {
      assert Join(ws, " ") == ws[0];
    } else if |ws| > 1 {
      JoinWordsNormalized(ws[1..]);
      JoinOfWords(ws[1..]);
      var w := ws[0];
      var rest := Join(ws[1..], " ");
      var j := w + " " + rest;
      assert Join(ws, " ") == j;
      forall i | 0 <= i < |j| && IsSpace(j[i])
        ensures j[i] == ' ' && 0 < i < |j| - 1 && !IsSpace(j[i + 1])
      {
        if i == |w| {
          assert j[i + 1] == rest[0];
        } else if i > |w| {
          assert j[i] == rest[i - |w| - 1];
          if i + 1 < |j| {
            assert j[i + 1] == rest[i - |w|];
          }
        }
      }
    }
  }

  lemma WordLenOfWordThenSpace(w: string, t: string)
    requires NoSpace(w)
    ensures WordLen(w + " " + t) == |w|
    decreases |w|
  {
    if |w| > 0 {
      assert (w + " " + t)[1..] == w[1..] + " " + t;
      WordLenOfWordThenSpace(w[1..], t);
    }
  }

  /** `strings.Fields` undoes `strings.Join(_, " ")` on fields. */
  lemma {:induction false} FieldsOfJoin(ws: seq<string>)
    requires AllWords(ws)
    ensures Fields(Join(ws, " ")) == ws
  {
    if |ws| == 1 {
      var w := ws[0];
      assert Join(ws, " ") == w;
      WordLenOfNoSpace(w);
      assert w[|w|..] == [];
      assert w[..|w|] == w;
    } else if |ws| > 1 {
      var w := ws[0];
      var rest := Join(ws[1..], " ");
      var j := w + " " + rest;
      assert Join(ws, " ") == j;
      WordLenOfWordThenSpace(w, rest);
      assert j[..|w|] == w;
      assert j[|w|..] == " " + rest;
      assert (" " + rest)[1..] == rest;
      FieldsOfJoin(ws[1..]);
      assert ws == [w] + ws[1..];
    }
  }

  lemma WordLenOfNoSpace(w: string)
    requires NoSpace(w)
    ensures WordLen(w) == |w|
    decreases |w|
  {
    if |w| > 0 {
      WordLenOfNoSpace(w[1..]);
    }
  }

  lemma StripAppend(a: string, b: string)
    ensures Strip(a + b) == Strip(a) + Strip(b)
    decreases |a|
  {
    if |a| > 0 {
      assert (a + b)[1..] == a[1..] + b;
      StripAppend(a[1..], b);
    } else {
      assert a + b == b;
    }
  }

  lemma StripOfNoSpace(w: string)
    requires NoSpace(w)
    ensures Strip(w) == w
    decreases |w|
  {
    if |w| > 0 {
      StripOfNoSpace(w[1..]);
      assert w == [w[0]] + w[1..];
    }
  }

  /** The fields of `s`, concatenated, are exactly the non-space characters of `s`. */
  lemma {:induction false} ConcatFields(s: string)
    ensures Concat(Fields(s)) == Strip(s)
    decreases |s|
  {
    if |s| > 0 {
      if IsSpace(s[0]) {
        ConcatFields(s[1..]);
      } else {
        var n := WordLen(s);
        ConcatFields(s[n..]);
        assert s == s[..n] + s[n..];
        StripAppend(s[..n], s[n..]);
        StripOfNoSpace(s[..n]);
        assert Fields(s) == [s[..n]] + Fields(s[n..]);
        assert ([s[..n]] + Fields(s[n..]))[1..] == Fields(s[n..]);
      }
    }
  }

  lemma {:induction false} StripJoinOfWords(ws: seq<string>)
    requires AllWords(ws)
    ensures Strip(Join(ws, " ")) == Concat(ws)
  {
    if |ws| == 1 {
      StripOfNoSpace(ws[0]);
      assert Concat(ws) == ws[0] + Concat([]);
    } else if |ws| > 1 {
      StripJoinOfWords(ws[1..]);
      var rest := Join(ws[1..], " ");
      StripAppend(ws[0] + " ", rest);
      StripAppend(ws[0], " ");
      StripOfNoSpace(ws[0]);
      assert Strip(" ") == "";
    }
  }

  // ---------------------------------------------------------------------------
  // strings.TrimSpace and strings.HasPrefix

  /** The index of the first non-space character at or after `k`, or |s| when there is none. */
  function SkipSpaces(s: string, k: nat): (e: nat)
    requires k <= |s|
    ensures k <= e <= |s|
    ensures forall m :: k <= m < e ==> IsSpace(s[m])
    ensures e < |s| ==> !IsSpace(s[e])
    decreases |s| - k
  {
    if k < |s| && IsSpace(s[k]) then SkipSpaces(s, k + 1) else k
  }

  /** The index just after the last non-space character in `s[lo..k]`, or `lo` when there is none. */
  function SkipSpacesBack(s: string, lo: nat, k: nat): (b: nat)
    requires lo <= k <= |s|
    ensures lo <= b <= k
    ensures forall m :: b <= m < k ==> IsSpace(s[m])
    ensures b > lo ==> !IsSpace(s[b - 1])
    decreases k
  {
    if k > lo && IsSpace(s[k - 1]) then SkipSpacesBack(s, lo, k - 1) else k
  }

  /** Go's `strings.TrimSpace`: `s` without its leading and trailing white space. */
  function TrimSpace(s: string): (r: string)
    ensures |r| <= |s|
    // a slice of `s` with only white space cut away before and after it
    ensures var i := SkipSpaces(s, 0);
      && i + |r| <= |s| && r == s[i..i + |r|]
      && (forall m :: 0 <= m < i ==> IsSpace(s[m]))
      && (forall m :: i + |r| <= m < |s| ==> IsSpace(s[m]))
    // no white space left at either end
    ensures |r| > 0 ==> !IsSpace(r[0]) && !IsSpace(r[|r| - 1])
    // empty exactly for empty or white-space-only input
    ensures r == "" <==> AllSpace(s)
  {
    var i := SkipSpaces(s, 0);
    var j := SkipSpacesBack(s, i, |s|);
    s[i..j]
  }

  /** Trimming is idempotent: a trimmed string has no white space at either end. */
  lemma TrimSpaceIdempotent(s: string)
    ensures TrimSpace(TrimSpace(s)) == TrimSpace(s)
  {
    var r := TrimSpace(s);
    if |r| > 0 {
      assert SkipSpaces(r, 0) == 0;
      assert SkipSpacesBack(r, 0, |r|) == |r|;
      assert r[0..|r|] == r;
    }
  }

  /** Skipping back over a run of white space and then on gives the same index. */
  lemma SkipSpacesBackOver(s: string, lo: nat, j: nat, k: nat)
    requires lo <= j <= k <= |s|
    requires forall m :: j <= m < k ==> IsSpace(s[m])
    ensures SkipSpacesBack(s, lo, k) == SkipSpacesBack(s, lo, j)
  {
  }

  /** Trailing white space after a trimmed string is trimmed away. */
  lemma TrimTrailingPadding(key: string, padding: string)
    requires TrimSpace(key) == key
    requires AllSpace(padding)
    ensures TrimSpace(key + padding) == key
  {
    var s := key + padding;
    if |key| == 0 {
      assert s == padding;
    } else {
      assert s[0] == key[0];
      assert SkipSpaces(s, 0) == 0;
      forall m | |key| <= m < |s| ensures IsSpace(s[m]) {
        assert s[m] == padding[m - |key|];
      }
      SkipSpacesBackOver(s, 0, |key|, |s|);
      assert s[|key| - 1] == key[|key| - 1];
      assert SkipSpacesBack(s, 0, |key|) == |key|;
      assert s[0..|key|] == key;
    }
  }

  /** Go's `strings.HasPrefix`. */
  predicate HasPrefix(s: string, prefix: string) {
    |prefix| <= |s| && s[..|prefix|] == prefix
  }

  /** Go's `strings.Contains`: `sub` occurs in `s` starting at some index. */
  predicate Contains(s: string, sub: string) {
    exists i :: 0 <= i <= |s| - |sub| && HasPrefix(s[i..], sub)
  }

  /** The end of a concatenation is contained in it. */
  lemma ContainsEnd(a: string, b: string)
    ensures Contains(a + b, b)
  {
    assert (a + b)[|a|..] == b;
  }

  /** A piece of a concatenation is contained in it. */
  lemma ContainsPiece(a: string, b: string, c: string, d: string)
    ensures Contains(a + b + c + d, b)
  {
    var s := a + b + c + d;
    assert s[|a|..][..|b|] == b by {
      forall k | 0 <= k < |b| ensures s[|a|..][..|b|][k] == b[k] {
        assert s[|a| + k] == b[k];
      }
    }
  }

  // ---------------------------------------------------------------------------
  // UTF-8 widths: Go's `len` on a string counts bytes, not characters.

  predicate IsAscii(c: char) {
    c < '\U{0080}'
  }

  /** Number of bytes of the UTF-8 encoding of `c` (`utf8.RuneLen`). */
  function Utf8Width(c: char): (w: nat)
    ensures 1 <= w <= 4
    ensures w == 1 <==> IsAscii(c)
  {
    if c < '\U{0080}' then 1
    else if c < '\U{0800}' then 2
    else if c < '\U{10000}' then 3
    else 4
  }

  /** Go's `len(s)`: the UTF-8 byte length. */
  function ByteLen(s: string): (n: nat)
    ensures |s| <= n <= 4 * |s|
  {
    if |s| == 0 then 0 else Utf8Width(s[0]) + ByteLen(s[1..])
  }

  lemma {:induction false} ByteLenOfAscii(s: string)
    requires forall i :: 0 <= i < |s| ==> IsAscii(s[i])
    ensures ByteLen(s) == |s|
  {
    if |s| > 0 {
      ByteLenOfAscii(s[1..]);
    }
  }

  /** Go's `strings.Repeat` of a one-character string. */
  function Repeat(c: char, n: nat): (r: string)
    ensures |r| == n && forall i :: 0 <= i < n ==> r[i] == c
  {
    seq(n, _ => c)
  }

  // ---------------------------------------------------------------------------
  // Decimal rendering, as `%d` prints an int.

  predicate IsDigit(c: char) {
    '0' <= c <= '9'
  }

  function DigitChar(d: nat): (c: char)
    requires d < 10
    ensures IsDigit(c)
  {
    "0123456789"[d]
  }

  function NatToDecimal(n: nat): (r: string)
    ensures |r| > 0 && forall i :: 0 <= i < |r| ==> IsDigit(r[i])
  {
    if n < 10 then [DigitChar(n)] else NatToDecimal(n / 10) + [DigitChar(n % 10)]
  }

  function IntToDecimal(n: int): string {
    if n < 0 then "-" + NatToDecimal(-n) else NatToDecimal(n)
  }
}
