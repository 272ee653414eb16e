/** Whitespace between tokens does not matter: inserting whitespace where the
    driver loop's cursor stops leaves the token stream unchanged. Two facts
    about one scanner call carry the proof. It reads only the text from the
    cursor on, so equal suffixes give equal tokens. And it reads only its own
    token and the one character after it, which whitespace always ends. */
module Spacing {
  import opened CharClass
  import opened Tokens
  import opened ScanSpec
  import opened Driver

  predicate AllSpace(w: string)
  {
    forall k :: 0 <= k < |w| ==> IsSpace(w[k])
  }

  /** The buffer `s` with the whitespace `w` inserted at position `e`. */
  function InsertAt(s: CString, e: nat, w: string): (t: CString)
    requires e <= |s| && AllSpace(w)
    ensures |t| == |s| + |w|
    ensures forall k :: 0 <= k < e ==> t[k] == s[k]
    ensures forall k :: 0 <= k < |w| ==> t[e + k] == w[k]
    ensures t[e + |w|..] == s[e..]
  {
    assert forall k :: 0 <= k < |w| ==> w[k] != '\0';
    assert '\0' !in s[..e] && '\0' !in s[e..] by {
      assert forall c :: c in s[..e] ==> c in s;
      assert forall c :: c in s[e..] ==> c in s;
    }
    s[..e] + w + s[e..]
  }

  /** `e` is a cursor position the driver loop holds when it starts from `i`:
      `i` itself, or a position reached by scanning token after token. */
  predicate Reaches(s: CString, i: nat, e: nat)
    requires i <= e <= |s|
    decreases |s| - i
  {
    i == e || (i < e && Scan(s, i).next <= e && Reaches(s, Scan(s, i).next, e))
  }

  // ------------------------------------------------- a scan reads forward only

  /** A run end depends only on the text from the run's start on. */
  lemma {:induction false} RunEndShift(s: CString, i: nat, t: CString, j: nat, p: char -> bool)
    requires i <= |s| && j <= |t| && s[i..] == t[j..]
    ensures RunEnd(t, j, p) - j == RunEnd(s, i, p) - i
    decreases |s| - i
  {
    assert |s| - i == |t| - j;
    if i < |s| {
      assert s[i] == s[i..][0] == t[j..][0] == t[j];
      assert s[i + 1..] == s[i..][1..] && t[j + 1..] == t[j..][1..];
      RunEndShift(s, i + 1, t, j + 1, p);
    }
  }

  /** Equal suffixes have equal slices at equal offsets. */
  lemma SliceShift(s: CString, b: nat, t: CString, c: nat, n: nat)
    requires b + n <= |s| && c <= |t| && s[b..] == t[c..]
    ensures c + n <= |t| && s[b..b + n] == t[c..c + n]
  {
    assert s[b..b + n] == s[b..][..n];
    assert t[c..c + n] == t[c..][..n];
  }

  /** A run, its text and the character that stops it depend only on the
      text from the run's start on. */
  lemma RunSliceShift(s: CString, b: nat, t: CString, c: nat, p: char -> bool)
    requires b <= |s| && c <= |t| && s[b..] == t[c..]
    ensures RunEnd(t, c, p) - c == RunEnd(s, b, p) - b
    ensures t[c..RunEnd(t, c, p)] == s[b..RunEnd(s, b, p)]
    ensures RunEnd(s, b, p) < |s| ==> t[RunEnd(t, c, p)] == s[RunEnd(s, b, p)]
  {
    RunEndShift(s, b, t, c, p);
    var e := RunEnd(s, b, p);
    SliceShift(s, b, t, c, e - b);
    if e < |s| {
      assert s[e] == s[b..][e - b] == t[c..][e - b] == t[c + (e - b)];
    }
  }

  /** The token at a token start depends only on the text from there on. */
  lemma ScanAtShift(s: CString, b: nat, t: CString, c: nat)
    requires b < |s| && !IsSpace(s[b]) && c <= |t| && s[b..] == t[c..]
    ensures c < |t| && t[c] == s[b]
    ensures ScanAt(t, c).token == ScanAt(s, b).token
    ensures ScanAt(t, c).next - c == ScanAt(s, b).next - b
  {
    assert s[b] == s[b..][0] == t[c..][0] == t[c];
    if IsPunct(s[b]) {
      SliceShift(s, b, t, c, 1);
    } else if IsIdentStart(s[b]) {
      RunSliceShift(s, b, t, c, IsIdentChar);
    } else {
      RunSliceShift(s, b, t, c, IsDigit);
      RunSliceShift(s, b, t, c, IsErrorChar);
    }
  }

  /** One scanner call depends only on the text from the cursor on. */
  lemma ScanShift(s: CString, i: nat, t: CString, j: nat)
    requires i <= |s| && j <= |t| && s[i..] == t[j..]
    ensures Scan(t, j).token == Scan(s, i).token
    ensures Scan(t, j).next - j == Scan(s, i).next - i
  {
    assert |s| - i == |t| - j;
    RunEndShift(s, i, t, j, IsSpace);
    var b, c := TokenStart(s, i), TokenStart(t, j);
    if b < |s| {
      assert s[b..] == s[i..][b - i..] == t[j..][c - j..] == t[c..];
      ScanAtShift(s, b, t, c);
    }
  }

  /** The token stream depends only on the text from the cursor on. */
  lemma {:induction false} StreamShift(s: CString, i: nat, t: CString, j: nat)
    requires i <= |s| && j <= |t| && s[i..] == t[j..]
    ensures TokenStream(t, j) == TokenStream(s, i)
    decreases |s| - i
  {
    ScanShift(s, i, t, j);
    var r, q := Scan(s, i), Scan(t, j);
    if r.token.kind != Eof {
      assert s[r.next..] == s[i..][r.next - i..] == t[j..][q.next - j..] == t[q.next..];
      StreamShift(s, r.next, t, q.next);
    }
  }

  // ------------------------------------------ a scan reads one character ahead

  /** Position `k` of `t` ends every token rule's run wherever position `k`
      of `s` does: `t` ends there, holds whitespace there, or agrees with `s`. */
  predicate StopsAlike(s: CString, t: CString, k: nat)
    requires k <= |s| && k <= |t|
  {
    k == |t| || IsSpace(t[k]) || (k < |s| && t[k] == s[k])
  }

  /** A scanner call gives the same token in a buffer that agrees on the
      token's text and whose next character stops the token alike. */
  lemma ScanWindow(s: CString, t: CString, i: nat)
    requires i <= |s| && i <= |t|
    requires Scan(s, i).token.kind != Eof && Scan(s, i).next <= |t|
    requires forall k :: i <= k < Scan(s, i).next ==> t[k] == s[k]
    requires StopsAlike(s, t, Scan(s, i).next)
    ensures Scan(t, i) == Scan(s, i)
  {
    var b := TokenStart(s, i);
    RunEndUnique(t, i, b, IsSpace);
    ScanAtWindow(s, t, b);
  }

  /** The token at a token start, in a buffer that agrees on the token's text
      and whose next character stops the token alike. */
  lemma ScanAtWindow(s: CString, t: CString, b: nat)
    requires b < |s| && b < |t| && !IsSpace(s[b])
    requires ScanAt(s, b).next <= |t|
    requires forall k :: b <= k < ScanAt(s, b).next ==> t[k] == s[k]
    requires StopsAlike(s, t, ScanAt(s, b).next)
    ensures t[b] == s[b] && ScanAt(t, b) == ScanAt(s, b)
  {
    var e := ScanAt(s, b).next;
    assert t[b..e] == s[b..e];
    if IsPunct(s[b]) {
      assert t[b..b + 1] == s[b..b + 1];
    } else if IsIdentStart(s[b]) {
      RunEndUnique(t, b, e, IsIdentChar);
    } else {
      var d := RunEnd(s, b, IsDigit);
      if IsDigit(s[b]) && !(d < |s| && IsIdentChar(s[d])) {
        RunEndUnique(t, b, d, IsDigit);
      } else {
        RunEndUnique(t, b, e, IsErrorChar);
        if IsDigit(s[b]) {
          RejectedWindow(s, t, b, e);
        }
      }
    }
  }

  /** A digit run that the letter after it turns into an error stops at the
      same letter in a buffer that agrees on the whole error token. */
  lemma RejectedWindow(s: CString, t: CString, b: nat, e: nat)
    requires b < |s| && IsDigit(s[b]) && e == RunEnd(s, b, IsErrorChar) <= |t|
    requires RunEnd(s, b, IsDigit) < |s| && IsIdentChar(s[RunEnd(s, b, IsDigit)])
    requires forall k :: b <= k < e ==> t[k] == s[k]
    ensures RunEnd(t, b, IsDigit) == RunEnd(s, b, IsDigit) < e
  {
    var d := RunEnd(s, b, IsDigit);
    assert s[d] in s;
    RunEndIdentCovered(s, b, b, d);
    RunEndUnique(t, b, d, IsDigit);
  }

  // ------------------------------------------------------------ the property

  /** Inserting whitespace at any position the driver loop's cursor reaches
      leaves the token stream unchanged. */
  lemma {:induction false} SpaceAtCursor(s: CString, w: string, e: nat, i: nat)
    requires i <= e <= |s| && AllSpace(w) && Reaches(s, i, e)
    ensures TokenStream(InsertAt(s, e, w), i) == TokenStream(s, i)
    decreases |s| - i
  {
    var t := InsertAt(s, e, w);
    if i == e {
      SpaceAtCursorHere(s, w, e);
    } else if Scan(s, i).token.kind == Eof {
      SpaceAfterEnd(s, w, e, i);
    } else {
      var r := Scan(s, i);
      if e < |s| && w == [] {
        assert t[e] == t[e + |w|..][0] == s[e..][0] == s[e];
      }
      ScanWindow(s, t, i);
      SpaceAtCursor(s, w, e, r.next);
    }
  }

  /** At the cursor itself, the inserted whitespace is skipped before the
      next token, and what follows it is the old text. */
  lemma SpaceAtCursorHere(s: CString, w: string, e: nat)
    requires e <= |s| && AllSpace(w)
    ensures TokenStream(InsertAt(s, e, w), e) == TokenStream(s, e)
  {
    SkipInserted(s, w, e);
    SkippedStream(s, InsertAt(s, e, w), e, |w|);
  }

  /** A stream that starts by skipping `n` characters to a copy of the old
      text from `e` on is the old stream from `e`. */
  lemma SkippedStream(s: CString, t: CString, e: nat, n: nat)
    requires e <= |s| && e + n <= |t| && t[e + n..] == s[e..]
    requires TokenStart(t, e) == TokenStart(t, e + n)
    ensures TokenStream(t, e) == TokenStream(s, e)
  {
    calc {
      TokenStream(t, e);
    == { StreamFromSameStart(t, e, e + n); }
      TokenStream(t, e + n);
    == { StreamShift(s, e, t, e + n); }
      TokenStream(s, e);
    }
  }

  /** The scanner skips the inserted whitespace as it skips any other. */
  lemma SkipInserted(s: CString, w: string, e: nat)
    requires e <= |s| && AllSpace(w)
    ensures TokenStart(InsertAt(s, e, w), e) == TokenStart(InsertAt(s, e, w), e + |w|)
  {
    var t := InsertAt(s, e, w);
    forall k | e <= k < e + |w| ensures IsSpace(t[k]) {
      assert t[e + (k - e)] == w[k - e];
    }
    RunEndSkip(t, e, e + |w|, IsSpace);
  }

  /** Two cursors with the same next token start give the same stream. */
  lemma StreamFromSameStart(s: CString, i: nat, j: nat)
    requires i <= j <= |s| && TokenStart(s, i) == TokenStart(s, j)
    ensures TokenStream(s, i) == TokenStream(s, j)
  {
    assert Scan(s, i) == Scan(s, j);
  }

  /** Whitespace appended to trailing whitespace is still trailing whitespace. */
  lemma SpaceAfterEnd(s: CString, w: string, e: nat, i: nat)
    requires i < e <= |s| && AllSpace(w)
    requires Scan(s, i).token.kind == Eof && Scan(s, i).next <= e
    ensures TokenStream(InsertAt(s, e, w), i) == TokenStream(s, i)
  {
    var t := InsertAt(s, e, w);
    forall k | i <= k < |t| ensures IsSpace(t[k]) {
      if k < e {
        assert t[k] == s[k];
      } else {
        assert t[e + (k - e)] == w[k - e];
      }
    }
    RunEndUnique(t, i, |t|, IsSpace);
  }

  /** A run end past a stretch where the run's class holds throughout is the
      run end from the stretch's end. */
  lemma RunEndSkip(s: CString, i: nat, j: nat, p: char -> bool)
    requires i <= j <= |s|
    requires forall k :: i <= k < j ==> p(s[k])
    ensures RunEnd(s, i, p) == RunEnd(s, j, p)
  {
    RunEndUnique(s, i, RunEnd(s, j, p), p);
  }
}
