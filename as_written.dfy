/** The error run of `get_next_token` as the C code writes it, beside the
    repaired one that the rest of the model uses.

    In the code, `len` is reset to zero before the digit branch
    (lexer.c:192-193) but not before the error run (lexer.c:216-221). After a
    rejected digit run, `len` still holds the number of digits when the error
    loop starts counting again from the token start, so the copied length and
    the cursor advance (lexer.c:223-225) are the digits plus the whole run. */
module AsWritten {
  import opened CharClass
  import opened Tokens
  import opened ScanSpec

  function Min(a: nat, b: nat): nat { if a <= b then a else b }

  /** The error token as written: `strndup` copies at most up to the
      terminator, but the cursor advances by the over-counted length. */
  function ErrorStepAsWritten(s: CString, b: nat): (r: Step)
    requires b < |s| && !IsSpace(s[b]) && !IsPunct(s[b]) && !IsIdentStart(s[b])
    ensures r.token.kind == Error
    ensures b < RunEnd(s, b, IsErrorChar) <= r.next
    ensures r.next - RunEnd(s, b, IsErrorChar) == if IsDigit(s[b]) then RunEnd(s, b, IsDigit) - b else 0
  {
    assert s[b] in s;
    var carried := if IsDigit(s[b]) then RunEnd(s, b, IsDigit) - b else 0;
    var len := carried + (RunEnd(s, b, IsErrorChar) - b);
    var n := if len > 0 then len else 1;
    Step(Token(Error, s[b..Min(b + n, |s|)]), b + n)
  }

  /** `get_next_token` as written at a token start `b`: every branch but the
      error run is the one of ScanAt. */
  function ScanAtAsWritten(s: CString, b: nat): (r: Step)
    requires b < |s| && !IsSpace(s[b])
    ensures r.token.kind == ScanAt(s, b).token.kind
    ensures ScanAt(s, b).next <= r.next
  {
    var r := ScanAt(s, b);
    if r.token.kind == Error then ErrorStepAsWritten(s, b) else r
  }

  /** As written, an error token that begins with a rejected digit run moves
      the cursor past the repaired one by the number of digits; every other
      token is the same. */
  lemma AsWrittenOvercounts(s: CString, b: nat)
    requires b < |s| && !IsSpace(s[b])
    ensures var r, w := ScanAt(s, b), ScanAtAsWritten(s, b);
            && (r.token.kind == Error && IsDigit(s[b]) ==> w.next == r.next + (RunEnd(s, b, IsDigit) - b))
            && (r.token.kind == Error && !IsDigit(s[b]) ==> w == r)
            && (r.token.kind != Error ==> w == r)
  {
    var r := ScanAt(s, b);
    if r.token.kind == Error {
      var e := RunEnd(s, b, IsErrorChar);
      assert !IsPunct(s[b]) && !IsIdentStart(s[b]);
      assert r == Step(Token(Error, s[b..e]), e);
      if !IsDigit(s[b]) {
        var w := ErrorStepAsWritten(s, b);
        assert w.next == e && Min(e, |s|) == e;
      }
    }
  }

  /** On `12abc;` the as-written cursor lands one past the terminator, while
      the repaired scanner stops before the semicolon. */
  lemma AsWrittenOverrunsBuffer()
    ensures ScanAtAsWritten("12abc;", 0) == Step(Token(Error, "12abc;"), 7)
    ensures 7 > |"12abc;"|
    ensures ScanAt("12abc;", 0) == Step(Token(Error, "12abc"), 5)
  {
    var s: CString := "12abc;";
    assert RunEnd(s, 0, IsDigit) == 2 by {
      assert RunEnd(s, 2, IsDigit) == 2;
      assert RunEnd(s, 1, IsDigit) == 2;
    }
    assert RunEnd(s, 0, IsErrorChar) == 5 by {
      assert RunEnd(s, 5, IsErrorChar) == 5;
      assert RunEnd(s, 4, IsErrorChar) == 5;
      assert RunEnd(s, 3, IsErrorChar) == 5;
      assert RunEnd(s, 2, IsErrorChar) == 5;
      assert RunEnd(s, 1, IsErrorChar) == 5;
    }
    assert !IsIdentStart(s[0]) && IsIdentChar(s[2]);
    assert s[0..5] == "12abc" && s[0..6] == s;
    assert ScanAt(s, 0) == Step(Token(Error, s[0..5]), 5);
    assert ErrorStepAsWritten(s, 0) == Step(Token(Error, s[0..6]), 7);
  }
}
