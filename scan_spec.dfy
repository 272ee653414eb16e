/** The reference specification of the scanner: pure functions over an
    immutable buffer and a cursor, written as a dispatch over the class of the
    first significant character. The imperative scanner in module Scanner is
    proved equal to these functions. */
module ScanSpec {
  import opened CharClass
  import opened Tokens

  /** A NUL-terminated C string without its terminator: position |s| stands
      for the '\0' that ends it. */
  type CString = s: string | '\0' !in s

  /** The C string a buffer holds: every character before its first NUL. */
  function CStringOf(raw: string): (s: CString)
    ensures s <= raw
    ensures |s| == |raw| || raw[|s|] == '\0'
  {
    if raw == [] || raw[0] == '\0' then [] else [raw[0]] + CStringOf(raw[1..])
  }

  /** The dereference `*p` of a pointer `i` characters into the string. */
  function At(s: CString, i: nat): (c: char)
    requires i <= |s|
    ensures c == '\0' <==> i == |s|
    ensures i < |s| ==> c == s[i]
  {
    if i < |s| then s[i] else '\0'
  }

  /** End of the maximal run of characters satisfying `p` that starts at `i`. */
  function RunEnd(s: CString, i: nat, p: char -> bool): (j: nat)
    requires i <= |s|
    ensures i <= j <= |s|
    ensures forall k :: i <= k < j ==> p(s[k])
    ensures j == |s| || !p(s[j])
    decreases |s| - i
  {
    if i < |s| && p(s[i]) then RunEnd(s, i + 1, p) else i
  }

  /** A run end is a fixpoint: starting a run where one ended consumes nothing. */
  lemma RunEndIdempotent(s: CString, i: nat, p: char -> bool)
    requires i <= |s|
    ensures RunEnd(s, RunEnd(s, i, p), p) == RunEnd(s, i, p)
  {
  }

  /** The run end is the only position that bounds a run of `p` and does not satisfy `p`. */
  lemma {:induction false} RunEndUnique(s: CString, i: nat, j: nat, p: char -> bool)
    requires i <= j <= |s|
    requires forall k :: i <= k < j ==> p(s[k])
    requires j == |s| || !p(s[j])
    ensures RunEnd(s, i, p) == j
    decreases j - i
  {
    if i < j {
      RunEndUnique(s, i + 1, j, p);
    }
  }

  /** Where the next token begins: just past the whitespace at the cursor. */
  function TokenStart(s: CString, i: nat): (b: nat)
    requires i <= |s|
    ensures i <= b <= |s|
    ensures forall k :: i <= k < b ==> IsSpace(s[k])
    ensures b == |s| || !IsSpace(s[b])
  {
    RunEnd(s, i, IsSpace)
  }

  /** The type of a one-character punctuator. */
  function PunctKind(c: char): (t: TokenType)
    requires IsPunct(c)
    ensures t in {OpenParen, CloseParen, OpenBrace, CloseBrace, Semicolon}
  {
    if c == '(' then OpenParen
    else if c == ')' then CloseParen
    else if c == '{' then OpenBrace
    else if c == '}' then CloseBrace
    else Semicolon
  }

  /** Each punctuator has a type of its own: distinct characters get distinct types. */
  lemma PunctKindInjective(c: char, d: char)
    requires IsPunct(c) && IsPunct(d) && PunctKind(c) == PunctKind(d)
    ensures c == d
  {
  }

  /** The result of one scan: the token, and the cursor after it. */
  datatype Step = Step(token: Token, next: nat)

  /** One call of the scanner on the buffer `s` with the cursor at `i`:
      whitespace is skipped, then either the end is reached or a token begins. */
  function Scan(s: CString, i: nat): (r: Step)
    requires i <= |s|
    ensures r.next <= |s|
    ensures r.token.kind == Eof <==> TokenStart(s, i) == |s|
    ensures r.token.kind == Eof ==> r.next == |s| && r.token.lexeme == []
    ensures r.token.kind != Eof ==>
              i <= TokenStart(s, i) < r.next && r.token.lexeme == s[TokenStart(s, i)..r.next]
    ensures forall k :: 0 <= k < |r.token.lexeme| ==> !IsSpace(r.token.lexeme[k])
  {
    var b := TokenStart(s, i);
    if b == |s| then Step(Token(Eof, []), b) else ScanAt(s, b)
  }

  /** The token that begins at the non-whitespace position `b`, chosen by the
      class of its first character. */
  function ScanAt(s: CString, b: nat): (r: Step)
    requires b < |s| && !IsSpace(s[b])
    ensures b < r.next <= |s| && r.token.kind != Eof && r.token.lexeme == s[b..r.next]
    ensures forall k :: 0 <= k < |r.token.lexeme| ==> !IsSpace(r.token.lexeme[k])
  {
    if IsPunct(s[b]) then
      Step(Token(PunctKind(s[b]), s[b..b + 1]), b + 1)
    else if IsIdentStart(s[b]) then
      var e := RunEnd(s, b, IsIdentChar);
      Step(Token(CheckKeyword(s[b..e]), s[b..e]), e)
    else
      var d := RunEnd(s, b, IsDigit);
      if IsDigit(s[b]) && !(d < |s| && IsIdentChar(s[d])) then
        Step(Token(Constant, s[b..d]), d)
      else
        assert s[b] in s;
        var e := RunEnd(s, b, IsErrorChar);
        Step(Token(Error, s[b..e]), e)
  }

  // ------------------------------------------------------- properties of Scan

  /** End of file is returned exactly when only whitespace remains (lexer.c:139-147). */
  lemma ScanEofIff(s: CString, i: nat)
    requires i <= |s|
    ensures Scan(s, i).token.kind == Eof <==> forall k :: i <= k < |s| ==> IsSpace(s[k])
  {
    if forall k :: i <= k < |s| ==> IsSpace(s[k]) {
      RunEndUnique(s, i, |s|, IsSpace);
    }
  }

  /** End of file leaves the cursor at the end, so scanning again yields end of file again. */
  lemma EofIsTerminal(s: CString, i: nat)
    requires i <= |s| && Scan(s, i).token.kind == Eof
    ensures Scan(s, i).next == |s|
    ensures Scan(s, Scan(s, i).next) == Scan(s, i)
  {
  }

  /** A leading punctuator is consumed alone, with its own type (lexer.c:152-167). */
  lemma ScanPunctuator(s: CString, i: nat)
    requires i <= |s| && TokenStart(s, i) < |s| && IsPunct(s[TokenStart(s, i)])
    ensures var b := TokenStart(s, i);
            Scan(s, i) == Step(Token(PunctKind(s[b]), [s[b]]), b + 1)
  {
  }

  /** A token that starts with a letter or `_` is the maximal run of letters,
      digits and `_`, typed by `check_keyword` (lexer.c:174-189). */
  lemma ScanIdentifier(s: CString, i: nat)
    requires i <= |s| && TokenStart(s, i) < |s| && IsIdentStart(s[TokenStart(s, i)])
    ensures var b, r := TokenStart(s, i), Scan(s, i);
            && b < r.next
            && (forall k :: b <= k < r.next ==> IsIdentChar(s[k]))
            && (r.next == |s| || !IsIdentChar(s[r.next]))
            && r.token == Token(CheckKeyword(s[b..r.next]), s[b..r.next])
  {
  }

  /** A digit run not followed by a letter, digit or `_` is a constant (lexer.c:195-213). */
  lemma ScanConstant(s: CString, i: nat)
    requires i <= |s| && TokenStart(s, i) < |s| && IsDigit(s[TokenStart(s, i)])
    requires var d := RunEnd(s, TokenStart(s, i), IsDigit); d == |s| || !IsIdentChar(s[d])
    ensures var b, r := TokenStart(s, i), Scan(s, i);
            && r.token == Token(Constant, s[b..r.next])
            && r.next == RunEnd(s, b, IsDigit) > b
            && forall k :: b <= k < r.next ==> IsDigit(s[k])
  {
  }

  /** A digit run followed by a letter or `_` is not split: the whole run up to
      the next whitespace, punctuator or end is one error token (lexer.c:207-225). */
  lemma ScanRejectedConstant(s: CString, i: nat)
    requires i <= |s| && TokenStart(s, i) < |s| && IsDigit(s[TokenStart(s, i)])
    requires var d := RunEnd(s, TokenStart(s, i), IsDigit); d < |s| && IsIdentChar(s[d])
    ensures var b, r := TokenStart(s, i), Scan(s, i);
            && r.token.kind == Error
            && RunEnd(s, b, IsDigit) < r.next == RunEnd(s, b, IsErrorChar)
  {
    var b := TokenStart(s, i);
    var d := RunEnd(s, b, IsDigit);
    assert s[d] in s;
    RunEndIdentCovered(s, b, b, d);
  }

  /** Every character from a digit run on, up to an error-run end, is an error character. */
  lemma {:induction false} RunEndIdentCovered(s: CString, b: nat, k: nat, d: nat)
    requires b <= k <= d < |s|
    requires forall m :: b <= m < d ==> IsDigit(s[m])
    requires IsErrorChar(s[d])
    ensures RunEnd(s, k, IsErrorChar) > d
    decreases d - k
  {
    assert s[k] in s;
    if k < d {
      RunEndIdentCovered(s, b, k + 1, d);
    }
  }

  /** An error token is a non-empty run free of whitespace and punctuators that
      ends at whitespace, a punctuator or the end; it begins either with a
      rejected digit run or with a character no other rule accepts (lexer.c:216-225). */
  lemma ScanErrorToken(s: CString, i: nat)
    requires i <= |s| && Scan(s, i).token.kind == Error
    ensures var b, r := TokenStart(s, i), Scan(s, i);
            && r.token.lexeme != []
            && (forall k :: 0 <= k < |r.token.lexeme| ==>
                  !IsSpace(r.token.lexeme[k]) && !IsPunct(r.token.lexeme[k]))
            && (r.next == |s| || IsSpace(s[r.next]) || IsPunct(s[r.next]))
            && b < |s|
            && (IsDigit(s[b]) || !(IsPunct(s[b]) || IsIdentStart(s[b])))
  {
    var b, r := TokenStart(s, i), Scan(s, i);
    assert r.next == RunEnd(s, b, IsErrorChar);
    forall k | 0 <= k < |r.token.lexeme|
      ensures !IsSpace(r.token.lexeme[k]) && !IsPunct(r.token.lexeme[k])
    {
      assert r.token.lexeme[k] == s[b + k];
    }
  }

  /** What each token type says about its lexeme: the converse of the lemmas above. */
  lemma ScanTokenShape(s: CString, i: nat)
    requires i <= |s|
    ensures var b, r := TokenStart(s, i), Scan(s, i);
            var t, x := r.token.kind, r.token.lexeme;
            && (IsKeyword(t) || t == Identifier ==>
                  x != [] && IsIdentStart(x[0]) && (forall k :: 0 <= k < |x| ==> IsIdentChar(x[k]))
                  && t == CheckKeyword(x))
            && (t == Constant ==> x != [] && forall k :: 0 <= k < |x| ==> IsDigit(x[k]))
            && (t in {OpenParen, CloseParen, OpenBrace, CloseBrace, Semicolon} ==>
                  |x| == 1 && IsPunct(x[0]) && t == PunctKind(x[0]))
  {
    var b, r := TokenStart(s, i), Scan(s, i);
    var x := r.token.lexeme;
    forall k | 0 <= k < |x| ensures x[k] == s[b + k] {
    }
  }

  // ---------------------------------------------------------------- comments

  predicate StartsLineComment(s: CString, i: nat)
    requires i <= |s|
  {
    i + 1 < |s| && s[i] == '/' && s[i + 1] == '/'
  }

  predicate StartsBlockComment(s: CString, i: nat)
    requires i <= |s|
  {
    i + 1 < |s| && s[i] == '/' && s[i + 1] == '*'
  }

  predicate StartsComment(s: CString, i: nat)
    requires i <= |s|
  {
    StartsLineComment(s, i) || StartsBlockComment(s, i)
  }

  /** A block-comment closer, star then slash, begins at `k`. */
  predicate CloserAt(s: CString, k: nat)
    requires k <= |s|
  {
    k + 1 < |s| && s[k] == '*' && s[k + 1] == '/'
  }

  /** The position a block comment's body scan reaches from `k`: just past the
      first closer at or after `k`, or the end of the buffer if there is none. */
  function BlockCloseEnd(s: CString, k: nat): (r: nat)
    requires k <= |s|
    ensures k <= r <= |s|
    ensures || (k + 2 <= r && CloserAt(s, r - 2) && forall m :: k <= m < r - 2 ==> !CloserAt(s, m))
            || (r == |s| && forall m :: k <= m < |s| ==> !CloserAt(s, m))
    decreases |s| - k
  {
    if k == |s| then k
    else if CloserAt(s, k) then k + 2
    else BlockCloseEnd(s, k + 1)
  }

  /** Where one comment starting at `i` ends: a line comment at its newline
      (not consumed) or the end of the buffer, a block comment just past its
      closer or at the end of the buffer. */
  function CommentEnd(s: CString, i: nat): (r: nat)
    requires i <= |s| && StartsComment(s, i)
    ensures i < r <= |s|
  {
    if StartsLineComment(s, i) then RunEnd(s, i, NotNewline) else BlockCloseEnd(s, i + 2)
  }

  /** What `skip_comments` returns: comments are skipped back to back, and the
      skipping stops at the first position that does not begin one. */
  function SkipCommentsSpec(s: CString, i: nat): (r: nat)
    requires i <= |s|
    ensures i <= r <= |s|
    ensures !StartsComment(s, r)
    ensures !StartsComment(s, i) ==> r == i
    decreases |s| - i
  {
    if StartsComment(s, i) then SkipCommentsSpec(s, CommentEnd(s, i)) else i
  }

  // --------------------------------------------------- properties of comments

  /** A line comment runs up to, and not over, its newline; skipping stops
      there because a newline does not begin another comment (lexer.c:95-99). */
  lemma SkipLineComment(s: CString, i: nat)
    requires i <= |s| && StartsLineComment(s, i)
    ensures var j := SkipCommentsSpec(s, i);
            && j == RunEnd(s, i, NotNewline)
            && (j == |s| || s[j] == '\n')
            && forall k :: i <= k < j ==> s[k] != '\n'
  {
  }

  /** An unterminated block comment runs to the end of the buffer; a closed one
      resumes just past its first closer (lexer.c:101-109). */
  lemma SkipBlockComment(s: CString, i: nat)
    requires i <= |s| && StartsBlockComment(s, i)
    ensures (forall m :: i + 2 <= m < |s| ==> !CloserAt(s, m)) ==> SkipCommentsSpec(s, i) == |s|
    ensures forall c :: i + 2 <= c < |s| && CloserAt(s, c) && (forall m :: i + 2 <= m < c ==> !CloserAt(s, m))
              ==> SkipCommentsSpec(s, i) == SkipCommentsSpec(s, c + 2)
  {
  }
}
