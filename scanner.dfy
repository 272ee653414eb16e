/** The scanner as the C code runs it: pointer-stepping loops over the buffer,
    and a lexer object whose cursor each call advances in place. Every method
    is proved against the reference functions of module ScanSpec. */
module Scanner {
  import opened CharClass
  import opened Tokens
  import opened ScanSpec

  /** `skip_whitespace`: the first position at or after `i` that is the end of
      the string or not whitespace. */
  method SkipWhitespace(s: CString, i: nat) returns (j: nat)
    requires i <= |s|
    ensures i <= j <= |s|
    ensures forall k :: i <= k < j ==> IsSpace(s[k])
    ensures j == |s| || !IsSpace(s[j])
    ensures j == TokenStart(s, i)
  {
    j := i;
    while At(s, j) != '\0' && IsSpace(At(s, j))
      invariant i <= j <= |s|
      invariant RunEnd(s, j, IsSpace) == RunEnd(s, i, IsSpace)
      decreases |s| - j
    {
      j := j + 1;
    }
  }

  /** `skip_comments`: skips line and block comments that follow one another
      directly, and stops at the end or at a position that does not begin one. */
  method SkipComments(s: CString, i: nat) returns (j: nat)
    requires i <= |s|
    ensures i <= j <= |s|
    ensures !StartsComment(s, j)
    ensures !StartsComment(s, i) ==> j == i
    ensures j == SkipCommentsSpec(s, i)
  {
    j := i;
    while At(s, j) != '\0'
      invariant i <= j <= |s|
      invariant SkipCommentsSpec(s, j) == SkipCommentsSpec(s, i)
      decreases |s| - j
    {
      if At(s, j) == '/' && At(s, j + 1) == '/' {
        // line comment: up to, not over, the newline
        ghost var start := j;
        while At(s, j) != '\0' && At(s, j) != '\n'
          invariant start <= j <= |s|
          invariant RunEnd(s, j, NotNewline) == RunEnd(s, start, NotNewline)
          decreases |s| - j
        {
          j := j + 1;
        }
        assert j == CommentEnd(s, start);
      } else if At(s, j) == '/' && At(s, j + 1) == '*' {
        // block comment: over the opener, the body and the closer if there is one
        ghost var start := j;
        j := j + 2;
        while At(s, j) != '\0' && !(At(s, j) == '*' && At(s, j + 1) == '/')
          invariant start + 2 <= j <= |s|
          invariant BlockCloseEnd(s, j) == BlockCloseEnd(s, start + 2)
          decreases |s| - j
        {
          j := j + 1;
        }
        if At(s, j) != '\0' {
          j := j + 2;
        }
        assert j == CommentEnd(s, start);
      } else {
        break;
      }
    }
  }

  /** The loop at lexer.c:177-181: the length of the run of letters, digits and `_` at `i`. */
  method IdentifierRun(s: CString, i: nat) returns (len: nat)
    requires i <= |s|
    ensures i + len == RunEnd(s, i, IsIdentChar)
  {
    var p := i;
    len := 0;
    while IsAlnum(At(s, p)) || At(s, p) == '_'
      invariant i <= p <= |s| && len == p - i
      invariant RunEnd(s, p, IsIdentChar) == RunEnd(s, i, IsIdentChar)
      decreases |s| - p
    {
      p := p + 1;
      len := len + 1;
    }
  }

  /** lexer.c:197-205: the length of the digit run at `i`, whose first character is a digit. */
  method DigitRun(s: CString, i: nat) returns (len: nat)
    requires i < |s| && IsDigit(s[i])
    ensures i + len == RunEnd(s, i, IsDigit)
  {
    var p := i + 1;
    len := 1;
    while IsDigit(At(s, p))
      invariant i < p <= |s| && len == p - i
      invariant RunEnd(s, p, IsDigit) == RunEnd(s, i, IsDigit)
      decreases |s| - p
    {
      p := p + 1;
      len := len + 1;
    }
  }

  /** The loop at lexer.c:216-221, with its counter starting at zero: the
      length of the run at `i` of characters that are not the terminator,
      whitespace or a punctuator. */
  method ErrorRun(s: CString, i: nat) returns (len: nat)
    requires i <= |s|
    ensures i + len == RunEnd(s, i, IsErrorChar)
  {
    var input := i;
    len := 0;
    while At(s, input) != '\0' && !IsSpace(At(s, input)) && !IsPunct(At(s, input))
      invariant i <= input <= |s| && len == input - i
      invariant RunEnd(s, input, IsErrorChar) == RunEnd(s, i, IsErrorChar)
      decreases |s| - input
    {
      input := input + 1;
      len := len + 1;
    }
  }

  /** lexer.c:169-226, the part of `get_next_token` after the punctuators: an
      identifier or keyword, else a constant, else the error run, tried in that
      order from the token start `input`. Returns the token and how far the
      cursor advances. The error run's length is counted from the token start
      (module AsWritten keeps the over-count of the code as written). */
  method ScanWord(s: CString, input: nat) returns (tok: Token, len: nat)
    requires input < |s| && !IsSpace(s[input]) && !IsPunct(s[input])
    ensures Step(tok, input + len) == ScanAt(s, input)
  {
    // identifiers and keywords
    len := 0;
    if IsAlpha(At(s, input)) || At(s, input) == '_' {
      len := IdentifierRun(s, input);
      // the test at lexer.c:183 always holds here: the run stopped on a non-identifier character
      assert !IsAlnum(At(s, input + len)) && At(s, input + len) != '_';
      var lexeme := s[input..input + len];
      tok := Token(CheckKeyword(lexeme), lexeme);
      return;
    }

    // constants
    len := 0;
    if IsDigit(At(s, input)) {
      len := DigitRun(s, input);
      if !IsAlnum(At(s, input + len)) && At(s, input + len) != '_' {
        var lexeme := s[input..input + len];
        tok := Token(Constant, lexeme);
        return;
      }
    }

    // the error run: a C string holds no NUL, so the run has at least the first character
    assert IsErrorChar(s[input]) by { assert s[input] in s; }
    len := ErrorRun(s, input);
    var n: int := if len > 0 then len else 1;
    tok := Token(Error, s[input..input + n]);
    len := n;
  }

  /** A lexer over one source buffer; `pos` is the cursor the C code passes by
      address (`char **current_pos`). */
  class Lexer {
    const buf: CString
    var pos: nat

    ghost predicate Valid()
      reads this
    {
      pos <= |buf|
    }

    constructor (source: CString)
      ensures Valid()
      ensures buf == source && pos == 0
    {
      buf := source;
      pos := 0;
    }

    /** `get_next_token` (lexer.c:136-227): skips whitespace, then returns end
        of file, a punctuator, or what ScanWord finds, and advances the cursor
        past it. The token and the new cursor are those of the reference scanner. */
    method GetNextToken() returns (tok: Token)
      requires Valid()
      modifies this`pos
      ensures Valid()
      ensures Step(tok, pos) == Scan(buf, old(pos))
    {
      pos := SkipWhitespace(buf, pos);
      var input := pos;
      if At(buf, input) == '\0' {
        return Token(Eof, []);
      }

      // simple single-character tokens; Error marks "none of them"
      var simple := Error;
      var c := At(buf, input);
      if c == '(' {
        simple := OpenParen;
      } else if c == ')' {
        simple := CloseParen;
      } else if c == '{' {
        simple := OpenBrace;
      } else if c == '}' {
        simple := CloseBrace;
      } else if c == ';' {
        simple := Semicolon;
      }
      if simple != Error {
        tok := Token(simple, buf[input..input + 1]);
        pos := pos + 1;
        return;
      }

      // identifiers, constants and the error run
      var len;
      tok, len := ScanWord(buf, input);
      pos := pos + len;
    }
  }
}
