/** Concrete inputs and the token streams the code produces for them. */
module Scenarios {
  import opened CharClass
  import opened Tokens
  import opened ScanSpec
  import opened Driver

  /** A complete one-function program. */
  const ProgramText: CString := "int main(void){return 2;}"

  /** `s` is `int main(void){return 2;}`, character by character. */
  predicate IsProgram(s: CString)
  {
    |s| == 25 && s[0] == 'i' && s[1] == 'n' && s[2] == 't' && s[3] == ' ' && s[4] == 'm' && s[5] == 'a' && s[6] == 'i' && s[7] == 'n' && s[8] == '(' && s[9] == 'v' && s[10] == 'o' && s[11] == 'i' && s[12] == 'd' && s[13] == ')' && s[14] == '{' && s[15] == 'r' && s[16] == 'e' && s[17] == 't' && s[18] == 'u' && s[19] == 'r' && s[20] == 'n' && s[21] == ' ' && s[22] == '2' && s[23] == ';' && s[24] == '}'
  }

  lemma ProgramStep0(s: CString)
    requires IsProgram(s)
    ensures Scan(s, 0) == Step(Token(Int, "int"), 3)
  {
    assert RunEnd(s, 0, IsSpace) == 0;
    assert RunEnd(s, 0, IsIdentChar) == 3 by {
      assert RunEnd(s, 3, IsIdentChar) == 3;
      assert RunEnd(s, 2, IsIdentChar) == 3;
      assert RunEnd(s, 1, IsIdentChar) == 3;
    }
    assert s[0..3] == "int";
  }

  lemma ProgramStep1(s: CString)
    requires IsProgram(s)
    ensures Scan(s, 3) == Step(Token(Identifier, "main"), 8)
  {
    assert RunEnd(s, 3, IsSpace) == 4;
    assert RunEnd(s, 4, IsIdentChar) == 8 by {
      assert RunEnd(s, 8, IsIdentChar) == 8;
      assert RunEnd(s, 7, IsIdentChar) == 8;
      assert RunEnd(s, 6, IsIdentChar) == 8;
      assert RunEnd(s, 5, IsIdentChar) == 8;
    }
    assert s[4..8] == "main";
    assert "main"[0] != "void"[0];
  }

  lemma ProgramStep2(s: CString)
    requires IsProgram(s)
    ensures Scan(s, 8) == Step(Token(OpenParen, "("), 9)
  {
    assert RunEnd(s, 8, IsSpace) == 8;
    assert s[8..9] == "(";
  }

  lemma ProgramStep3(s: CString)
    requires IsProgram(s)
    ensures Scan(s, 9) == Step(Token(Void, "void"), 13)
  {
    assert RunEnd(s, 9, IsSpace) == 9;
    assert RunEnd(s, 9, IsIdentChar) == 13 by {
      assert RunEnd(s, 13, IsIdentChar) == 13;
      assert RunEnd(s, 12, IsIdentChar) == 13;
      assert RunEnd(s, 11, IsIdentChar) == 13;
      assert RunEnd(s, 10, IsIdentChar) == 13;
    }
    assert s[9..13] == "void";
  }

  lemma ProgramStep4(s: CString)
    requires IsProgram(s)
    ensures Scan(s, 13) == Step(Token(CloseParen, ")"), 14)
  {
    assert RunEnd(s, 13, IsSpace) == 13;
    assert s[13..14] == ")";
  }

  lemma ProgramStep5(s: CString)
    requires IsProgram(s)
    ensures Scan(s, 14) == Step(Token(OpenBrace, "{"), 15)
  {
    assert RunEnd(s, 14, IsSpace) == 14;
    assert s[14..15] == "{";
  }

  lemma ProgramStep6(s: CString)
    requires IsProgram(s)
    ensures Scan(s, 15) == Step(Token(Return, "return"), 21)
  {
    assert RunEnd(s, 15, IsSpace) == 15;
    assert RunEnd(s, 15, IsIdentChar) == 21 by {
      assert RunEnd(s, 21, IsIdentChar) == 21;
      assert RunEnd(s, 20, IsIdentChar) == 21;
      assert RunEnd(s, 19, IsIdentChar) == 21;
      assert RunEnd(s, 18, IsIdentChar) == 21;
      assert RunEnd(s, 17, IsIdentChar) == 21;
      assert RunEnd(s, 16, IsIdentChar) == 21;
    }
    assert s[15..21] == "return";
  }

  lemma ProgramStep7(s: CString)
    requires IsProgram(s)
    ensures Scan(s, 21) == Step(Token(Constant, "2"), 23)
  {
    assert RunEnd(s, 21, IsSpace) == 22;
    assert RunEnd(s, 22, IsDigit) == 23;
    assert s[22..23] == "2";
  }

  lemma ProgramStep8(s: CString)
    requires IsProgram(s)
    ensures Scan(s, 23) == Step(Token(Semicolon, ";"), 24)
  {
    assert RunEnd(s, 23, IsSpace) == 23;
    assert s[23..24] == ";";
  }

  lemma ProgramStep9(s: CString)
    requires IsProgram(s)
    ensures Scan(s, 24) == Step(Token(CloseBrace, "}"), 25)
  {
    assert RunEnd(s, 24, IsSpace) == 24;
    assert s[24..25] == "}";
  }

  lemma ProgramStep10(s: CString)
    requires IsProgram(s)
    ensures Scan(s, 25) == Step(Token(Eof, []), 25)
  {
    assert RunEnd(s, 25, IsSpace) == 25;
  }

  lemma ProgramFrom25(s: CString)
    requires IsProgram(s)
    ensures TokenStream(s, 25) ==
            [Token(Eof, [])]
  {
    ProgramStep10(s);
    StreamStep(s, 25);
  }

  lemma ProgramFrom24(s: CString)
    requires IsProgram(s)
    ensures TokenStream(s, 24) ==
            [Token(CloseBrace, "}"), Token(Eof, [])]
  {
    ProgramStep9(s);
    StreamStep(s, 24);
    ProgramFrom25(s);
  }

  lemma ProgramFrom23(s: CString)
    requires IsProgram(s)
    ensures TokenStream(s, 23) ==
            [Token(Semicolon, ";"), Token(CloseBrace, "}"), Token(Eof, [])]
  {
    ProgramStep8(s);
    StreamStep(s, 23);
    ProgramFrom24(s);
  }

  lemma ProgramFrom21(s: CString)
    requires IsProgram(s)
    ensures TokenStream(s, 21) ==
            [Token(Constant, "2"), Token(Semicolon, ";"), Token(CloseBrace, "}"), Token(Eof, [])]
  {
    ProgramStep7(s);
    StreamStep(s, 21);
    ProgramFrom23(s);
  }

  lemma ProgramFrom15(s: CString)
    requires IsProgram(s)
    ensures TokenStream(s, 15) ==
            [Token(Return, "return"), Token(Constant, "2"), Token(Semicolon, ";"), Token(CloseBrace, "}"), Token(Eof, [])]
  {
    ProgramStep6(s);
    StreamStep(s, 15);
    ProgramFrom21(s);
  }

  lemma ProgramFrom14(s: CString)
    requires IsProgram(s)
    ensures TokenStream(s, 14) ==
            [Token(OpenBrace, "{"), Token(Return, "return"), Token(Constant, "2"), Token(Semicolon, ";"), Token(CloseBrace, "}"), Token(Eof, [])]
  {
    ProgramStep5(s);
    StreamStep(s, 14);
    ProgramFrom15(s);
  }

  lemma ProgramFrom13(s: CString)
    requires IsProgram(s)
    ensures TokenStream(s, 13) ==
            [Token(CloseParen, ")"), Token(OpenBrace, "{"), Token(Return, "return"), Token(Constant, "2"), Token(Semicolon, ";"), Token(CloseBrace, "}"), Token(Eof, [])]
  {
    ProgramStep4(s);
    StreamStep(s, 13);
    ProgramFrom14(s);
  }

  lemma ProgramFrom9(s: CString)
    requires IsProgram(s)
    ensures TokenStream(s, 9) ==
            [Token(Void, "void"), Token(CloseParen, ")"), Token(OpenBrace, "{"), Token(Return, "return"), Token(Constant, "2"), Token(Semicolon, ";"), Token(CloseBrace, "}"), Token(Eof, [])]
  {
    ProgramStep3(s);
    StreamStep(s, 9);
    ProgramFrom13(s);
  }

  lemma ProgramFrom8(s: CString)
    requires IsProgram(s)
    ensures TokenStream(s, 8) ==
            [Token(OpenParen, "("), Token(Void, "void"), Token(CloseParen, ")"), Token(OpenBrace, "{"), Token(Return, "return"), Token(Constant, "2"), Token(Semicolon, ";"), Token(CloseBrace, "}"), Token(Eof, [])]
  {
    ProgramStep2(s);
    StreamStep(s, 8);
    ProgramFrom9(s);
  }

  lemma ProgramFrom3(s: CString)
    requires IsProgram(s)
    ensures TokenStream(s, 3) ==
            [Token(Identifier, "main"), Token(OpenParen, "("), Token(Void, "void"), Token(CloseParen, ")"), Token(OpenBrace, "{"), Token(Return, "return"), Token(Constant, "2"), Token(Semicolon, ";"), Token(CloseBrace, "}"), Token(Eof, [])]
  {
    ProgramStep1(s);
    StreamStep(s, 3);
    ProgramFrom8(s);
  }

  lemma ProgramFrom0(s: CString)
    requires IsProgram(s)
    ensures TokenStream(s, 0) ==
            [Token(Int, "int"), Token(Identifier, "main"), Token(OpenParen, "("), Token(Void, "void"), Token(CloseParen, ")"), Token(OpenBrace, "{"), Token(Return, "return"), Token(Constant, "2"), Token(Semicolon, ";"), Token(CloseBrace, "}"), Token(Eof, [])]
  {
    ProgramStep0(s);
    StreamStep(s, 0);
    ProgramFrom3(s);
  }

  /** `int main(void){return 2;}`: keywords, an identifier, a constant and every punctuator, no error. */
  lemma ProgramTokens()
    ensures TokenStream(ProgramText, 0) ==
            [Token(Int, "int"), Token(Identifier, "main"), Token(OpenParen, "("), Token(Void, "void"), Token(CloseParen, ")"), Token(OpenBrace, "{"), Token(Return, "return"), Token(Constant, "2"), Token(Semicolon, ";"), Token(CloseBrace, "}"), Token(Eof, [])]
  {
    assert IsProgram(ProgramText);
    ProgramFrom0(ProgramText);
  }

  /** An identifier followed by a character no rule accepts. */
  const DollarText: CString := "foo$bar"

  /** `s` is `foo$bar`, character by character. */
  predicate IsDollar(s: CString)
  {
    |s| == 7 && s[0] == 'f' && s[1] == 'o' && s[2] == 'o' && s[3] == '$' && s[4] == 'b' && s[5] == 'a' && s[6] == 'r'
  }

  lemma DollarStep0(s: CString)
    requires IsDollar(s)
    ensures Scan(s, 0) == Step(Token(Identifier, "foo"), 3)
  {
    assert RunEnd(s, 0, IsSpace) == 0;
    assert RunEnd(s, 0, IsIdentChar) == 3 by {
      assert RunEnd(s, 3, IsIdentChar) == 3;
      assert RunEnd(s, 2, IsIdentChar) == 3;
      assert RunEnd(s, 1, IsIdentChar) == 3;
    }
    assert s[0..3] == "foo";
    assert "foo"[0] != "int"[0];
  }

  lemma DollarStep1(s: CString)
    requires IsDollar(s)
    ensures Scan(s, 3) == Step(Token(Error, "$bar"), 7)
  {
    assert RunEnd(s, 3, IsSpace) == 3;
    assert RunEnd(s, 3, IsErrorChar) == 7 by {
      assert RunEnd(s, 7, IsErrorChar) == 7;
      assert RunEnd(s, 6, IsErrorChar) == 7;
      assert RunEnd(s, 5, IsErrorChar) == 7;
      assert RunEnd(s, 4, IsErrorChar) == 7;
    }
    assert s[3..7] == "$bar";
  }

  lemma DollarStep2(s: CString)
    requires IsDollar(s)
    ensures Scan(s, 7) == Step(Token(Eof, []), 7)
  {
    assert RunEnd(s, 7, IsSpace) == 7;
  }

  lemma DollarFrom7(s: CString)
    requires IsDollar(s)
    ensures TokenStream(s, 7) ==
            [Token(Eof, [])]
  {
    DollarStep2(s);
    StreamStep(s, 7);
  }

  lemma DollarFrom3(s: CString)
    requires IsDollar(s)
    ensures TokenStream(s, 3) ==
            [Token(Error, "$bar"), Token(Eof, [])]
  {
    DollarStep1(s);
    StreamStep(s, 3);
    DollarFrom7(s);
  }

  lemma DollarFrom0(s: CString)
    requires IsDollar(s)
    ensures TokenStream(s, 0) ==
            [Token(Identifier, "foo"), Token(Error, "$bar"), Token(Eof, [])]
  {
    DollarStep0(s);
    StreamStep(s, 0);
    DollarFrom3(s);
  }

  /** `foo$bar`: the identifier stops at `$`, and the error run that `$` starts then swallows `bar`. */
  lemma DollarSwallowsLetters()
    ensures TokenStream(DollarText, 0) ==
            [Token(Identifier, "foo"), Token(Error, "$bar"), Token(Eof, [])]
  {
    assert IsDollar(DollarText);
    DollarFrom0(DollarText);
  }

  /** A constant glued to letters. */
  const GluedText: CString := "12abc;"

  /** `s` is `12abc;`, character by character. */
  predicate IsGlued(s: CString)
  {
    |s| == 6 && s[0] == '1' && s[1] == '2' && s[2] == 'a' && s[3] == 'b' && s[4] == 'c' && s[5] == ';'
  }

  lemma GluedStep0(s: CString)
    requires IsGlued(s)
    ensures Scan(s, 0) == Step(Token(Error, "12abc"), 5)
  {
    assert RunEnd(s, 0, IsSpace) == 0;
    assert RunEnd(s, 0, IsErrorChar) == 5 by {
      assert RunEnd(s, 5, IsErrorChar) == 5;
      assert RunEnd(s, 4, IsErrorChar) == 5;
      assert RunEnd(s, 3, IsErrorChar) == 5;
      assert RunEnd(s, 2, IsErrorChar) == 5;
      assert RunEnd(s, 1, IsErrorChar) == 5;
    }
    assert RunEnd(s, 0, IsDigit) == 2 by {
      assert RunEnd(s, 2, IsDigit) == 2;
      assert RunEnd(s, 1, IsDigit) == 2;
    }
    assert s[0..5] == "12abc";
  }

  lemma GluedStep1(s: CString)
    requires IsGlued(s)
    ensures Scan(s, 5) == Step(Token(Semicolon, ";"), 6)
  {
    assert RunEnd(s, 5, IsSpace) == 5;
    assert s[5..6] == ";";
  }

  lemma GluedStep2(s: CString)
    requires IsGlued(s)
    ensures Scan(s, 6) == Step(Token(Eof, []), 6)
  {
    assert RunEnd(s, 6, IsSpace) == 6;
  }

  lemma GluedFrom6(s: CString)
    requires IsGlued(s)
    ensures TokenStream(s, 6) ==
            [Token(Eof, [])]
  {
    GluedStep2(s);
    StreamStep(s, 6);
  }

  lemma GluedFrom5(s: CString)
    requires IsGlued(s)
    ensures TokenStream(s, 5) ==
            [Token(Semicolon, ";"), Token(Eof, [])]
  {
    GluedStep1(s);
    StreamStep(s, 5);
    GluedFrom6(s);
  }

  lemma GluedFrom0(s: CString)
    requires IsGlued(s)
    ensures TokenStream(s, 0) ==
            [Token(Error, "12abc"), Token(Semicolon, ";"), Token(Eof, [])]
  {
    GluedStep0(s);
    StreamStep(s, 0);
    GluedFrom5(s);
  }

  /** `12abc;`: a digit run glued to letters is one error token over the whole run. */
  lemma GluedConstantIsOneError()
    ensures TokenStream(GluedText, 0) ==
            [Token(Error, "12abc"), Token(Semicolon, ";"), Token(Eof, [])]
  {
    assert IsGlued(GluedText);
    GluedFrom0(GluedText);
  }

  /** A line comment before a declaration. */
  const LineCommentText: CString := "// comment\nint x;"

  /** `s` is `// comment\nint x;`, character by character. */
  predicate IsLineComment(s: CString)
  {
    |s| == 17 && s[0] == '/' && s[1] == '/' && s[2] == ' ' && s[3] == 'c' && s[4] == 'o' && s[5] == 'm' && s[6] == 'm' && s[7] == 'e' && s[8] == 'n' && s[9] == 't' && s[10] == '\n' && s[11] == 'i' && s[12] == 'n' && s[13] == 't' && s[14] == ' ' && s[15] == 'x' && s[16] == ';'
  }

  lemma LineCommentStep0(s: CString)
    requires IsLineComment(s)
    ensures Scan(s, 0) == Step(Token(Error, "//"), 2)
  {
    assert RunEnd(s, 0, IsSpace) == 0;
    assert RunEnd(s, 0, IsErrorChar) == 2 by {
      assert RunEnd(s, 2, IsErrorChar) == 2;
      assert RunEnd(s, 1, IsErrorChar) == 2;
    }
    assert s[0..2] == "//";
  }

  lemma LineCommentStep1(s: CString)
    requires IsLineComment(s)
    ensures Scan(s, 2) == Step(Token(Identifier, "comment"), 10)
  {
    assert RunEnd(s, 2, IsSpace) == 3;
    assert RunEnd(s, 3, IsIdentChar) == 10 by {
      assert RunEnd(s, 10, IsIdentChar) == 10;
      assert RunEnd(s, 9, IsIdentChar) == 10;
      assert RunEnd(s, 8, IsIdentChar) == 10;
      assert RunEnd(s, 7, IsIdentChar) == 10;
      assert RunEnd(s, 6, IsIdentChar) == 10;
      assert RunEnd(s, 5, IsIdentChar) == 10;
      assert RunEnd(s, 4, IsIdentChar) == 10;
    }
    assert s[3..10] == "comment";
  }

  lemma LineCommentStep2(s: CString)
    requires IsLineComment(s)
    ensures Scan(s, 10) == Step(Token(Int, "int"), 14)
  {
    assert RunEnd(s, 10, IsSpace) == 11;
    assert RunEnd(s, 11, IsIdentChar) == 14 by {
      assert RunEnd(s, 14, IsIdentChar) == 14;
      assert RunEnd(s, 13, IsIdentChar) == 14;
      assert RunEnd(s, 12, IsIdentChar) == 14;
    }
    assert s[11..14] == "int";
  }

  lemma LineCommentStep3(s: CString)
    requires IsLineComment(s)
    ensures Scan(s, 14) == Step(Token(Identifier, "x"), 16)
  {
    assert RunEnd(s, 14, IsSpace) == 15;
    assert RunEnd(s, 15, IsIdentChar) == 16;
    assert s[15..16] == "x";
  }

  lemma LineCommentStep4(s: CString)
    requires IsLineComment(s)
    ensures Scan(s, 16) == Step(Token(Semicolon, ";"), 17)
  {
    assert RunEnd(s, 16, IsSpace) == 16;
    assert s[16..17] == ";";
  }

  lemma LineCommentStep5(s: CString)
    requires IsLineComment(s)
    ensures Scan(s, 17) == Step(Token(Eof, []), 17)
  {
    assert RunEnd(s, 17, IsSpace) == 17;
  }

  lemma LineCommentFrom17(s: CString)
    requires IsLineComment(s)
    ensures TokenStream(s, 17) ==
            [Token(Eof, [])]
  {
    LineCommentStep5(s);
    StreamStep(s, 17);
  }

  lemma LineCommentFrom16(s: CString)
    requires IsLineComment(s)
    ensures TokenStream(s, 16) ==
            [Token(Semicolon, ";"), Token(Eof, [])]
  {
    LineCommentStep4(s);
    StreamStep(s, 16);
    LineCommentFrom17(s);
  }

  lemma LineCommentFrom14(s: CString)
    requires IsLineComment(s)
    ensures TokenStream(s, 14) ==
            [Token(Identifier, "x"), Token(Semicolon, ";"), Token(Eof, [])]
  {
    LineCommentStep3(s);
    StreamStep(s, 14);
    LineCommentFrom16(s);
  }

  lemma LineCommentFrom10(s: CString)
    requires IsLineComment(s)
    ensures TokenStream(s, 10) ==
            [Token(Int, "int"), Token(Identifier, "x"), Token(Semicolon, ";"), Token(Eof, [])]
  {
    LineCommentStep2(s);
    StreamStep(s, 10);
    LineCommentFrom14(s);
  }

  lemma LineCommentFrom2(s: CString)
    requires IsLineComment(s)
    ensures TokenStream(s, 2) ==
            [Token(Identifier, "comment"), Token(Int, "int"), Token(Identifier, "x"), Token(Semicolon, ";"), Token(Eof, [])]
  {
    LineCommentStep1(s);
    StreamStep(s, 2);
    LineCommentFrom10(s);
  }

  lemma LineCommentFrom0(s: CString)
    requires IsLineComment(s)
    ensures TokenStream(s, 0) ==
            [Token(Error, "//"), Token(Identifier, "comment"), Token(Int, "int"), Token(Identifier, "x"), Token(Semicolon, ";"), Token(Eof, [])]
  {
    LineCommentStep0(s);
    StreamStep(s, 0);
    LineCommentFrom2(s);
  }

  /** `// comment` then `int x;`: comments are not skipped, so the slashes form an error token and the comment text an identifier. */
  lemma LineCommentIsScanned()
    ensures TokenStream(LineCommentText, 0) ==
            [Token(Error, "//"), Token(Identifier, "comment"), Token(Int, "int"), Token(Identifier, "x"), Token(Semicolon, ";"), Token(Eof, [])]
  {
    assert IsLineComment(LineCommentText);
    LineCommentFrom0(LineCommentText);
  }

  /** A block comment that is never closed. */
  const OpenCommentText: CString := "/* unterminated"

  /** `s` is `OpenCommentText`, character by character. */
  predicate IsOpenComment(s: CString)
  {
    |s| == 15 && s[0] == '/' && s[1] == '*' && s[2] == ' ' && s[3] == 'u' && s[4] == 'n' && s[5] == 't' && s[6] == 'e' && s[7] == 'r' && s[8] == 'm' && s[9] == 'i' && s[10] == 'n' && s[11] == 'a' && s[12] == 't' && s[13] == 'e' && s[14] == 'd'
  }

  lemma OpenCommentStep0(s: CString)
    requires IsOpenComment(s)
    ensures Scan(s, 0) == Step(Token(Error, "/*"), 2)
  {
    assert RunEnd(s, 0, IsSpace) == 0;
    assert RunEnd(s, 0, IsErrorChar) == 2 by {
      assert RunEnd(s, 2, IsErrorChar) == 2;
      assert RunEnd(s, 1, IsErrorChar) == 2;
    }
    assert s[0..2] == "/*";
  }

  lemma OpenCommentStep1(s: CString)
    requires IsOpenComment(s)
    ensures Scan(s, 2) == Step(Token(Identifier, "unterminated"), 15)
  {
    assert RunEnd(s, 2, IsSpace) == 3;
    assert RunEnd(s, 3, IsIdentChar) == 15 by {
      assert RunEnd(s, 15, IsIdentChar) == 15;
      assert RunEnd(s, 14, IsIdentChar) == 15;
      assert RunEnd(s, 13, IsIdentChar) == 15;
      assert RunEnd(s, 12, IsIdentChar) == 15;
      assert RunEnd(s, 11, IsIdentChar) == 15;
      assert RunEnd(s, 10, IsIdentChar) == 15;
      assert RunEnd(s, 9, IsIdentChar) == 15;
      assert RunEnd(s, 8, IsIdentChar) == 15;
      assert RunEnd(s, 7, IsIdentChar) == 15;
      assert RunEnd(s, 6, IsIdentChar) == 15;
      assert RunEnd(s, 5, IsIdentChar) == 15;
      assert RunEnd(s, 4, IsIdentChar) == 15;
    }
    assert s[3..15] == "unterminated";
  }

  lemma OpenCommentStep2(s: CString)
    requires IsOpenComment(s)
    ensures Scan(s, 15) == Step(Token(Eof, []), 15)
  {
    assert RunEnd(s, 15, IsSpace) == 15;
  }

  lemma OpenCommentFrom15(s: CString)
    requires IsOpenComment(s)
    ensures TokenStream(s, 15) ==
            [Token(Eof, [])]
  {
    OpenCommentStep2(s);
    StreamStep(s, 15);
  }

  lemma OpenCommentFrom2(s: CString)
    requires IsOpenComment(s)
    ensures TokenStream(s, 2) ==
            [Token(Identifier, "unterminated"), Token(Eof, [])]
  {
    OpenCommentStep1(s);
    StreamStep(s, 2);
    OpenCommentFrom15(s);
  }

  lemma OpenCommentFrom0(s: CString)
    requires IsOpenComment(s)
    ensures TokenStream(s, 0) ==
            [Token(Error, "/*"), Token(Identifier, "unterminated"), Token(Eof, [])]
  {
    OpenCommentStep0(s);
    StreamStep(s, 0);
    OpenCommentFrom2(s);
  }

  /** An unterminated block comment (slash, star, then text): the opener is an error token and the text an identifier. */
  lemma OpenCommentIsScanned()
    ensures TokenStream(OpenCommentText, 0) ==
            [Token(Error, "/*"), Token(Identifier, "unterminated"), Token(Eof, [])]
  {
    assert IsOpenComment(OpenCommentText);
    OpenCommentFrom0(OpenCommentText);
  }
}
