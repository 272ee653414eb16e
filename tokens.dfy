/** Token types and tokens, and the two pure maps over them. */
module Tokens {

  /** The `TokenType` enumeration, in declaration order. */
  datatype TokenType =
    | Int | Void | Return
    | Identifier | Constant
    | OpenParen | CloseParen | OpenBrace | CloseBrace | Semicolon
    | Eof | Error

  /** A token. The lexeme is an independent copy of the matched text; the
      empty lexeme stands for the NULL lexeme of an end-of-file token. */
  datatype Token = Token(kind: TokenType, lexeme: string)

  predicate IsKeyword(t: TokenType) { t == Int || t == Void || t == Return }

  /** `check_keyword`: the three reserved words get their own type, every other lexeme is an identifier. */
  function CheckKeyword(lexeme: string): (t: TokenType)
    ensures t == Int <==> lexeme == "int"
    ensures t == Void <==> lexeme == "void"
    ensures t == Return <==> lexeme == "return"
    ensures t == Identifier <==> lexeme != "int" && lexeme != "void" && lexeme != "return"
    ensures IsKeyword(t) || t == Identifier
  {
    if lexeme == "int" then Int
    else if lexeme == "void" then Void
    else if lexeme == "return" then Return
    else Identifier
  }

  /** `token_to_debug_string`. The enumeration is closed, so the `default` arm
      ("UNKNOWN") is not reachable from a value of the type. */
  function DebugName(t: TokenType): (name: string)
    ensures name != "UNKNOWN"
    // name[0] == 'K' follows from the prefix; it is spelled out so that the
    // verifier can rule out the other names by their first character
    ensures IsKeyword(t) <==> |name| > 8 && name[0] == 'K' && name[..8] == "KEYWORD_"
  {
    match t
    case Int => "KEYWORD_INT"
    case Void => "KEYWORD_VOID"
    case Return => "KEYWORD_RETURN"
    case Identifier => "IDENTIFIER"
    case Constant => "CONSTANT"
    case OpenParen => "OPEN_PAREN"
    case CloseParen => "CLOSE_PAREN"
    case OpenBrace => "OPEN_BRACE"
    case CloseBrace => "CLOSE_BRACE"
    case Semicolon => "SEMICOLON"
    case Eof => "EOF"
    case Error => "ERROR"
  }

  /** Distinct token types have distinct debug names. */
  lemma DebugNameInjective(a: TokenType, b: TokenType)
    requires DebugName(a) == DebugName(b)
    ensures a == b
  {
  }
}
