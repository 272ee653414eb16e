/** The <ctype.h> character classes the scanner uses, fixed to the C locale (ASCII). */
module CharClass {

  /** `isspace`: space, and the controls tab, newline, vertical tab, form feed, carriage return. */
  predicate IsSpace(c: char) { c == ' ' || '\t' <= c <= '\r' }

  /** `isdigit` */
  predicate IsDigit(c: char) { '0' <= c <= '9' }

  /** `isalpha` */
  predicate IsAlpha(c: char) { 'a' <= c <= 'z' || 'A' <= c <= 'Z' }

  /** `isalnum` */
  predicate IsAlnum(c: char) { IsAlpha(c) || IsDigit(c) }

  /** A character that may start an identifier: `isalpha(c) || c == '_'`. */
  predicate IsIdentStart(c: char) { IsAlpha(c) || c == '_' }

  /** A character that may continue an identifier: `isalnum(c) || c == '_'`. */
  predicate IsIdentChar(c: char) { IsAlnum(c) || c == '_' }

  /** The five one-character punctuators `( ) { } ;`. */
  predicate IsPunct(c: char) { c == '(' || c == ')' || c == '{' || c == '}' || c == ';' }

  /** A character the error run goes on over: not the terminator, not whitespace, not a punctuator. */
  predicate IsErrorChar(c: char) { c != '\0' && !IsSpace(c) && !IsPunct(c) }

  /** A character a line comment goes on over. */
  predicate NotNewline(c: char) { c != '\n' }
}
