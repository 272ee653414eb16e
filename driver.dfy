/** The token-counting driver loop of `main` (lexer.c:288-326): it calls the
    scanner until end of file, counts the error tokens and turns the count
    into the exit status. */
module Driver {
  import opened CharClass
  import opened Tokens
  import opened ScanSpec
  import opened Scanner

  /** The tokens the loop produces from cursor `i`: every token up to and
      including the first end of file. */
  function TokenStream(s: CString, i: nat): (ts: seq<Token>)
    requires i <= |s|
    ensures 1 <= |ts| <= |s| - i + 1
    decreases |s| - i
  {
    var r := Scan(s, i);
    if r.token.kind == Eof then [r.token] else [r.token] + TokenStream(s, r.next)
  }

  /** The number of error tokens in `ts`. */
  function ErrorCount(ts: seq<Token>): (n: nat)
    ensures n <= |ts|
  {
    if ts == [] then 0
    else ErrorCount(ts[..|ts| - 1]) + (if ts[|ts| - 1].kind == Error then 1 else 0)
  }

  /** The driver: scans the C string the file holds, one token per iteration
      of the do-while loop, until end of file. Returns the tokens, the error
      count and the exit status of `main`. */
  method Tokenize(raw: string) returns (tokens: seq<Token>, errorCount: nat, status: int)
    ensures tokens == TokenStream(CStringOf(raw), 0)
    ensures errorCount == ErrorCount(tokens)
    ensures status == 1 <==> errorCount > 0
    ensures status == 0 <==> errorCount == 0
    ensures status == 0 <==> forall k :: 0 <= k < |tokens| ==> tokens[k].kind != Error
  {
    var source := CStringOf(raw);
    var lexer := new Lexer(source);
    ghost var s := source;
    ghost var all := TokenStream(s, 0);
    tokens := [];
    errorCount := 0;
    var done := false;
    while !done
      invariant lexer.Valid() && lexer.buf == s
      invariant !done ==> tokens + TokenStream(s, lexer.pos) == all
      invariant done ==> tokens == all
      invariant errorCount == ErrorCount(tokens)
      decreases if done then 0 else |s| - lexer.pos + 1
    {
      var current := NextToken(lexer, tokens);
      ErrorCountAppend(tokens, current);
      tokens := tokens + [current];
      if current.kind == Error {
        errorCount := errorCount + 1;
      }
      done := current.kind == Eof;
    }
    ErrorCountZero(tokens);
    status := if errorCount > 0 then 1 else 0;
  }

  /** One pass of the loop body (lexer.c:294): the token and the new cursor
      are those of one scanner call; the token extends the tokens produced so
      far by one more token of the stream, and the cursor strictly advances
      unless that token is end of file. */
  method NextToken(lexer: Lexer, ghost tokens: seq<Token>) returns (current: Token)
    requires lexer.Valid()
    requires tokens + TokenStream(lexer.buf, lexer.pos) == TokenStream(lexer.buf, 0)
    modifies lexer`pos
    ensures lexer.Valid()
    ensures Step(current, lexer.pos) == Scan(lexer.buf, old(lexer.pos))
    ensures current.kind == Eof ==> tokens + [current] == TokenStream(lexer.buf, 0)
    ensures current.kind != Eof ==>
              old(lexer.pos) < lexer.pos
              && (tokens + [current]) + TokenStream(lexer.buf, lexer.pos) == TokenStream(lexer.buf, 0)
  {
    ghost var before := lexer.pos;
    current := lexer.GetNextToken();
    StreamAdvance(lexer.buf, tokens, before, current, lexer.pos);
  }

  /** One step of the stream: the token scanned at `i`, then the rest. */
  lemma StreamStep(s: CString, i: nat)
    requires i <= |s|
    ensures var r := Scan(s, i);
            TokenStream(s, i) == [r.token] + (if r.token.kind == Eof then [] else TokenStream(s, r.next))
  {
  }

  /** Appending the token scanned at `before` keeps the stream invariant of the driver loop. */
  lemma StreamAdvance(s: CString, tokens: seq<Token>, before: nat, current: Token, after: nat)
    requires before <= |s| && tokens + TokenStream(s, before) == TokenStream(s, 0)
    requires Step(current, after) == Scan(s, before)
    ensures after <= |s|
    ensures current.kind == Eof ==> tokens + [current] == TokenStream(s, 0)
    ensures current.kind != Eof ==>
              before < after && (tokens + [current]) + TokenStream(s, after) == TokenStream(s, 0)
  {
    StreamStep(s, before);
    if current.kind != Eof {
      assert (tokens + [current]) + TokenStream(s, after) == tokens + ([current] + TokenStream(s, after));
    }
  }

  lemma ErrorCountAppend(ts: seq<Token>, t: Token)
    ensures ErrorCount(ts + [t]) == ErrorCount(ts) + (if t.kind == Error then 1 else 0)
  {
    assert (ts + [t])[..|ts|] == ts;
  }

  // ------------------------------------------------ properties of the stream

  /** The stream is never empty and its last token is end of file. */
  lemma {:induction false} StreamEndsWithEof(s: CString, i: nat)
    requires i <= |s|
    ensures |TokenStream(s, i)| >= 1 && TokenStream(s, i)[|TokenStream(s, i)| - 1].kind == Eof
    decreases |s| - i
  {
    var r := Scan(s, i);
    if r.token.kind != Eof {
      var rest := TokenStream(s, r.next);
      StreamEndsWithEof(s, r.next);
      var ts := TokenStream(s, i);
      assert ts == [r.token] + rest;
      assert ts[|ts| - 1] == rest[|rest| - 1];
    }
  }

  /** No token before the last one is end of file: the loop stops at the first one. */
  lemma {:induction false} StreamEofOnlyAtEnd(s: CString, i: nat)
    requires i <= |s|
    ensures forall k :: 0 <= k < |TokenStream(s, i)| - 1 ==> TokenStream(s, i)[k].kind != Eof
    decreases |s| - i
  {
    var r := Scan(s, i);
    if r.token.kind != Eof {
      var ts, rest := TokenStream(s, i), TokenStream(s, r.next);
      StreamEofOnlyAtEnd(s, r.next);
      assert ts == [r.token] + rest;
      forall k | 0 <= k < |ts| - 1 ensures ts[k].kind != Eof {
        if k > 0 {
          assert ts[k] == rest[k - 1];
        } else {
          assert ts[k] == r.token;
        }
      }
    }
  }

  /** The error count is zero exactly when no token is an error token. */
  lemma {:induction false} ErrorCountZero(ts: seq<Token>)
    ensures ErrorCount(ts) == 0 <==> forall k :: 0 <= k < |ts| ==> ts[k].kind != Error
  {
    if ts != [] {
      var init := ts[..|ts| - 1];
      ErrorCountZero(init);
      assert forall k :: 0 <= k < |init| ==> init[k] == ts[k];
    }
  }

  /** The lexemes of a token sequence, concatenated. */
  function Lexemes(ts: seq<Token>): string
  {
    if ts == [] then [] else ts[0].lexeme + Lexemes(ts[1..])
  }

  /** The text with its whitespace removed. */
  function Unspaced(t: string): string
  {
    if t == [] then [] else (if IsSpace(t[0]) then [] else [t[0]]) + Unspaced(t[1..])
  }

  lemma {:induction false} UnspacedConcat(a: string, b: string)
    ensures Unspaced(a + b) == Unspaced(a) + Unspaced(b)
  {
    if a == [] {
      assert a + b == b;
    } else {
      assert (a + b)[1..] == a[1..] + b;
      UnspacedConcat(a[1..], b);
    }
  }

  lemma {:induction false} UnspacedOfSpaces(a: string)
    requires forall k :: 0 <= k < |a| ==> IsSpace(a[k])
    ensures Unspaced(a) == []
  {
    if a != [] {
      UnspacedOfSpaces(a[1..]);
    }
  }

  lemma {:induction false} UnspacedOfWord(a: string)
    requires forall k :: 0 <= k < |a| ==> !IsSpace(a[k])
    ensures Unspaced(a) == a
  {
    if a != [] {
      UnspacedOfWord(a[1..]);
    }
  }

  lemma SplitUnspaced(s: CString, i: nat, b: nat, e: nat)
    requires i <= b <= e <= |s|
    requires forall k :: i <= k < b ==> IsSpace(s[k])
    ensures Unspaced(s[i..]) == Unspaced(s[b..e]) + Unspaced(s[e..])
  {
    assert s[i..] == s[i..b] + (s[b..e] + s[e..]);
    UnspacedConcat(s[i..b], s[b..e] + s[e..]);
    UnspacedConcat(s[b..e], s[e..]);
    UnspacedOfSpaces(s[i..b]);
  }

  /** Scanning loses nothing but whitespace: the lexemes of the stream, put
      together, are the rest of the buffer with its whitespace removed. */
  lemma {:induction false} StreamCoversInput(s: CString, i: nat)
    requires i <= |s|
    ensures Lexemes(TokenStream(s, i)) == Unspaced(s[i..])
    decreases |s| - i
  {
    var r, b := Scan(s, i), TokenStart(s, i);
    StreamStep(s, i);
    if r.token.kind == Eof {
      assert TokenStream(s, i) == [r.token];
      UnspacedOfSpaces(s[i..]);
    } else {
      var rest := TokenStream(s, r.next);
      assert TokenStream(s, i) == [r.token] + rest;
      assert ([r.token] + rest)[1..] == rest;
      StreamCoversInput(s, r.next);
      SplitUnspaced(s, i, b, r.next);
      UnspacedOfWord(r.token.lexeme);
    }
  }

  /** A buffer holding only whitespace (the empty buffer among them) yields
      end of file alone, and no errors. */
  lemma BlankInput(s: CString)
    requires forall k :: 0 <= k < |s| ==> IsSpace(s[k])
    ensures TokenStream(s, 0) == [Token(Eof, [])]
    ensures ErrorCount(TokenStream(s, 0)) == 0
  {
    ScanEofIff(s, 0);
  }
}
