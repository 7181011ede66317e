/**
 Concrete inputs of the tokenizer with their outcome: inputs (or parts of
 them) of the repository's test script, and rejections that happen after an
 operator rather than at the start of a line or after a space.
 */
module TokenizerCases {
  import opened Tokenizer
  import opened LexProperties

  /**
   A ')' does not end an identifier: "(e)+", a part of the longer line of the
   test script, is an open parenthesis and the identifier "e)+".
   */
  lemma ParenthesisInsideIdentifier()
    ensures Lex("(e)+") == Some([Token("(", OpenPar), Token("e)+", Function)])
  {
    var s := "(e)+";
    assert IdentifierRun(s, 4) == 0;
    assert IdentifierRun(s, 2) == 2;
    assert TokenEnd(s, 1) == 4;
    assert s[1..4] == "e)+";
    assert KindAt(s, 1) == Function && Closed(s, 1);
    assert LexFrom(s, 4) == Some([]);
    assert [Token("e)+", Function)] + [] == [Token("e)+", Function)];
    assert LexFrom(s, 1) == Some([Token("e)+", Function)]);
    assert s[0..1] == "(" && TokenEnd(s, 0) == 1 && KindAt(s, 0) == OpenPar && Closed(s, 0);
    assert LexFrom(s, 0) == Prepend([Token("(", OpenPar)], LexFrom(s, 1));
    assert [Token("(", OpenPar)] + [Token("e)+", Function)] == [Token("(", OpenPar), Token("e)+", Function)];
  }

  /** A number may not end in its decimal comma: "1," does not tokenize. */
  lemma TrailingCommaLine()
    ensures Lex("1,") == None
  {
    TrailingCommaRejected("", "1", "");
    assert "" + ("1" + [','] + "") == "1,";
  }

  // ---------------------------------------------------------------------------
  // Numbers and identifiers right after an operator

  /** The one-character token of an operator character. */
  function OperatorToken(c: char): Token
    requires IsOperator(c)
  {
    Token([c], OneCharacterTypes[c])
  }

  /** A number directly followed by an operator is the number token and the operator token, and it ends at a boundary. */
  lemma NumberOperatorPiece(v: string, c: char)
    requires IsNumberText(v) && IsOperator(c)
    ensures Lex(v + [c]) == Some([Token(v, Number), OperatorToken(c)]) && Boundary(v + [c])
  {
    var b := v + [c];
    assert forall k :: 0 <= k < |v| ==> b[k] == v[k];
    assert b[|v|] == c;
    OneCharacterTable(c);
    NumberRunSpan(b, 1, false, |v|);
    assert TokenEnd(b, 0) == |v| && KindAt(b, 0) == Number && Closed(b, 0) && b[0..|v|] == v;
    assert TokenEnd(b, |v|) == |v| + 1 && b[|v|..|v| + 1] == [c];
    assert LexFrom(b, |v| + 1) == Some([]);
    assert LexFrom(b, |v|) == Some([OperatorToken(c)] + []);
    assert [Token(v, Number)] + ([OperatorToken(c)] + []) == [Token(v, Number), OperatorToken(c)];
  }

  /** A letter right after a number that follows an operator: "2*3x" does not tokenize. */
  lemma LetterAfterNumberAfterOperator()
    ensures Lex("2*3x") == None
  {
    NumberOperatorPiece("2", '*');
    NumberBadFollower("2" + ['*'], "3", 'x', "");
    assert ("2" + ['*']) + ("3" + ['x'] + "") == "2*3x";
  }

  /** A trailing comma on a number that follows an operator: "1+2," does not tokenize. */
  lemma TrailingCommaAfterOperator()
    ensures Lex("1+2,") == None
  {
    NumberOperatorPiece("1", '+');
    TrailingCommaRejected("1" + ['+'], "2", "");
    assert ("1" + ['+']) + ("2" + [','] + "") == "1+2,";
  }

  /** A function name right after an operator ends at its '(': "2*sin(3)". */
  lemma FunctionAfterOperator()
    ensures Lex("2*sin(3)") == Some([Token("2", Number), Token("*", Multiply), Token("sin", Function),
      Token("(", OpenPar), Token("3", Number), Token(")", ClosePar)])
  {
    var a, rest := "2" + ['*'], "3" + [')'];
    var two, times := Token("2", Number), OperatorToken('*');
    var sin, open := Token("sin", Function), Token(['('], OpenPar);
    var three, close := Token("3", Number), OperatorToken(')');
    NumberOperatorPiece("2", '*');
    NumberOperatorPiece("3", ')');
    IdentifierBeforeParen(a, "sin", rest);
    assert Lex(a + ("sin" + ['('] + rest)) == Some([two, times] + [sin, open] + [three, close]);
    assert [two, times] + [sin, open] + [three, close] == [two, times, sin, open, three, close];
    assert a + ("sin" + ['('] + rest) == "2*sin(3)";
    assert times == Token("*", Multiply) && close == Token(")", ClosePar) && open == Token("(", OpenPar);
  }
}
