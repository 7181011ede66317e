/**
 What the tokens of an expression look like and when an expression fails to
 tokenize, stated about the reference lexer `Lex`, which `Tokenize` computes.
 */
module LexProperties {
  import opened Tokenizer

  // ---------------------------------------------------------------------------
  // What the runs hold

  /**
   A number run holds digits and commas, at most one comma (none when one was
   already seen), and it stops only at a non-digit that is not an allowed comma.
   */
  lemma {:induction false} NumberRunShape(s: string, i: nat, seenComma: bool)
    requires i <= |s|
    ensures var n := NumberRun(s, i, seenComma);
      && (forall k :: i <= k < i + n ==> IsDigit(s[k]) || s[k] == ',')
      && (forall j, k :: i <= j < k < i + n && s[j] == ',' ==> s[k] != ',')
      && (seenComma ==> forall k :: i <= k < i + n ==> s[k] != ',')
      && (i + n < |s| ==> !IsDigit(s[i + n]))
      && (i + n < |s| && s[i + n] == ',' ==> seenComma || exists k :: i <= k < i + n && s[k] == ',')
    decreases |s| - i
  {
    if i < |s| && (IsDigit(s[i]) || (s[i] == ',' && !seenComma)) {
      NumberRunShape(s, i + 1, seenComma || s[i] == ',');
    }
  }

  /** Conversely, a stretch of digits and commas that ends where a number run must stop is one. */
  lemma {:induction false} NumberRunSpan(s: string, i: nat, seenComma: bool, end: nat)
    requires i <= end <= |s|
    requires forall k :: i <= k < end ==> IsDigit(s[k]) || s[k] == ','
    requires forall j, k :: i <= j < k < end && s[j] == ',' ==> s[k] != ','
    requires seenComma ==> forall k :: i <= k < end ==> s[k] != ','
    requires end < |s| ==> !IsDigit(s[end]) && (s[end] == ',' ==> seenComma || exists k :: i <= k < end && s[k] == ',')
    ensures NumberRun(s, i, seenComma) == end - i
    decreases end - i
  {
    if i < end {
      NumberRunSpan(s, i + 1, seenComma || s[i] == ',', end);
    }
  }

  /** An identifier run holds no ' ' and no '(' and stops only at one of them. */
  lemma {:induction false} IdentifierRunShape(s: string, i: nat)
    requires i <= |s|
    ensures var n := IdentifierRun(s, i);
      && (forall k :: i <= k < i + n ==> s[k] != ' ' && s[k] != '(')
      && (i + n < |s| ==> s[i + n] == ' ' || s[i + n] == '(')
    decreases |s| - i
  {
    if i < |s| && s[i] != ' ' && s[i] != '(' {
      IdentifierRunShape(s, i + 1);
    }
  }

  /** Conversely, a stretch free of ' ' and '(' that ends at one of them or at the end is one. */
  lemma {:induction false} IdentifierRunSpan(s: string, i: nat, end: nat)
    requires i <= end <= |s|
    requires forall k :: i <= k < end ==> s[k] != ' ' && s[k] != '('
    requires end < |s| ==> s[end] == ' ' || s[end] == '('
    ensures IdentifierRun(s, i) == end - i
    decreases end - i
  {
    if i < end {
      IdentifierRunSpan(s, i + 1, end);
    }
  }

  // ---------------------------------------------------------------------------
  // What the tokens look like

  /** A number: a digit first, then digits with at most one ',', and no ',' last. */
  predicate IsNumberText(v: string)
  {
    && |v| > 0 && IsDigit(v[0]) && v[|v| - 1] != ','
    && (forall k :: 0 <= k < |v| ==> IsDigit(v[k]) || v[k] == ',')
    && (forall j, k :: 0 <= j < k < |v| && v[j] == ',' ==> v[k] != ',')
  }

  /** An identifier: a first character that is no space, digit or operator, and no ' ' or '(' at all. */
  predicate IsIdentifierText(v: string)
  {
    && |v| > 0 && v[0] != ' ' && !IsDigit(v[0]) && !IsOperator(v[0])
    && (forall k :: 0 <= k < |v| ==> v[k] != ' ' && v[k] != '(')
  }

  /** The shape each kind of token has; an operator token is its one character, kind from the table. */
  predicate WellFormed(t: Token)
  {
    match t.kind
    case Number => IsNumberText(t.value)
    case Function => IsIdentifierText(t.value)
    case _ => |t.value| == 1 && IsOperator(t.value[0]) && OneCharacterTypes[t.value[0]] == t.kind
  }

  /** The token `Lex` cuts at a character that is not a space, when closed, has the shape of its kind and no space. */
  lemma TokenShape(s: string, i: nat)
    requires i < |s| && s[i] != ' ' && Closed(s, i)
    ensures WellFormed(Token(s[i..TokenEnd(s, i)], KindAt(s, i)))
    ensures forall k :: i <= k < TokenEnd(s, i) ==> s[k] != ' '
  {
    var v := s[i..TokenEnd(s, i)];
    assert forall k :: 0 <= k < |v| ==> v[k] == s[i + k];
    if IsDigit(s[i]) {
      NumberRunShape(s, i + 1, false);
    } else if !IsOperator(s[i]) {
      IdentifierRunShape(s, i + 1);
    }
  }

  lemma {:induction false} LexFromWellFormed(s: string, i: nat)
    requires i <= |s|
    ensures LexFrom(s, i).Some? ==> forall t :: t in LexFrom(s, i).value ==> WellFormed(t)
    decreases |s| - i
  {
    if i == |s| {
    } else if s[i] == ' ' {
      LexFromWellFormed(s, i + 1);
    } else if Closed(s, i) {
      TokenShape(s, i);
      LexFromWellFormed(s, TokenEnd(s, i));
    }
  }

  /**
   Every token of a text has the shape of its kind: numbers are digits with at
   most one ',' and not ',' last, identifiers hold no ' ' and no '(', and the
   seven operators are tokens of one character whose kind comes from the table.
   */
  lemma LexWellFormed(s: string)
    ensures Lex(s).Some? ==> forall t :: t in Lex(s).value ==> WellFormed(t)
  {
    LexFromWellFormed(s, 0);
  }

  // ---------------------------------------------------------------------------
  // Tokens and the text they come from

  /** The token values written one after the other. */
  function Values(ts: seq<Token>): string
  {
    if ts == [] then [] else ts[0].value + Values(ts[1..])
  }

  /** `s` with every ' ' taken out. */
  function RemoveSpaces(s: string): string
  {
    if s == [] then [] else (if s[0] == ' ' then [] else [s[0]]) + RemoveSpaces(s[1..])
  }

  lemma {:induction false} RemoveSpacesAppend(a: string, b: string)
    ensures RemoveSpaces(a + b) == RemoveSpaces(a) + RemoveSpaces(b)
  {
    if a == [] {
      assert a + b == b;
    } else {
      assert (a + b)[0] == a[0] && (a + b)[1..] == a[1..] + b;
      RemoveSpacesAppend(a[1..], b);
    }
  }

  lemma {:induction false} RemoveSpacesNoSpace(v: string)
    requires forall k :: 0 <= k < |v| ==> v[k] != ' '
    ensures RemoveSpaces(v) == v
  {
    if v != [] {
      RemoveSpacesNoSpace(v[1..]);
    }
  }

  /** A token free of spaces cut off the front of the text keeps values and text in step. */
  lemma ValuesCut(s: string, i: nat, j: nat, t: Token, r: Option<seq<Token>>)
    requires i <= j <= |s| && t.value == s[i..j]
    requires forall k :: i <= k < j ==> s[k] != ' '
    requires r.Some? ==> Values(r.value) == RemoveSpaces(s[j..])
    ensures Prepend([t], r).Some? ==> Values(Prepend([t], r).value) == RemoveSpaces(s[i..])
  {
    assert s[i..] == s[i..j] + s[j..];
    RemoveSpacesAppend(s[i..j], s[j..]);
    RemoveSpacesNoSpace(s[i..j]);
    if r.Some? {
      assert ([t] + r.value)[1..] == r.value;
    }
  }

  lemma {:induction false} LexFromValues(s: string, i: nat)
    requires i <= |s|
    ensures LexFrom(s, i).Some? ==> Values(LexFrom(s, i).value) == RemoveSpaces(s[i..])
    decreases |s| - i
  {
    if i == |s| {
    } else if s[i] == ' ' {
      assert s[i..][1..] == s[i + 1..];
      LexFromValues(s, i + 1);
    } else if Closed(s, i) {
      var j := TokenEnd(s, i);
      TokenShape(s, i);
      LexFromValues(s, j);
      ValuesCut(s, i, j, Token(s[i..j], KindAt(s, i)), LexFrom(s, j));
    }
  }

  /**
   Spaces never end up inside tokens and nothing else is dropped: the token
   values, written one after the other, are the text with its spaces taken out.
   */
  lemma LexConcat(s: string)
    ensures Lex(s).Some? ==> Values(Lex(s).value) == RemoveSpaces(s)
  {
    LexFromValues(s, 0);
  }

  // ---------------------------------------------------------------------------
  // Lexing a text in pieces

  lemma {:induction false} NumberRunShift(a: string, b: string, k: nat, seenComma: bool)
    requires k <= |b|
    ensures NumberRun(a + b, |a| + k, seenComma) == NumberRun(b, k, seenComma)
    decreases |b| - k
  {
    if k < |b| {
      assert (a + b)[|a| + k] == b[k];
      NumberRunShift(a, b, k + 1, seenComma || b[k] == ',');
    }
  }

  lemma {:induction false} IdentifierRunShift(a: string, b: string, k: nat)
    requires k <= |b|
    ensures IdentifierRun(a + b, |a| + k) == IdentifierRun(b, k)
    decreases |b| - k
  {
    if k < |b| {
      assert (a + b)[|a| + k] == b[k];
      IdentifierRunShift(a, b, k + 1);
    }
  }

  /** After any text, a token is cut the same way as in the text that follows alone. */
  lemma TokenShift(a: string, b: string, k: nat)
    requires k < |b|
    ensures TokenEnd(a + b, |a| + k) == |a| + TokenEnd(b, k)
    ensures KindAt(a + b, |a| + k) == KindAt(b, k) && Closed(a + b, |a| + k) == Closed(b, k)
    ensures (a + b)[|a| + k..|a| + TokenEnd(b, k)] == b[k..TokenEnd(b, k)]
  {
    var s := a + b;
    assert s[|a| + k] == b[k];
    if IsDigit(b[k]) {
      NumberRunShift(a, b, k + 1, false);
    } else if !IsOperator(b[k]) {
      IdentifierRunShift(a, b, k + 1);
    }
    var j := TokenEnd(b, k);
    assert s[|a| + j - 1] == b[j - 1];
    assert j < |b| ==> s[|a| + j] == b[j];
  }

  /** What is written before a position does not change how the text after it is lexed. */
  lemma {:induction false} LexFromShift(a: string, b: string, k: nat)
    requires k <= |b|
    ensures LexFrom(a + b, |a| + k) == LexFrom(b, k)
    decreases |b| - k
  {
    if k < |b| {
      assert (a + b)[|a| + k] == b[k];
      if b[k] == ' ' {
        LexFromShift(a, b, k + 1);
      } else {
        TokenShift(a, b, k);
        LexFromShift(a, b, TokenEnd(b, k));
      }
    }
  }

  lemma {:induction false} NumberRunPrefix(a: string, b: string, i: nat, seenComma: bool)
    requires i <= |a| && i + NumberRun(a, i, seenComma) < |a|
    ensures NumberRun(a + b, i, seenComma) == NumberRun(a, i, seenComma)
    decreases |a| - i
  {
    assert (a + b)[i] == a[i];
    if IsDigit(a[i]) || (a[i] == ',' && !seenComma) {
      NumberRunPrefix(a, b, i + 1, seenComma || a[i] == ',');
    }
  }

  lemma {:induction false} IdentifierRunPrefix(a: string, b: string, i: nat)
    requires i <= |a| && i + IdentifierRun(a, i) < |a|
    ensures IdentifierRun(a + b, i) == IdentifierRun(a, i)
    decreases |a| - i
  {
    assert (a + b)[i] == a[i];
    if a[i] != ' ' && a[i] != '(' {
      IdentifierRunPrefix(a, b, i + 1);
    }
  }

  /** A text that ends with ' ' or '(' closes its last token itself, whatever follows. */
  predicate EndsClosed(a: string)
  {
    a == [] || a[|a| - 1] == ' ' || a[|a| - 1] == '('
  }

  /** The last of the tokens `ts` is the one-character operator token of the last character of `a`. */
  predicate EndsInOperator(a: string, ts: seq<Token>)
  {
    && |a| > 0 && IsOperator(a[|a| - 1])
    && |ts| > 0 && ts[|ts| - 1] == Token([a[|a| - 1]], OneCharacterTypes[a[|a| - 1]])
  }

  /**
   A text that tokenizes and whose last token cannot grow, whatever is written
   after it: the text is empty or ends with ' ' or '(', or its last token is a
   one-character operator at its very end. Wherever the scanner starts a number
   or an identifier, the text before it is of this kind.
   */
  predicate Boundary(a: string)
  {
    Lex(a).Some? && (EndsClosed(a) || EndsInOperator(a, Lex(a).value))
  }

  /** Only spaces follow a position from which no tokens are read. */
  lemma {:induction false} EmptyTail(s: string, i: nat)
    requires i <= |s| && LexFrom(s, i) == Some([])
    ensures forall k :: i <= k < |s| ==> s[k] == ' '
    decreases |s| - i
  {
    if i < |s| && s[i] == ' ' {
      EmptyTail(s, i + 1);
    }
  }

  /** A token that ends where a text ending closed ends is a one-character operator. */
  lemma LastTokenCloses(a: string, i: nat)
    requires i < |a| && a[i] != ' ' && Closed(a, i) && TokenEnd(a, i) == |a|
    requires EndsClosed(a) || EndsInOperator(a, [Token(a[i..|a|], KindAt(a, i))])
    ensures IsOperator(a[i])
  {
    var v := a[i..|a|];
    if EndsInOperator(a, [Token(v, KindAt(a, i))]) {
      assert |v| == 1 && v[0] == a[i];
    } else {
      TokenShape(a, i);
      assert v[|v| - 1] == a[|a| - 1] == '(';
    }
  }

  /** A token that ends inside a text, or is an operator, is cut the same way whatever follows the text. */
  lemma TokenPrefix(a: string, b: string, i: nat)
    requires i < |a| && a[i] != ' ' && (TokenEnd(a, i) < |a| || IsOperator(a[i]))
    ensures TokenEnd(a + b, i) == TokenEnd(a, i)
    ensures KindAt(a + b, i) == KindAt(a, i) && Closed(a + b, i) == Closed(a, i)
    ensures (a + b)[i..TokenEnd(a, i)] == a[i..TokenEnd(a, i)]
  {
    var s := a + b;
    assert s[i] == a[i];
    OneCharacterTable(a[i]);
    if IsDigit(a[i]) {
      NumberRunPrefix(a, b, i + 1, false);
    } else if !IsOperator(a[i]) {
      IdentifierRunPrefix(a, b, i + 1);
    }
    var j := TokenEnd(a, i);
    assert s[j - 1] == a[j - 1];
    assert j < |a| ==> s[j] == a[j];
  }

  lemma {:induction false} LexFromSplit(a: string, b: string, i: nat)
    requires i <= |a| && LexFrom(a, i).Some?
    requires i < |a| ==> EndsClosed(a) || EndsInOperator(a, LexFrom(a, i).value)
    ensures LexFrom(a + b, i) == Prepend(LexFrom(a, i).value, LexFrom(a + b, |a|))
    decreases |a| - i
  {
    var s := a + b;
    if i == |a| {
      if LexFrom(s, |a|).Some? {
        assert [] + LexFrom(s, |a|).value == LexFrom(s, |a|).value;
      }
    } else if a[i] == ' ' {
      assert s[i] == a[i];
      LexFromSplit(a, b, i + 1);
    } else {
      assert s[i] == a[i];
      var j := TokenEnd(a, i);
      var tok := Token(a[i..j], KindAt(a, i));
      var rest := LexFrom(a, j).value;
      assert LexFrom(a, i).value == [tok] + rest;
      if j == |a| {
        LastTokenCloses(a, i);
      } else if rest == [] {
        EmptyTail(a, j);
      } else {
        assert ([tok] + rest)[|rest|] == rest[|rest| - 1];
      }
      TokenPrefix(a, b, i);
      LexFromSplit(a, b, j);
      PrependPrepend([tok], rest, LexFrom(s, |a|));
    }
  }

  /**
   A text whose last token cannot grow can be lexed on its own: what comes
   after it is lexed as if it stood alone, and the two lists are joined.
   */
  lemma LexSplit(a: string, b: string)
    requires Boundary(a)
    ensures Lex(a + b) == Prepend(Lex(a).value, Lex(b))
  {
    LexFromSplit(a, b, 0);
    LexFromShift(a, b, 0);
  }

  // ---------------------------------------------------------------------------
  // Writing tokens back out

  /** The tokens written back as text, each value followed by one space. */
  function Unlex(ts: seq<Token>): string
  {
    if ts == [] then [] else ts[0].value + [' '] + Unlex(ts[1..])
  }

  /** A well-formed token followed by a space is lexed back as that one token. */
  lemma LexSingle(t: Token)
    requires WellFormed(t)
    ensures Lex(t.value + [' ']) == Some([t])
  {
    var v := t.value;
    var s := v + [' '];
    assert forall k :: 0 <= k < |v| ==> s[k] == v[k];
    assert s[|v|] == ' ';
    OneCharacterTable(v[0]);
    if t.kind == Number {
      NumberRunSpan(s, 1, false, |v|);
    } else if t.kind == Function {
      IdentifierRunSpan(s, 1, |v|);
    }
    assert TokenEnd(s, 0) == |v| && KindAt(s, 0) == t.kind && Closed(s, 0);
    assert s[0..|v|] == v;
    assert LexFrom(s, |v|) == Some([]);
    assert [t] + [] == [t];
  }

  /**
   Writing well-formed tokens back out, one space after each, and lexing the
   text gives the same tokens again.
   */
  lemma {:induction false} LexUnlex(ts: seq<Token>)
    requires forall t :: t in ts ==> WellFormed(t)
    ensures Lex(Unlex(ts)) == Some(ts)
  {
    if ts != [] {
      var a := ts[0].value + [' '];
      LexSingle(ts[0]);
      LexUnlex(ts[1..]);
      LexSplit(a, Unlex(ts[1..]));
      assert [ts[0]] + ts[1..] == ts;
    }
  }

  /**
   The tokens of any text, written back out one space after each, lex to the
   same tokens: spacing aside, a token list determines its text.
   */
  lemma LexNormalForm(s: string)
    requires Lex(s).Some?
    ensures Lex(Unlex(Lex(s).value)) == Lex(s)
  {
    LexWellFormed(s);
    LexUnlex(Lex(s).value);
  }

  // ---------------------------------------------------------------------------
  // When a text does not tokenize, and how identifiers end

  /**
   A number followed by a character that is no digit, operator or space, or
   by a second ',', makes the whole text fail, wherever the scanner starts the
   number and whatever comes after.
   */
  lemma NumberBadFollower(a: string, v: string, c: char, rest: string)
    requires Boundary(a)
    requires |v| > 0 && IsDigit(v[0])
    requires forall k :: 0 <= k < |v| ==> IsDigit(v[k]) || v[k] == ','
    requires forall j, k :: 0 <= j < k < |v| && v[j] == ',' ==> v[k] != ','
    requires !IsDigit(c) && !IsOperator(c) && c != ' '
    requires c == ',' ==> exists k :: 0 <= k < |v| && v[k] == ','
    ensures Lex(a + (v + [c] + rest)) == None
  {
    var b := v + [c] + rest;
    assert forall k :: 0 <= k < |v| ==> b[k] == v[k];
    assert b[|v|] == c;
    NumberRunSpan(b, 1, false, |v|);
    assert !Closed(b, 0);
    LexSplit(a, b);
  }

  /**
   A number whose last character is ',' makes the whole text fail when an
   operator, a space or the end of the text follows it, wherever the scanner
   starts the number.
   */
  lemma TrailingCommaRejected(a: string, d: string, rest: string)
    requires Boundary(a)
    requires |d| > 0 && forall k :: 0 <= k < |d| ==> IsDigit(d[k])
    requires rest == [] || IsOperator(rest[0]) || rest[0] == ' '
    ensures Lex(a + (d + [','] + rest)) == None
  {
    var b := d + [','] + rest;
    assert forall k :: 0 <= k < |d| ==> b[k] == d[k];
    assert b[|d|] == ',';
    assert |d| + 1 < |b| ==> b[|d| + 1] == rest[0];
    if rest != [] {
      OneCharacterTable(rest[0]);
    }
    NumberRunSpan(b, 1, false, |d| + 1);
    assert !Closed(b, 0);
    LexSplit(a, b);
  }

  /**
   An identifier ends at the first ' ' or '('; that character is not part of
   it, and a '(' becomes an OPEN_PAR token of its own, wherever the scanner
   starts the identifier.
   */
  lemma IdentifierBeforeParen(a: string, v: string, rest: string)
    requires Boundary(a)
    requires IsIdentifierText(v)
    ensures Lex(a + (v + ['('] + rest)) ==
      Prepend(Lex(a).value + [Token(v, Function), Token(['('], OpenPar)], Lex(rest))
  {
    var p := v + ['('];
    var b := p + rest;
    assert forall k :: 0 <= k < |v| ==> b[k] == v[k];
    assert b[|v|] == '(';
    IdentifierRunSpan(b, 1, |v|);
    assert TokenEnd(b, 0) == |v| && KindAt(b, 0) == Function && b[0..|v|] == v;
    assert TokenEnd(b, |v|) == |v| + 1 && KindAt(b, |v|) == OpenPar && b[|v|..|v| + 1] == ['('];
    LexFromShift(p, rest, 0);
    assert LexFrom(b, |v| + 1) == Lex(rest);
    assert LexFrom(b, |v|) == Prepend([Token(['('], OpenPar)], Lex(rest));
    assert Lex(b) == Prepend([Token(v, Function)], LexFrom(b, |v|));
    PrependPrepend([Token(v, Function)], [Token(['('], OpenPar)], Lex(rest));
    assert [Token(v, Function)] + [Token(['('], OpenPar)] == [Token(v, Function), Token(['('], OpenPar)];
    LexSplit(a, b);
    PrependPrepend(Lex(a).value, [Token(v, Function), Token(['('], OpenPar)], Lex(rest));
  }

  // ---------------------------------------------------------------------------
  // Texts that always tokenize

  /** No ',' at all, and every digit is followed by a digit, a space or the end of the text. */
  predicate NumbersSpaced(s: string)
  {
    && (forall k :: 0 <= k < |s| ==> s[k] != ',')
    && (forall k :: 0 < k < |s| && IsDigit(s[k - 1]) ==> IsDigit(s[k]) || s[k] == ' ')
  }

  lemma {:induction false} LexFromSucceeds(s: string, i: nat)
    requires i <= |s| && NumbersSpaced(s)
    ensures LexFrom(s, i).Some?
    decreases |s| - i
  {
    if i < |s| {
      if s[i] == ' ' {
        LexFromSucceeds(s, i + 1);
      } else {
        if IsDigit(s[i]) {
          NumberRunShape(s, i + 1, false);
          var j := TokenEnd(s, i);
          assert IsDigit(s[j - 1]);
        }
        LexFromSucceeds(s, TokenEnd(s, i));
      }
    }
  }

  /**
   A text with no ',' in which every digit is followed by a digit, a space or
   the end of the text always tokenizes.
   */
  lemma LexSucceeds(s: string)
    requires NumbersSpaced(s)
    ensures Lex(s).Some?
  {
    LexFromSucceeds(s, 0);
  }
}
