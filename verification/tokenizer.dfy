/**
 The expression tokenizer of the calculator (my_eval.py): the token kinds, the
 precedence levels, the one-character operator table and the scanner that turns
 an input line into a list of tokens, or fails.

 `Tokenize` is the scanner as the source writes it: one left-to-right loop over
 an index with an idle / NUMBER / identifier state. `Lex` is an independent,
 front-to-back description of the same language (each token is the longest run
 its first character allows); `Tokenize` is proved to compute `Lex`, and the
 lemmas below state what `Lex` guarantees.
 */
module Tokenizer {

  datatype Option<T> = None | Some(value: T)

  /** The kinds of token. */
  datatype TokenType =
    | Number | Plus | Minus | Multiply | Divide | Exponent | OpenPar | ClosePar | Function

  /** Precedence levels; `Pars` is meant to be the largest. */
  datatype Prec = Min | Term | Factor | Power | Func | Pars

  /** The integer each precedence level carries in the source's enumeration. */
  function Rank(p: Prec): nat
  {
    match p
    case Min => 0
    case Term => 1
    case Factor => 2
    case Power => 3
    case Func => 4
    case Pars => 5
  }

  /** The seven characters that always form a token on their own. */
  const OneCharacterTypes: map<char, TokenType> :=
    map['+' := Plus, '-' := Minus, '*' := Multiply, '/' := Divide,
        '^' := Exponent, '(' := OpenPar, ')' := ClosePar]

  /** The precedence of each token kind. */
  const Precedence: map<TokenType, Prec> :=
    map[Number := Min, Plus := Term, Minus := Term, Multiply := Factor, Divide := Factor,
        Exponent := Power, OpenPar := Pars, ClosePar := Min, Function := Func]

  datatype Token = Token(value: string, kind: TokenType)

  predicate IsDigit(c: char)
  {
    '0' <= c <= '9'
  }

  predicate IsOperator(c: char)
  {
    c in OneCharacterTypes
  }

  lemma PrecedenceLevels()
    ensures Rank(Min) < Rank(Term) < Rank(Factor) < Rank(Power) < Rank(Func) < Rank(Pars)
    ensures forall p: Prec :: Rank(p) <= Rank(Pars)
    ensures forall t: TokenType :: t in Precedence
    ensures Precedence[Plus] == Precedence[Minus] == Term
    ensures Precedence[Multiply] == Precedence[Divide] == Factor
    ensures Precedence[Exponent] == Power && Precedence[Function] == Func
    ensures Precedence[OpenPar] == Pars
  {
    forall t: TokenType ensures t in Precedence {
      match t
      case Number => case Plus => case Minus => case Multiply => case Divide =>
      case Exponent => case OpenPar => case ClosePar => case Function =>
    }
  }

  lemma OneCharacterTable(c: char)
    ensures IsOperator(c) <==> c in "+-*/^()"
    ensures IsOperator(c) ==> !IsDigit(c) && c != ' ' && c != ','
  {
  }

  // ---------------------------------------------------------------------------
  // The reference lexer

  /**
   The length of the longest run of `s` from position `i` made of digits and
   ',' that holds at most one ',' (none at all when `seenComma`).
   */
  function NumberRun(s: string, i: nat, seenComma: bool): (n: nat)
    requires i <= |s|
    ensures i + n <= |s|
    decreases |s| - i
  {
    if i < |s| && (IsDigit(s[i]) || (s[i] == ',' && !seenComma)) then
      1 + NumberRun(s, i + 1, seenComma || s[i] == ',')
    else
      0
  }

  /** The length of the longest run of `s` from position `i` that holds no ' ' and no '('. */
  function IdentifierRun(s: string, i: nat): (n: nat)
    requires i <= |s|
    ensures i + n <= |s|
    decreases |s| - i
  {
    if i < |s| && s[i] != ' ' && s[i] != '(' then 1 + IdentifierRun(s, i + 1) else 0
  }

  /**
   Where the token that starts at `i` ends: a digit starts a number that takes
   the longest run of digits with at most one ','; an operator is a token of
   its own; any other character starts an identifier that runs up to the next
   ' ' or '('.
   */
  function TokenEnd(s: string, i: nat): (j: nat)
    requires i < |s|
    ensures i < j <= |s|
  {
    if IsDigit(s[i]) then i + 1 + NumberRun(s, i + 1, false)
    else if IsOperator(s[i]) then i + 1
    else i + 1 + IdentifierRun(s, i + 1)
  }

  /** The kind of the token that starts at `i`. */
  function KindAt(s: string, i: nat): TokenType
    requires i < |s|
  {
    if IsDigit(s[i]) then Number
    else if IsOperator(s[i]) then OneCharacterTypes[s[i]]
    else Function
  }

  /**
   Whether the token that starts at `i` is properly closed: a number must end
   at an operator, a space or the end of the text, and not in a ','; the
   other tokens always are.
   */
  predicate Closed(s: string, i: nat)
    requires i < |s|
  {
    var j := TokenEnd(s, i);
    IsDigit(s[i]) ==> s[j - 1] != ',' && (j == |s| || IsOperator(s[j]) || s[j] == ' ')
  }

  /** `ts` followed by the tokens of `r`; a failure stays a failure. */
  function Prepend(ts: seq<Token>, r: Option<seq<Token>>): Option<seq<Token>>
  {
    if r.Some? then Some(ts + r.value) else None
  }

  /**
   The tokens of `s` from position `i` on, read from the front: spaces are
   skipped, and each other character starts a token that must be closed.
   */
  function LexFrom(s: string, i: nat): Option<seq<Token>>
    requires i <= |s|
    decreases |s| - i
  {
    if i == |s| then Some([])
    else if s[i] == ' ' then LexFrom(s, i + 1)
    else if !Closed(s, i) then None
    else Prepend([Token(s[i..TokenEnd(s, i)], KindAt(s, i))], LexFrom(s, TokenEnd(s, i)))
  }

  /** The tokens of the whole of `s`, or None when `s` does not tokenize. */
  function Lex(s: string): Option<seq<Token>>
  {
    LexFrom(s, 0)
  }

  lemma PrependPrepend(a: seq<Token>, b: seq<Token>, r: Option<seq<Token>>)
    ensures Prepend(a, Prepend(b, r)) == Prepend(a + b, r)
  {
    if r.Some? {
      assert a + (b + r.value) == (a + b) + r.value;
    }
  }

  // ---------------------------------------------------------------------------
  // The scanner

  /**
   What holds between two steps of the scanner, one predicate per state: the
   tokens emitted so far followed by the tokens of the rest of the text (from
   the open token's first character when one is open) are the tokens of the
   whole text, and an open number or identifier ends where the reference
   lexer ends it.
   */
  ghost predicate ScanningIdle(e: string, tokens: seq<Token>, i: int)
  {
    0 <= i <= |e| && Lex(e) == Prepend(tokens, LexFrom(e, i))
  }

  ghost predicate ScanningNumber(e: string, tokens: seq<Token>, tokenBegin: int, decimalPoint: bool, i: int)
  {
    && 0 <= tokenBegin < i <= |e|
    && IsDigit(e[tokenBegin])
    && Lex(e) == Prepend(tokens, LexFrom(e, tokenBegin))
    && TokenEnd(e, tokenBegin) == i + NumberRun(e, i, decimalPoint)
  }

  ghost predicate ScanningIdentifier(e: string, tokens: seq<Token>, tokenBegin: int, i: int)
  {
    && 0 <= tokenBegin < i <= |e|
    && e[tokenBegin] != ' ' && !IsDigit(e[tokenBegin]) && !IsOperator(e[tokenBegin])
    && Lex(e) == Prepend(tokens, LexFrom(e, tokenBegin))
    && TokenEnd(e, tokenBegin) == i + IdentifierRun(e, i)
  }

  ghost predicate Scanning(e: string, tokens: seq<Token>, tokenType: Option<TokenType>,
                           tokenBegin: int, decimalPoint: bool, i: int)
  {
    if tokenType == None then ScanningIdle(e, tokens, i)
    else if tokenType == Some(Number) then ScanningNumber(e, tokens, tokenBegin, decimalPoint, i)
    else tokenType == Some(Function) && ScanningIdentifier(e, tokens, tokenBegin, i)
  }

  // One lemma per step of the scanner: each keeps the predicate of the new state.

  lemma ScanStart(e: string)
    ensures ScanningIdle(e, [], 0)
  {
    if Lex(e).Some? {
      assert [] + Lex(e).value == Lex(e).value;
    }
  }

  lemma ScanSpace(e: string, tokens: seq<Token>, i: int)
    requires ScanningIdle(e, tokens, i) && i < |e| && e[i] == ' '
    ensures ScanningIdle(e, tokens, i + 1)
  {
  }

  lemma ScanOpenNumber(e: string, tokens: seq<Token>, i: int)
    requires ScanningIdle(e, tokens, i) && i < |e| && IsDigit(e[i])
    ensures ScanningNumber(e, tokens, i, false, i + 1)
  {
  }

  lemma ScanOperator(e: string, tokens: seq<Token>, i: int)
    requires ScanningIdle(e, tokens, i) && i < |e| && IsOperator(e[i])
    ensures ScanningIdle(e, tokens + [Token([e[i]], OneCharacterTypes[e[i]])], i + 1)
  {
    assert e[i..i + 1] == [e[i]];
    PrependPrepend(tokens, [Token([e[i]], OneCharacterTypes[e[i]])], LexFrom(e, i + 1));
  }

  lemma ScanOpenIdentifier(e: string, tokens: seq<Token>, i: int)
    requires ScanningIdle(e, tokens, i) && i < |e|
    requires e[i] != ' ' && !IsDigit(e[i]) && !IsOperator(e[i])
    ensures ScanningIdentifier(e, tokens, i, i + 1)
  {
  }

  lemma ScanExtendNumber(e: string, tokens: seq<Token>, tokenBegin: int, decimalPoint: bool, i: int)
    requires ScanningNumber(e, tokens, tokenBegin, decimalPoint, i) && i < |e|
    requires IsDigit(e[i]) || (e[i] == ',' && !decimalPoint)
    ensures ScanningNumber(e, tokens, tokenBegin, decimalPoint || e[i] == ',', i + 1)
  {
  }

  lemma ScanCloseNumber(e: string, tokens: seq<Token>, tokenBegin: int, decimalPoint: bool, i: int)
    requires ScanningNumber(e, tokens, tokenBegin, decimalPoint, i) && i < |e|
    requires !(IsDigit(e[i]) || (e[i] == ',' && !decimalPoint))
    requires (IsOperator(e[i]) || e[i] == ' ') && e[i - 1] != ','
    ensures ScanningIdle(e, tokens + [Token(e[tokenBegin..i], Number)], i)
  {
    PrependPrepend(tokens, [Token(e[tokenBegin..i], Number)], LexFrom(e, i));
  }

  lemma ScanRejectNumber(e: string, tokens: seq<Token>, tokenBegin: int, decimalPoint: bool, i: int)
    requires ScanningNumber(e, tokens, tokenBegin, decimalPoint, i) && i < |e|
    requires !(IsDigit(e[i]) || (e[i] == ',' && !decimalPoint))
    requires !((IsOperator(e[i]) || e[i] == ' ') && e[i - 1] != ',')
    ensures Lex(e) == None
  {
  }

  lemma ScanExtendIdentifier(e: string, tokens: seq<Token>, tokenBegin: int, i: int)
    requires ScanningIdentifier(e, tokens, tokenBegin, i) && i < |e|
    requires e[i] != ' ' && e[i] != '('
    ensures ScanningIdentifier(e, tokens, tokenBegin, i + 1)
  {
  }

  lemma ScanCloseIdentifier(e: string, tokens: seq<Token>, tokenBegin: int, i: int)
    requires ScanningIdentifier(e, tokens, tokenBegin, i) && i < |e|
    requires e[i] == ' ' || e[i] == '('
    ensures ScanningIdle(e, tokens + [Token(e[tokenBegin..i], Function)], i)
  {
    PrependPrepend(tokens, [Token(e[tokenBegin..i], Function)], LexFrom(e, i));
  }

  lemma ScanEnd(e: string, tokens: seq<Token>, tokenType: Option<TokenType>, tokenBegin: int, decimalPoint: bool)
    requires Scanning(e, tokens, tokenType, tokenBegin, decimalPoint, |e|)
    ensures tokenType == None ==> Lex(e) == Some(tokens)
    ensures tokenType == Some(Number) ==>
      Lex(e) == if e[|e| - 1] == ',' then None else Some(tokens + [Token(e[tokenBegin..], Number)])
    ensures tokenType != None && tokenType != Some(Number) ==>
      tokenType == Some(Function) && Lex(e) == Some(tokens + [Token(e[tokenBegin..], Function)])
  {
    if tokenType == None {
      assert tokens + [] == tokens;
    } else {
      var last := Token(e[tokenBegin..], tokenType.value);
      assert NumberRun(e, |e|, decimalPoint) == 0 && IdentifierRun(e, |e|) == 0;
      assert TokenEnd(e, tokenBegin) == |e| && KindAt(e, tokenBegin) == tokenType.value;
      assert e[tokenBegin..|e|] == e[tokenBegin..];
      assert LexFrom(e, tokenBegin) == if Closed(e, tokenBegin) then Prepend([last], Some([])) else None;
      assert [last] + [] == [last];
      PrependPrepend(tokens, [last], Some([]));
    }
  }

  /**
   The scanner: `i` walks the text; `tokenType` is None when no token is
   open. A character that closes a number or an identifier is not consumed,
   so it is scanned again in the idle state.
   */
  method Tokenize(expression: string) returns (r: Option<seq<Token>>)
    ensures r == Lex(expression)
  {
    var tokens: seq<Token> := [];
    var tokenType: Option<TokenType> := None;
    var tokenBegin := 0;
    var decimalPoint := false;
    var i := 0;
    ScanStart(expression);

    while i < |expression|
      invariant Scanning(expression, tokens, tokenType, tokenBegin, decimalPoint, i)
      decreases 2 * (|expression| - i) + (if tokenType == None then 0 else 1)
    {
      var c := expression[i];

      if tokenType == None {
        if c == ' ' {
          ScanSpace(expression, tokens, i);
          i := i + 1;
        } else if IsDigit(c) {
          ScanOpenNumber(expression, tokens, i);
          tokenType := Some(Number);
          tokenBegin := i;
          decimalPoint := false;
          i := i + 1;
        } else if IsOperator(c) {
          ScanOperator(expression, tokens, i);
          tokens := tokens + [Token([c], OneCharacterTypes[c])];
          i := i + 1;
        } else {
          ScanOpenIdentifier(expression, tokens, i);
          tokenType := Some(Function);
          tokenBegin := i;
          i := i + 1;
        }
      } else if tokenType == Some(Number) {
        if IsDigit(c) || (c == ',' && !decimalPoint) {
          ScanExtendNumber(expression, tokens, tokenBegin, decimalPoint, i);
          decimalPoint := decimalPoint || c == ',';
          i := i + 1;
        } else if (IsOperator(c) || c == ' ') && expression[i - 1] != ',' {
          ScanCloseNumber(expression, tokens, tokenBegin, decimalPoint, i);
          tokens := tokens + [Token(expression[tokenBegin..i], Number)];
          tokenType := None;
        } else {
          ScanRejectNumber(expression, tokens, tokenBegin, decimalPoint, i);
          return None;
        }
      } else {
        if c == ' ' || c == '(' {
          ScanCloseIdentifier(expression, tokens, tokenBegin, i);
          tokens := tokens + [Token(expression[tokenBegin..i], Function)];
          tokenType := None;
        } else {
          ScanExtendIdentifier(expression, tokens, tokenBegin, i);
          i := i + 1;
        }
      }
    }

    // End of the text: an open number must not end in ','; an open token is kept.
    ScanEnd(expression, tokens, tokenType, tokenBegin, decimalPoint);
    if tokenType == Some(Number) && expression[|expression| - 1] == ',' {
      return None;
    }
    if tokenType != None {
      tokens := tokens + [Token(expression[tokenBegin..], tokenType.value)];
    }
    return Some(tokens);
  }
}
