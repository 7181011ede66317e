/**
 The input line of the calculator window (main.py): what pressing a button
 writes into it, how the delete button shortens it and how the erase button
 clears it. The window is a class whose one field is the text of the line;
 the text of the pressed button arrives as a plain argument.
 */
module Calculator {
  import opened Tokenizer
  import opened LexProperties

  /** A non-empty text of decimal digits only. */
  predicate IsDigitString(s: string)
  {
    |s| > 0 && forall k :: 0 <= k < |s| ==> IsDigit(s[k])
  }

  /**
   The text a button writes: a few labels stand for other text, a digit
   button writes itself, and any other button writes itself followed by a space.
   */
  function ButtonText(button: string): (r: string)
    ensures IsDigitString(button) ==> r == button
    ensures !IsDigitString(button) ==> |r| > 0 && r[|r| - 1] == ' '
    ensures IsDigitString(r) <==> IsDigitString(button)
  {
    if button == "π" then assert !IsDigit(button[0]); "pi "
    else if button == "÷" then assert !IsDigit(button[0]); "/ "
    else if button == "x" then assert !IsDigit(button[0]); "* "
    else if button == "x²" then assert !IsDigit(button[0]); "^ 2 "
    else if button == "xʸ" then assert !IsDigit(button[0]); "^ "
    else if IsDigitString(button) then button
    else button + " "
  }

  /**
   Whether a ' ' goes between the line and the added text: not on an empty
   line, not after a space, and not when digits follow a digit or a ','.
   */
  predicate NeedsSeparator(line: string, toAdd: string)
  {
    !(|line| == 0 || line[|line| - 1] == ' ' ||
      ((IsDigit(line[|line| - 1]) || line[|line| - 1] == ',') && IsDigitString(toAdd)))
  }

  /** The line after pressing the button whose text is `button`. */
  function Typed(line: string, button: string): (r: string)
    ensures var t := ButtonText(button);
      && |r| == |line| + |t| + (if NeedsSeparator(line, t) then 1 else 0)
      && r[..|line|] == line
      && r[|r| - |t|..] == t
      && (NeedsSeparator(line, t) ==> r[|line|] == ' ')
    ensures !IsDigitString(button) ==> r[|r| - 1] == ' '
  {
    var t := ButtonText(button);
    if NeedsSeparator(line, t) then line + " " + t else line + t
  }

  /** The index of the last character of `s` that is not a space, or -1 when there is none. */
  function LastNonSpace(s: string): (r: int)
    ensures -1 <= r < |s|
    ensures r >= 0 ==> s[r] != ' '
    ensures forall k :: r < k < |s| ==> s[k] == ' '
  {
    if s == [] then -1
    else if s[|s| - 1] == ' ' then LastNonSpace(s[..|s| - 1])
    else |s| - 1
  }

  /** `s[:i]` with the slicing rules of Python: a negative `i` counts from the end. */
  function SliceUpTo(s: string, i: int): string
  {
    if i >= 0 then s[..if i <= |s| then i else |s|]
    else s[..if |s| + i >= 0 then |s| + i else 0]
  }

  /**
   The line after pressing the delete button: the trailing spaces and the
   last character that is not a space are gone. On a line of spaces only,
   the index -1 makes Python's slice drop exactly one character.
   */
  function DeletedText(s: string): (r: string)
    ensures |r| <= |s| && r == s[..|r|]
    ensures LastNonSpace(s) >= 0 ==> |r| == LastNonSpace(s)
    ensures LastNonSpace(s) < 0 && s != [] ==> |r| == |s| - 1
    ensures s == [] ==> r == []
  {
    SliceUpTo(s, LastNonSpace(s))
  }

  /** The calculator window, reduced to the text of its input line. */
  class MainWindow {
    var inputLine: string

    constructor()
      ensures inputLine == ""
    {
      inputLine := "";
    }

    /** Writes the text of the pressed button, with a separating space where one is needed. */
    method WritingButtons(button: string)
      modifies this
      ensures inputLine == Typed(old(inputLine), button)
    {
      var toAdd := ButtonText(button);
      var newText := inputLine;
      if |newText| == 0 || newText[|newText| - 1] == ' ' ||
         ((IsDigit(newText[|newText| - 1]) || newText[|newText| - 1] == ',') && IsDigitString(toAdd))
      {
        newText := newText + toAdd;
      } else {
        newText := newText + " " + toAdd;
      }
      inputLine := newText;
    }

    /** Steps back over trailing spaces, then cuts the line just before the character found. */
    method DeleteChar()
      modifies this
      ensures inputLine == DeletedText(old(inputLine))
    {
      var oldText := inputLine;
      var i := |oldText| - 1;
      while i >= 0 && oldText[i] == ' '
        invariant -1 <= i < |oldText|
        invariant forall k :: i < k < |oldText| ==> oldText[k] == ' '
        decreases i
      {
        i := i - 1;
      }
      var last := LastNonSpace(oldText);
      assert last <= i && i <= last;
      inputLine := SliceUpTo(oldText, i);
    }

    /** Clears the line. */
    method EraseInputLine()
      modifies this
      ensures inputLine == ""
    {
      inputLine := "";
    }
  }

  // ---------------------------------------------------------------------------
  // Sessions: pressing buttons, delete and erase one after the other

  /** What the user can do to the line. */
  datatype Action = Press(button: string) | Delete | Erase

  /** The line after one action. */
  function Perform(line: string, a: Action): string
  {
    match a
    case Press(button) => Typed(line, button)
    case Delete => DeletedText(line)
    case Erase => ""
  }

  /** The line after the actions `actions` in order. */
  function Session(line: string, actions: seq<Action>): string
    decreases |actions|
  {
    if actions == [] then line else Session(Perform(line, actions[0]), actions[1..])
  }

  /** Every action presses a digit button. */
  predicate DigitPresses(actions: seq<Action>)
  {
    forall k :: 0 <= k < |actions| ==> actions[k].Press? && IsDigitString(actions[k].button)
  }

  /** The labels of the pressed buttons written one after the other. */
  function PressedText(actions: seq<Action>): string
  {
    if actions == [] then []
    else (if actions[0].Press? then actions[0].button else []) + PressedText(actions[1..])
  }

  /** A digit button adds its digits with no space after a space, a digit or a ','. */
  lemma TypedDigits(line: string, b: string)
    requires IsDigitString(b)
    requires line == [] || line[|line| - 1] == ' ' || IsDigit(line[|line| - 1]) || line[|line| - 1] == ','
    ensures Typed(line, b) == line + b
    ensures IsDigit((line + b)[|line + b| - 1])
  {
    assert !NeedsSeparator(line, ButtonText(b));
    assert (line + b)[|line + b| - 1] == b[|b| - 1];
  }

  /** Concatenation regroups freely; kept apart so that it is proved without the session facts in view. */
  lemma JoinAssoc(a: string, b: string, c: string)
    ensures (a + b) + c == a + (b + c)
  {
  }

  /**
   Digit buttons pressed in a row write their digits with no space between
   them, after a line that is empty or ends in a space, a digit or a ','.
   */
  lemma {:induction false} DigitButtonsJoin(line: string, actions: seq<Action>)
    requires DigitPresses(actions)
    requires line == [] || line[|line| - 1] == ' ' || IsDigit(line[|line| - 1]) || line[|line| - 1] == ','
    ensures Session(line, actions) == line + PressedText(actions)
    decreases |actions|
  {
    if actions == [] {
      assert line + [] == line;
    } else {
      var b, rest := actions[0].button, actions[1..];
      var next := line + b;
      TypedDigits(line, b);
      assert Session(line, actions) == Session(next, rest);
      assert DigitPresses(rest) by {
        forall k | 0 <= k < |rest| ensures rest[k].Press? && IsDigitString(rest[k].button) {
          assert rest[k] == actions[k + 1];
        }
      }
      DigitButtonsJoin(next, rest);
      JoinAssoc(line, b, PressedText(rest));
    }
  }

  lemma {:induction false} PressedDigits(actions: seq<Action>)
    requires DigitPresses(actions)
    ensures forall k :: 0 <= k < |PressedText(actions)| ==> IsDigit(PressedText(actions)[k])
    ensures actions != [] ==> |PressedText(actions)| > 0
  {
    if actions != [] {
      assert DigitPresses(actions[1..]) by {
        forall k | 0 <= k < |actions| - 1 ensures actions[1..][k] == actions[k + 1] { }
      }
      PressedDigits(actions[1..]);
      var b := actions[0].button;
      var c := PressedText(actions);
      assert forall k :: 0 <= k < |c| ==> c[k] == if k < |b| then b[k] else PressedText(actions[1..])[k - |b|];
    }
  }

  /** On an empty line, digit buttons pressed in a row build one NUMBER token. */
  lemma DigitButtonsBuildOneNumber(actions: seq<Action>)
    requires actions != [] && DigitPresses(actions)
    ensures Session("", actions) == PressedText(actions)
    ensures Lex(Session("", actions)) == Some([Token(PressedText(actions), Number)])
  {
    DigitButtonsJoin("", actions);
    assert "" + PressedText(actions) == PressedText(actions);
    PressedDigits(actions);
    LexDigits(PressedText(actions));
  }

  /** A nonempty run of digits is one NUMBER token. */
  lemma LexDigits(c: string)
    requires |c| > 0 && forall k :: 0 <= k < |c| ==> IsDigit(c[k])
    ensures Lex(c) == Some([Token(c, Number)])
  {
    NumberRunSpan(c, 1, false, |c|);
    assert TokenEnd(c, 0) == |c| && c[0..|c|] == c;
    assert LexFrom(c, |c|) == Some([]);
    assert [Token(c, Number)] + [] == [Token(c, Number)];
  }

  // ---------------------------------------------------------------------------
  // Deleting what was typed

  lemma LastNonSpaceAfter(a: string, b: string)
    requires LastNonSpace(b) >= 0
    ensures LastNonSpace(a + b) == |a| + LastNonSpace(b)
  {
    var s := a + b;
    var r := LastNonSpace(s);
    var n := |a| + LastNonSpace(b);
    assert s[n] == b[n - |a|];
    assert forall k :: n < k < |s| ==> s[k] == b[k - |a|];
    assert r <= n && n <= r;
  }

  /** Deleting after a text that ends in something other than spaces only shortens that text. */
  lemma DeleteAfter(a: string, b: string)
    requires LastNonSpace(b) >= 0
    ensures DeletedText(a + b) == a + DeletedText(b)
  {
    LastNonSpaceAfter(a, b);
    var n := LastNonSpace(b);
    assert (a + b)[..|a| + n] == a + b[..n];
  }

  /**
   Pressing a button that writes one visible character (followed by spaces
   or not) and then pressing delete gives back the old line, plus the
   separating space when one was inserted.
   */
  lemma DeleteUndoesButton(line: string, button: string)
    requires var t := ButtonText(button);
      |t| > 0 && t[0] != ' ' && forall k :: 1 <= k < |t| ==> t[k] == ' '
    ensures var t := ButtonText(button);
      DeletedText(Typed(line, button)) == line + (if NeedsSeparator(line, t) then " " else "")
  {
    var t := ButtonText(button);
    var prefix := line + (if NeedsSeparator(line, t) then " " else "");
    assert Typed(line, button) == prefix + t;
    assert LastNonSpace(t) == 0;
    DeleteAfter(prefix, t);
    assert DeletedText(t) == [];
    assert prefix + [] == prefix;
  }

  // ---------------------------------------------------------------------------
  // The calculator's own buttons only build lines that tokenize

  /**
   A button whose label is a digit string, or holds no digit and no ','.
   The labels of the connected buttons come from the window's form, which is
   not part of this model; the names of the buttons suggest labels of this kind.
   */
  predicate SafeButton(button: string)
  {
    IsDigitString(button) || forall k :: 0 <= k < |button| ==> button[k] != ',' && !IsDigit(button[k])
  }

  lemma ButtonTextSpaced(button: string)
    requires SafeButton(button)
    ensures NumbersSpaced(ButtonText(button))
    ensures var t := ButtonText(button); IsDigit(t[0]) ==> IsDigitString(t)
  {
    var t := ButtonText(button);
    if button == "x²" {
      assert t == "^ 2 ";
      assert t[0] == '^' && t[1] == ' ' && t[2] == '2' && t[3] == ' ';
    } else if !IsDigitString(button) && button !in ["π", "÷", "x", "xʸ"] {
      assert t == button + " ";
      assert forall k :: 0 <= k < |button| ==> t[k] == button[k];
    }
  }

  lemma SpacedAppend(a: string, b: string)
    requires NumbersSpaced(a) && NumbersSpaced(b)
    requires a != [] && b != [] && IsDigit(a[|a| - 1]) ==> IsDigit(b[0]) || b[0] == ' '
    ensures NumbersSpaced(a + b)
  {
    var s := a + b;
    assert forall k :: 0 <= k < |s| ==> s[k] == if k < |a| then a[k] else b[k - |a|];
  }

  lemma TypedSpaced(line: string, button: string)
    requires NumbersSpaced(line) && SafeButton(button)
    ensures NumbersSpaced(Typed(line, button))
  {
    var t := ButtonText(button);
    ButtonTextSpaced(button);
    if NeedsSeparator(line, t) {
      SpacedAppend(line, " ");
      SpacedAppend(line + " ", t);
    } else {
      SpacedAppend(line, t);
    }
  }

  lemma DeletedSpaced(line: string)
    requires NumbersSpaced(line)
    ensures NumbersSpaced(DeletedText(line))
  {
    var r := DeletedText(line);
    assert forall k :: 0 <= k < |r| ==> r[k] == line[k];
  }

  lemma PerformSpaced(line: string, a: Action)
    requires NumbersSpaced(line)
    requires a.Press? ==> SafeButton(a.button)
    ensures NumbersSpaced(Perform(line, a))
  {
    match a
    case Press(button) => TypedSpaced(line, button);
    case Delete => DeletedSpaced(line);
    case Erase =>
  }

  lemma {:induction false} SessionSpaced(line: string, actions: seq<Action>)
    requires NumbersSpaced(line)
    requires forall k :: 0 <= k < |actions| && actions[k].Press? ==> SafeButton(actions[k].button)
    ensures NumbersSpaced(Session(line, actions))
    decreases |actions|
  {
    if actions != [] {
      PerformSpaced(line, actions[0]);
      SessionSpaced(Perform(line, actions[0]), actions[1..]);
    }
  }

  /**
   Whatever the user presses, starting from an empty line and using only
   buttons whose text is a digit string or holds no digit and no ',', the
   line always tokenizes.
   */
  lemma ButtonsBuildTokenizableLines(actions: seq<Action>)
    requires forall k :: 0 <= k < |actions| && actions[k].Press? ==> SafeButton(actions[k].button)
    ensures Lex(Session("", actions)).Some?
  {
    SessionSpaced("", actions);
    LexSucceeds(Session("", actions));
  }
}
