# Calculator with notes: tokenizer and input line

A Dafny model of the two pieces of the calculator that handle the expression
text:

- **The tokenizer** (`my_eval.py`, module `Tokenizer` in `tokenizer.dfy`). It holds:
  - the token kinds;
  - the precedence levels;
  - the table of the seven one-character operators and the precedence table;
  - the `Token` record;
  - the scanner `tokenize_expr`, which turns an input line into a list of tokens or fails.

  `Tokenizer.Tokenize` keeps the source's loop: an index, an idle / NUMBER / identifier state, the `decimal_point` flag, and a character that closes a token is scanned again. Its postcondition says it returns `Lex(expression)`. `Lex` is a separate, front-to-back definition of the same language: each token is the longest run its first character allows, and a number must be closed properly.
- **The properties of `Lex`** (module `LexProperties` in `lex_properties.dfy`):
  - the shape of every token;
  - no character other than a space is lost;
  - lexing a text in two pieces;
  - a round trip through a printed form;
  - when a text fails;
  - a sufficient condition for a text to tokenize.
- **The input line of the calculator window** (`main.py`, module `Calculator` in `calculator.dfy`). The class `MainWindow` has one field, `inputLine`. Its methods are the three button handlers:
  - `WritingButtons` writes the text of the pressed button, with a separating space where one is needed;
  - `DeleteChar` steps back over trailing spaces and cuts the last visible character;
  - `EraseInputLine` clears the line.

  Each method is proved against a function of the old line (`Typed`, `DeletedText`). Lemmas about those functions cover three things:
  - digit buttons pressed in a row build one number;
  - delete undoes a button that writes one visible character;
  - any session whose pressed labels are digit strings or hold no digit and no ',' leaves a line that tokenizes.
- **Concrete inputs with their outcome proved** (module `TokenizerCases` in `cases.dfy`):
  - the input "1," and a fragment, "(e)+", of a longer input of the repository's test script (`eval_tests.py`);
  - three lines where a number or a name follows an operator directly.

The text of the pressed button arrives as a plain argument; in the source it comes from the Qt signal's sender.

## Model

| member | source | states |
|---|---|---|
| Tokenizer.PrecedenceLevels | my_eval.py:15-34 | The levels rise strictly from MIN to PARS, PARS is the largest, and every token kind has a precedence. |
| Tokenizer.OneCharacterTable | my_eval.py:23-24 | A character has its own one-character token exactly when it is one of `+-*/^()`; none of these is a digit, a space or a ','. |
| Tokenizer.NumberRun | my_eval.py:74-78 | The run a number can extend over (digits, and one ',' unless one was already seen) stays inside the text. |
| Tokenizer.IdentifierRun | my_eval.py:88-93 | The run an identifier extends over (up to the next ' ' or '(') stays inside the text. |
| Tokenizer.TokenEnd | my_eval.py:56-72 | A token that starts at a character ends after that character and no later than the end of the text. |
| Tokenizer.ScanEnd | my_eval.py:95 | At the end of the text: with no open token the emitted tokens are all of them; an open number ending in ',' fails; otherwise the open number or identifier is the last token. |
| Tokenizer.Tokenize | my_eval.py:41-95 | The scanner returns exactly the tokens of the reference lexer `Lex`, or None exactly when `Lex` fails. |
| LexProperties.NumberRunShape | my_eval.py:74-78 | A number run holds digits and at most one ',', and stops only at a character that cannot extend it. |
| LexProperties.NumberRunSpan | my_eval.py:74-78 | A stretch of digits with at most one ',' that is followed by a character that cannot extend it is exactly the number run. |
| LexProperties.IdentifierRunShape | my_eval.py:88-93 | An identifier run holds no ' ' and no '(' and stops only at one of them or at the end. |
| LexProperties.IdentifierRunSpan | my_eval.py:88-93 | A stretch with no ' ' and no '(' followed by one of them or the end is exactly the identifier run. |
| LexProperties.TokenShape | my_eval.py:56-93 | A token cut at a non-space character, when closed, has the shape of its kind and holds no space. |
| LexProperties.LexWellFormed | my_eval.py:41-95 | Every token of a text that tokenizes has the following shape, by kind: a number is a digit followed by digits with at most one ',' and not ending in ','; an identifier starts with no digit or operator and holds no ' ' or '('; an operator is its one character, with its kind from the table. |
| LexProperties.RemoveSpacesAppend | my_eval.py:52-54 | Taking the spaces out of a concatenation is taking them out of each part. |
| LexProperties.LexConcat | my_eval.py:52-54 | The token values, written one after the other, are the text with its spaces removed. Nothing but spaces is dropped and nothing is reordered. |
| LexProperties.LexFromShift | my_eval.py:48-93 | The tokens read from a position depend only on the text from that position on. |
| LexProperties.TokenPrefix | my_eval.py:56-92 | A token that ends inside a text, or is a one-character operator, is cut the same way whatever is written after the text. |
| LexProperties.EmptyTail | my_eval.py:52-54 | Only spaces follow a position from which no tokens are read. |
| LexProperties.LastTokenCloses | my_eval.py:63-67 | A token that runs to the end of a text ending in ' ', '(' or a one-character operator token is that one-character operator. |
| LexProperties.LexSplit | my_eval.py:48-95 | A text that tokenizes and whose last token cannot grow can be lexed on its own. Such a text is empty, ends in ' ' or '(', or has a one-character operator token as its last character; every place where the scanner starts a number or a name is preceded by such a text. Then the tokens of it followed by any text are its tokens followed by that text's tokens, and the whole fails exactly when the second part does. |
| LexProperties.LexSingle | my_eval.py:41-95 | A well-formed token followed by a space is lexed as that one token. |
| LexProperties.LexUnlex | my_eval.py:41-95 | Writing well-formed tokens out, each followed by a space, and lexing the text gives back the same tokens. |
| LexProperties.LexNormalForm | my_eval.py:41-95 | The tokens of any text, written out one space after each, lex to the same tokens. |
| LexProperties.NumberBadFollower | my_eval.py:75-86 | A number followed by a character that is not a digit, operator or space, or followed by a second ',', makes the whole text fail, wherever the scanner starts the number (at the start, after a space, after '(' or after any operator token) and whatever follows. |
| LexProperties.TrailingCommaRejected | my_eval.py:80 | A number ending in ',' followed by an operator, a space or the end of the text makes the whole text fail, wherever the scanner starts the number. |
| LexProperties.IdentifierBeforeParen | my_eval.py:69-72 | An identifier followed by '(' gives an identifier token and an OPEN_PAR token, and the rest is lexed on its own, wherever the scanner starts the identifier. |
| LexProperties.LexSucceeds | my_eval.py:48-95 | A text with no ',' in which every digit is followed by a digit, a space or the end always tokenizes. |
| TokenizerCases.ParenthesisInsideIdentifier | eval_tests.py:27 | "(e)+", a fragment of the input on that line, gives an OPEN_PAR token and then the single identifier "e)+", because ')' does not end an identifier. |
| TokenizerCases.TrailingCommaLine | eval_tests.py:23 | "1," does not tokenize. |
| TokenizerCases.NumberOperatorPiece | my_eval.py:74-84 | A number directly followed by an operator gives the number token and the operator token, and the text ends where its last token cannot grow. |
| TokenizerCases.LetterAfterNumberAfterOperator | my_eval.py:86 | "2*3x" does not tokenize. |
| TokenizerCases.TrailingCommaAfterOperator | my_eval.py:80 | "1+2," does not tokenize. |
| TokenizerCases.FunctionAfterOperator | my_eval.py:88-92 | "2*sin(3)" gives 2, *, sin, (, 3 and ). |
| Calculator.ButtonText | main.py:48-61 | A digit button writes exactly its digits. Every other button's text is non-empty and ends in a space. The text is a digit string exactly when the button's label is. |
| Calculator.Typed | main.py:63-69 | The old line is kept as a prefix and the button's text is added at the end. A ' ' goes between them unless the line is empty, ends in ' ', or ends in a digit or ',' with digits added. A non-digit button leaves the line ending in a space. |
| Calculator.LastNonSpace | main.py:76-79 | The index found is -1 or a non-space character, and every character after it is a space. |
| Calculator.DeletedText | main.py:75-81 | The result is a prefix of the line. It ends just before the last non-space character; a line of spaces loses one character, and an empty line stays empty. |
| Calculator.MainWindow.constructor | main.py:6-9 | The window starts with an empty input line. |
| Calculator.MainWindow.WritingButtons | main.py:41-69 | The new line is `Typed(old line, button)`. |
| Calculator.MainWindow.DeleteChar | main.py:71-81 | The loop finds the last non-space character, and the new line is `DeletedText(old line)`. |
| Calculator.MainWindow.EraseInputLine | main.py:83-87 | The new line is empty. |
| Calculator.TypedDigits | main.py:64-65 | A digit button adds its digits with no space after an empty line, a ' ', a digit or a ','. |
| Calculator.DigitButtonsJoin | main.py:58-65 | A session of digit-button presses adds the pressed digits with no space between them. |
| Calculator.DigitButtonsBuildOneNumber | main.py:58-65 | Starting from an empty line, a session of digit-button presses makes a line that tokenizes as one NUMBER token made of all their digits. |
| Calculator.LastNonSpaceAfter | main.py:76-79 | The last non-space character of a concatenation lies in its second part when that part has one. |
| Calculator.DeleteAfter | main.py:71-81 | Delete on text ending in a part with a visible character only shortens that part. |
| Calculator.DeleteUndoesButton | main.py:41-81 | Pressing a button that writes one visible character (optionally followed by spaces), then delete, gives back the old line, plus the separating space when one was inserted. |
| Calculator.ButtonTextSpaced | main.py:48-61 | The text of a button whose label is digits only, or has no digit and no ',', has no ',', and each digit in it is followed by a digit, a space or the end. |
| Calculator.TypedSpaced | main.py:63-69 | Pressing such a button keeps the line free of ',' and keeps every digit followed by a digit or a space. |
| Calculator.DeletedSpaced | main.py:71-81 | Delete keeps that property, since it keeps a prefix. |
| Calculator.SessionSpaced | main.py:41-87 | Any sequence of such button presses, deletes and erases keeps that property. |
| Calculator.ButtonsBuildTokenizableLines | main.py:12-39 | Starting from the empty line, any session that presses only buttons of that kind leaves a line that tokenizes. |

## Left out

- The Qt window is not part of this model: the widgets, the signal connections, the `sender()` lookup and the text field. The button's label is a parameter, and the input line is the `inputLine` field. `calculator_gui` is not part of this model.
- `evaluation` (my_eval.py:98-99) is a stub whose body is `pass`, and it is not modelled. The validator `correct_tokenized_expression`, which the test script imports, is not defined in `my_eval.py`. Neither are the note-taking windows in `notes.py` and `drawing_notes.py`.
- Python's `str.isdigit` also accepts non-ASCII digits such as '²'. `IsDigit` and `IsDigitString` accept only '0' to '9'.
- my_eval.py:89 builds the identifier token without its type argument, which would raise a TypeError when run. The model gives identifier tokens the kind FUNCTION, the one kind the enumeration has for names.
- `tokenize_expr` breaks off at my_eval.py:95 in the middle of its final `if`. The model completes it:
  - an open number whose last character is ',' fails;
  - any other open number or identifier becomes the last token;
  - the list is returned.
- Behaviours of the code worth noting:
  - a ',' in the idle state opens an identifier;
  - identifiers are not checked against a set of known function names;
  - ')' and the operators do not end an identifier, so "(e)+" yields the identifier "e)+".
- Calculator.ButtonsBuildTokenizableLines: the lemma gives a sufficient condition for a line to tokenize, not the exact set of lines that do. A digit directly followed by an operator also tokenizes, but the buttons never produce that.
- Calculator.ButtonsBuildTokenizableLines: the lemma holds for sessions whose pressed labels satisfy `SafeButton`. The labels of the connected buttons (main.py:12-36) are set in `calculator_gui`, which is not part of this model. That they are all of this kind is an assumption; the button names suggest digits, operators, π, e, mod, x², abs and parentheses.
- Calculator.MainWindow.constructor: the empty initial line is an assumption. main.py:6-9 sets no text; the field's initial text comes from `calculator_gui`, which is not part of this model.
