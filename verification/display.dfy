/**
 * The calculator's display: one line of text that the buttons and the
 * keyboard edit.  Each handler is specified by a function from the old
 * text to the new one; `show` stands for String.valueOf(double), the
 * formatting of a result, which the model leaves abstract.
 */
module Display {
  import opened Literals
  import opened Evaluator
  import opened Grammar

  /** The labels of the twenty calculator buttons, in grid order. */
  const Buttons: seq<string> :=
    ["7", "8", "9", "/", "4", "5", "6", "*", "1", "2", "3", "-",
     "C", "0", "=", "+", "(", ")", ".", "Backspace"]

  /** The character a backspace key types (U+0008). */
  const BackspaceChar: char := 8 as char

  /** What the display shows after evaluating `expression`. */
  function Shown(expression: string, show: real -> string): string
  {
    match Evaluate(expression)
    case Ok(v) => show(v)
    case Err(_) => "Error"
  }

  /** The text with its last character removed; unchanged when empty. */
  function Backspace(t: string): (r: string)
    ensures |t| > 0 ==> |r| == |t| - 1 && t == r + [t[|t| - 1]]
    ensures |t| == 0 ==> r == t
  {
    if |t| > 0 then t[..|t| - 1] else t
  }

  /** The text with a '.' appended, unless it already holds one anywhere. */
  function AppendDot(t: string): (r: string)
    ensures t <= r && |r| == |t| + (if '.' in t then 0 else 1)
    ensures '.' in r
    ensures CountChar(r, '.') == if '.' in t then CountChar(t, '.') else 1
  {
    if '.' in t then t
    else
      CountCharZero(t, '.');
      CountCharSplit(t, ".", '.');
      t + "."
  }

  /** A single-digit button label: the strings matching the regex [0-9]. */
  predicate IsDigitCommand(command: string) {
    |command| == 1 && IsDigit(command[0])
  }

  /** The display text after the button labelled `command` is pressed. */
  function Pressed(t: string, command: string, show: real -> string): string
  {
    if IsDigitCommand(command) || command == "(" || command == ")" then t + command
    else if command == "C" then ""
    else if command == "Backspace" then Backspace(t)
    else if command == "=" then Shown(t, show)
    else if command == "." then AppendDot(t)
    else t + " " + command + " "
  }

  /** The display text after the character `c` is typed. */
  function Typed(t: string, c: char, show: real -> string): string
  {
    if IsDigit(c) || c == '(' || c == ')' || c == '.' then t + [c]
    else if IsOperator(c) then t + Spaced(c)
    else if c == BackspaceChar then Backspace(t)
    else if c == '\n' then Shown(t, show)
    else t
  }

  class Calculator {
    var text: string

    constructor ()
      ensures text == ""
    {
      text := "";
    }

    /** actionPerformed: a button with label `command` was pressed. */
    method Press(command: string, show: real -> string)
      modifies this
      ensures text == Pressed(old(text), command, show)
    {
      if IsDigitCommand(command) || command == "(" || command == ")" {
        text := text + command;
      } else if command == "C" {
        text := "";
      } else if command == "Backspace" {
        Erase();
      } else if command == "=" {
        Calculate(show);
      } else if command == "." {
        if '.' !in text {
          text := text + ".";
        }
      } else {
        text := text + " " + command + " ";
      }
    }

    /** keyTyped: the character `c` was typed. */
    method Type(c: char, show: real -> string)
      modifies this
      ensures text == Typed(old(text), c, show)
    {
      if IsDigit(c) || c == '(' || c == ')' || c == '.' {
        text := text + [c];
      } else if c == '+' {
        text := text + " + ";
      } else if c == '-' {
        text := text + " - ";
      } else if c == '*' {
        text := text + " * ";
      } else if c == '/' {
        text := text + " / ";
      } else if c == BackspaceChar {
        Erase();
      } else if c == '\n' {
        Calculate(show);
      }
    }

    /** keyPressed with the numeric keypad's decimal-point key. */
    method PressDecimalKey()
      modifies this
      ensures text == AppendDot(old(text))
    {
      if '.' !in text {
        text := text + ".";
      }
    }

    /** keyPressed with the backspace key. */
    method PressBackSpaceKey()
      modifies this
      ensures text == Backspace(old(text))
    {
      Erase();
    }

    /** Removes the last character of a non-empty display. */
    method Erase()
      modifies this
      ensures text == Backspace(old(text))
    {
      if |text| > 0 {
        text := text[..|text| - 1];
      }
    }

    /** Evaluates the display and replaces it by the result or "Error". */
    method Calculate(show: real -> string)
      modifies this
      ensures text == Shown(old(text), show)
    {
      var r := EvaluateExpression(text);
      match r {
        case Ok(v) => text := show(v);
        case Err(_) => text := "Error";
      }
    }
  }

  // ---------------------------------------------------------------------
  // Properties of the editing rules.

  /**
   * "=" on the text of a well-formed expression shows the formatted value
   * of that expression, or "Error" exactly when it divides by zero.
   */
  lemma ShownPrinted(e: Expr, show: real -> string)
    requires IsSum(e)
    ensures Shown(Print(e), show) == match Value(e) case Ok(v) => show(v) case Err(_) => "Error"
  {
    EvaluatePrinted(e);
  }

  /** Backspace undoes the append of a digit or parenthesis button. */
  lemma BackspaceUndoesPress(t: string, command: string, show: real -> string)
    requires IsDigitCommand(command) || command == "(" || command == ")"
    ensures Pressed(Pressed(t, command, show), "Backspace", show) == t
  {
    assert (t + command)[..|t + command| - 1] == t;
  }

  /** Backspace undoes a typed digit, parenthesis or point. */
  lemma BackspaceUndoesType(t: string, c: char, show: real -> string)
    requires IsDigit(c) || c == '(' || c == ')' || c == '.'
    ensures Typed(Typed(t, c, show), BackspaceChar, show) == t
  {
    assert (t + [c])[..|t + [c]| - 1] == t;
  }

  /** Removing the last character never adds a '.'. */
  lemma BackspaceKeepsDots(t: string)
    ensures CountChar(Backspace(t), '.') <= CountChar(t, '.')
  {
    if |t| > 0 {
      CountCharSplit(t[..|t| - 1], [t[|t| - 1]], '.');
      assert t[..|t| - 1] + [t[|t| - 1]] == t;
    }
  }

  /**
   * With the buttons alone the display never holds two points: every
   * button keeps the count of '.' at most one, provided the formatting of
   * a result does.
   */
  lemma {:induction false} ButtonsKeepOneDot(t: string, command: string, show: real -> string)
    requires command in Buttons
    requires CountChar(t, '.') <= 1
    requires forall v :: CountChar(show(v), '.') <= 1
    ensures CountChar(Pressed(t, command, show), '.') <= 1
  {
    var r := Pressed(t, command, show);
    if IsDigitCommand(command) || command == "(" || command == ")" {
      CountCharSplit(t, command, '.');
      LabelWithoutPoint(command);
      CountCharZero(command, '.');
    } else if command == "C" {
    } else if command == "Backspace" {
      BackspaceKeepsDots(t);
    } else if command == "=" {
      match Evaluate(t) {
        case Ok(v) =>
        case Err(_) =>
          assert r == "Error";
          CountCharZero("Error", '.');
      }
    } else if command == "." {
    } else {
      CountCharSplit(t + " " + command, " ", '.');
      CountCharSplit(t + " ", command, '.');
      CountCharSplit(t, " ", '.');
      LabelWithoutPoint(command);
      CountCharZero(command, '.');
      CountCharZero(" ", '.');
    }
  }

  /** Only the '.' button's label holds a point. */
  lemma LabelWithoutPoint(command: string)
    requires command in Buttons && command != "."
    ensures '.' !in command
  {
  }

  /** The '.' button does nothing once the display holds a point anywhere. */
  lemma DotButtonBlocked(t: string, show: real -> string)
    requires '.' in t
    ensures Pressed(t, ".", show) == t
  {
  }

  /**
   * A typed '.' is not guarded the way the '.' button is: it always adds
   * another point, so the keyboard can produce a literal like "1..5".
   */
  lemma TypedDotUnguarded(t: string, show: real -> string)
    ensures CountChar(Typed(t, '.', show), '.') == CountChar(t, '.') + 1
  {
    CountCharSplit(t, ".", '.');
  }

  /**
   * The spaces the operator buttons and keys put around an operator do not
   * change the value of the display.
   */
  lemma SpacedOperatorSameResult(p: string, op: char, q: string)
    requires IsOperator(op)
    ensures Evaluate(p + Spaced(op) + q) == Evaluate(p + [op] + q)
  {
    assert p + Spaced(op) + q == p + [' '] + ([op, ' '] + q);
    SkippedCharacter(p, ' ', [op, ' '] + q);
    assert p + ([op, ' '] + q) == (p + [op]) + [' '] + q;
    SkippedCharacter(p + [op], ' ', q);
  }

  /** The operator button and the operator key edit the display alike. */
  lemma OperatorButtonMatchesKey(t: string, op: char, show: real -> string)
    requires IsOperator(op)
    ensures Pressed(t, [op], show) == Typed(t, op, show)
  {
    assert t + " " + [op] + " " == t + Spaced(op);
  }
}
