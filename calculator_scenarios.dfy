/** The scenarios of the unit tests in src/calc.rs, played on a
    `CalculatorState` object through `HandleInput`. Each one states only the
    facts about `f64` text conversion that the scenario needs. */
module CalculatorScenarios {
  import opened Numbers
  import opened CalculatorSpec
  import opened Calculator
  import opened CalculatorProperties

  /** 12 + 3 = shows 15. */
  method AddScenario(num: Numerals) returns (display: string)
    requires num.parse("12") == Some(12.0) && num.parse("3") == Some(3.0)
    requires num.render(15.0) == "15"
    ensures display == "15"
  {
    var c := new CalculatorState(num);
    ghost var s := c.Snapshot();
    c.HandleInput("1");
    StepDigit(num, s, '1');
    s := c.Snapshot();
    c.HandleInput("2");
    StepDigit(num, s, '2');
    assert c.current == "12";
    s := c.Snapshot();
    c.HandleInput("+");
    StepOperator(num, s, "+");
    s := c.Snapshot();
    c.HandleInput("3");
    StepDigit(num, s, '3');
    s := c.Snapshot();
    c.HandleInput("=");
    StepEquals(num, s);
    display := c.current;
  }

  /** 5 x 0 = shows 0. */
  method MultiplyByZeroScenario(num: Numerals) returns (display: string)
    requires num.parse("5") == Some(5.0) && num.parse("0") == Some(0.0)
    requires num.render(0.0) == "0"
    ensures display == "0"
  {
    var c := new CalculatorState(num);
    ghost var s := c.Snapshot();
    c.HandleInput("5");
    StepDigit(num, s, '5');
    s := c.Snapshot();
    c.HandleInput(TimesGlyph);
    StepOperator(num, s, TimesGlyph);
    s := c.Snapshot();
    c.HandleInput("0");
    StepDigit(num, s, '0');
    s := c.Snapshot();
    c.HandleInput("=");
    StepEquals(num, s);
    display := c.current;
  }

  /** 9 ÷ 0 = shows Error and locks; + is ignored; C unlocks; CE keeps it unlocked. */
  method DivideByZeroScenario(num: Numerals)
    returns (atEquals: string, lockedAtEquals: bool, afterPlus: string,
             afterClear: string, lockedAfterClear: bool,
             afterClearEntry: string, lockedAfterClearEntry: bool)
    requires num.parse("9") == Some(9.0) && num.parse("0") == Some(0.0)
    ensures atEquals == "Error" && lockedAtEquals
    ensures afterPlus == "Error"
    ensures afterClear == "0" && !lockedAfterClear
    ensures afterClearEntry == "0" && !lockedAfterClearEntry
  {
    var c := new CalculatorState(num);
    ghost var s := c.Snapshot();
    c.HandleInput("9");
    StepDigit(num, s, '9');
    s := c.Snapshot();
    c.HandleInput(DivideGlyph);
    StepOperator(num, s, DivideGlyph);
    s := c.Snapshot();
    c.HandleInput("0");
    StepDigit(num, s, '0');
    s := c.Snapshot();
    c.HandleInput("=");
    StepEquals(num, s);
    atEquals, lockedAtEquals := c.current, c.error;
    c.HandleInput("+");
    afterPlus := c.current;
    c.HandleInput("C");
    afterClear, lockedAfterClear := c.current, c.error;
    c.HandleInput("CE");
    afterClearEntry, lockedAfterClearEntry := c.current, c.error;
  }

  /** 1 . . 5 + 2 = shows 3.5: the second decimal point is ignored. */
  method DoubleDecimalScenario(num: Numerals) returns (entered: string, display: string)
    requires num.parse("1.5") == Some(1.5) && num.parse("2") == Some(2.0)
    requires num.render(3.5) == "3.5"
    ensures entered == "1.5"
    ensures display == "3.5"
  {
    var c := new CalculatorState(num);
    ghost var s := c.Snapshot();
    c.HandleInput("1");
    StepDigit(num, s, '1');
    s := c.Snapshot();
    c.HandleInput(".");
    StepDecimal(num, s);
    assert c.current == "1.";
    s := c.Snapshot();
    c.HandleInput(".");
    StepDecimal(num, s);
    assert '.' in s.current && c.current == "1.";
    s := c.Snapshot();
    c.HandleInput("5");
    StepDigit(num, s, '5');
    entered := c.current;
    assert entered == "1.5";
    s := c.Snapshot();
    c.HandleInput("+");
    StepOperator(num, s, "+");
    s := c.Snapshot();
    c.HandleInput("2");
    StepDigit(num, s, '2');
    s := c.Snapshot();
    c.HandleInput("=");
    StepEquals(num, s);
    display := c.current;
  }

  /** 5 + 2 = shows 7, and a second = shows 9. */
  method RepeatEqualsScenario(num: Numerals) returns (first: string, second: string)
    requires num.parse("5") == Some(5.0) && num.parse("2") == Some(2.0)
    requires num.parse("7") == Some(7.0)
    requires num.render(7.0) == "7" && num.render(2.0) == "2" && num.render(9.0) == "9"
    ensures first == "7" && second == "9"
  {
    var c := new CalculatorState(num);
    ghost var s := c.Snapshot();
    c.HandleInput("5");
    StepDigit(num, s, '5');
    s := c.Snapshot();
    c.HandleInput("+");
    StepOperator(num, s, "+");
    s := c.Snapshot();
    c.HandleInput("2");
    StepDigit(num, s, '2');
    s := c.Snapshot();
    c.HandleInput("=");
    StepEquals(num, s);
    first := c.current;
    s := c.Snapshot();
    c.HandleInput("=");
    StepEquals(num, s);
    second := c.current;
  }

  /** 1 0 ← shows 1, and a second ← shows 0. */
  method BackspaceScenario(num: Numerals) returns (first: string, second: string)
    ensures first == "1" && second == "0"
  {
    var c := new CalculatorState(num);
    ghost var s := c.Snapshot();
    c.HandleInput("1");
    StepDigit(num, s, '1');
    s := c.Snapshot();
    c.HandleInput("0");
    StepDigit(num, s, '0');
    s := c.Snapshot();
    c.HandleInput(BackspaceToken);
    StepBackspace(num, s);
    first := c.current;
    s := c.Snapshot();
    c.HandleInput(BackspaceToken);
    StepBackspace(num, s);
    second := c.current;
  }
}
