/** The calculator of src/calc.rs as the source has it: an object whose
    methods update its fields in place, each proved to leave the state that
    the matching function of `CalculatorSpec` describes. */
module Calculator {
  import opened Numbers
  import opened CalculatorSpec

  /** `CalculatorState`: the eight fields updated in place. The text form of
      numbers is fixed when the object is made. */
  class CalculatorState {
    var current: string
    var history: string
    var stored: real
    var op: Option<Op>
    var lastOp: Option<Op>
    var lastOperand: Option<real>
    var error: bool
    var evaluated: bool
    const num: Numerals

    /** The object's fields as a `State` value. */
    function Snapshot(): (s: State)
      reads this
      ensures s.current == current && s.history == history && s.stored == stored
      ensures s.op == op && s.lastOp == lastOp && s.lastOperand == lastOperand
      ensures s.error == error && s.evaluated == evaluated
    {
      State(current, history, stored, op, lastOp, lastOperand, error, evaluated)
    }

    /** `new`. */
    constructor (num: Numerals)
      ensures Snapshot() == Init() && this.num == num
    {
      current := "0";
      history := "";
      stored := 0.0;
      op := None;
      lastOperand := None;
      error := false;
      evaluated := false;
      lastOp := None;
      this.num := num;
    }

    method HandleInput(input: string)
      modifies this
      ensures Snapshot() == Step(num, old(Snapshot()), input)
      ensures old(error) && input != ClearAllToken && input != ClearEntryToken ==> unchanged(this)
    {
      if error && input != ClearAllToken && input != ClearEntryToken {
        return;
      }
      if IsDigitToken(input) {
        InputDigit(input[0]);
      } else if input == "." {
        InputDecimal();
      } else if IsOpGlyph(input) {
        SetOperation(input);
      } else if input == "=" {
        Calculate();
      } else if input == ClearAllToken {
        ClearAll();
      } else if input == ClearEntryToken {
        ClearEntry();
      } else if input == BackspaceToken {
        Backspace();
      } else if input == SignToken {
        ToggleSign();
      }
    }

    method ClearAll()
      modifies this
      ensures Snapshot() == Init()
    {
      current := "0";
      history := "";
      stored := 0.0;
      op := None;
      lastOperand := None;
      error := false;
      evaluated := false;
      lastOp := None;
    }

    method ClearEntry()
      modifies this
      ensures Snapshot() == CalculatorSpec.ClearEntry(old(Snapshot()))
    {
      current := "0";
      error := false;
    }

    method ClearIfEvaluated()
      modifies this
      ensures Snapshot() == CalculatorSpec.ClearIfEvaluated(old(Snapshot()))
    {
      if evaluated {
        history := "";
        current := "0";
        evaluated := false;
      }
    }

    method InputDigit(digit: char)
      modifies this
      ensures Snapshot() == CalculatorSpec.InputDigit(old(Snapshot()), digit)
    {
      ClearIfEvaluated();
      if current == "0" {
        current := [digit];
      } else {
        current := current + [digit];
      }
    }

    method InputDecimal()
      modifies this
      ensures Snapshot() == CalculatorSpec.InputDecimal(old(Snapshot()))
    {
      ClearIfEvaluated();
      if '.' !in current {
        current := current + ".";
      }
    }

    method Backspace()
      modifies this
      ensures Snapshot() == CalculatorSpec.Backspace(old(Snapshot()))
    {
      ClearIfEvaluated();
      if current != [] {
        current := current[..|current| - 1];
      }
      if current == [] {
        current := "0";
      }
    }

    method ToggleSign()
      modifies this
      ensures Snapshot() == CalculatorSpec.ToggleSign(num, old(Snapshot()))
    {
      ClearIfEvaluated();
      if current == "0" {
        return;
      }
      var parsed := num.parse(current);
      if parsed.Some? {
        current := num.render(-parsed.value);
      }
    }

    method SetOperation(opText: string)
      requires IsOpGlyph(opText)
      modifies this
      ensures Snapshot() == CalculatorSpec.SetOperation(num, old(Snapshot()), opText)
    {
      if op.Some? {
        CalculateInternal(op.value);
        if error {
          return;
        }
      }
      evaluated := false;
      stored := ParseOr0(num, current);
      var newOp := ParseOp(opText);
      op := Some(newOp);
      lastOp := Some(newOp);
      current := "0";
      lastOperand := None;
      history := num.render(stored) + " " + opText;
    }

    method Calculate()
      modifies this
      ensures Snapshot() == CalculatorSpec.Calculate(num, old(Snapshot()))
    {
      var b: real;
      var opToUse: Op;
      if op.Some? {
        b := ParseOr0(num, current);
        lastOperand := Some(b);
        lastOp := op;
        history := history + " " + num.render(b) + " =";
        opToUse := op.value;
      } else if lastOp.Some? {
        stored := ParseOr0(num, current);
        b := lastOperand.GetOr(0.0);
        history := num.render(stored) + " " + Glyph(lastOp.value) + " " + num.render(b) + "=";
        opToUse := lastOp.value;
      } else {
        return;
      }
      if op.None? {
        current := num.render(b);
      }
      CalculateInternal(opToUse);
      op := None;
      evaluated := true;
    }

    method CalculateInternal(opToUse: Op)
      modifies this
      ensures Snapshot() == CalculatorSpec.CalculateInternal(num, old(Snapshot()), opToUse)
    {
      var a := stored;
      var b := ParseOr0(num, current);
      if !Defined(opToUse, b) {
        error := true;
        current := ErrorText;
        history := "";
        return;
      }
      var result := Apply(opToUse, a, b);
      current := num.render(result);
      stored := result;
    }
  }
}
