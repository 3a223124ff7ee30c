/** The calculator state machine of src/calc.rs as values: `State` holds the
    eight fields, one function per mutator gives the state it leaves behind,
    `Step` is `handle_input` and `Run` feeds a sequence of tokens. */
module CalculatorSpec {
  import opened Numbers

  const ErrorText: string := "Error"
  const ClearAllToken: string := "C"
  const ClearEntryToken: string := "CE"
  const BackspaceToken: string := "\U{2190}"  // U+2190 LEFTWARDS ARROW
  const SignToken: string := "\U{00B1}"       // U+00B1 PLUS-MINUS SIGN

  /** The eight fields of `CalculatorState`, as a value. */
  datatype State = State(
    current: string,
    history: string,
    stored: real,
    op: Option<Op>,
    lastOp: Option<Op>,
    lastOperand: Option<real>,
    error: bool,
    evaluated: bool)

  predicate IsDigitToken(t: string) {
    |t| == 1 && '0' <= t[0] <= '9'
  }

  /** The closed vocabulary `handle_input` reacts to. */
  predicate Recognised(t: string) {
    IsDigitToken(t) || t == "." || IsOpGlyph(t) || t == "=" || t == ClearAllToken
    || t == ClearEntryToken || t == BackspaceToken || t == SignToken
  }

  /** `CalculatorState::new()`. */
  function Init(): (s: State)
    ensures s.current == "0" && s.history == "" && s.stored == 0.0
    ensures s.op == None && s.lastOp == None && s.lastOperand == None
    ensures !s.error && !s.evaluated
  {
    State("0", "", 0.0, None, None, None, false, false)
  }

  /** `clear_all`: every field back to the construction defaults. */
  function ClearAll(s: State): (r: State)
    ensures r == Init()
  {
    Init()
  }

  /** `clear_entry`: resets the display and unlocks, and nothing else changes. */
  function ClearEntry(s: State): (r: State)
    ensures r.current == "0" && !r.error
    ensures r.history == s.history && r.stored == s.stored && r.op == s.op
    ensures r.lastOp == s.lastOp && r.lastOperand == s.lastOperand && r.evaluated == s.evaluated
  {
    s.(current := "0", error := false)
  }

  /** `clear_if_evaluated`: the fresh start taken by the first edit after `=`. */
  function ClearIfEvaluated(s: State): (r: State)
    ensures !r.evaluated
    ensures s.evaluated ==> r.current == "0" && r.history == ""
    ensures !s.evaluated ==> r == s
    ensures r.stored == s.stored && r.op == s.op && r.lastOp == s.lastOp
    ensures r.lastOperand == s.lastOperand && r.error == s.error
  {
    if s.evaluated then s.(history := "", current := "0", evaluated := false) else s
  }

  /** `input_digit`: after the fresh start, the digit replaces a lone "0" and is
      appended to anything else; only the display changes. */
  function InputDigit(s: State, d: char): (r: State)
    ensures var f := ClearIfEvaluated(s);
      r == f.(current := r.current) &&
      |r.current| > 0 && r.current[|r.current| - 1] == d &&
      r.current[..|r.current| - 1] == (if f.current == "0" then [] else f.current)
  {
    var f := ClearIfEvaluated(s);
    if f.current == "0" then f.(current := [d]) else f.(current := f.current + [d])
  }

  /** `input_decimal`: after the fresh start, the display holds a decimal
      point, and gains one only when it had none. */
  function InputDecimal(s: State): (r: State)
    ensures var f := ClearIfEvaluated(s);
      r == f.(current := r.current) &&
      '.' in r.current &&
      ('.' in f.current ==> r.current == f.current) &&
      ('.' !in f.current ==> r.current == f.current + ".")
  {
    var f := ClearIfEvaluated(s);
    if '.' in f.current then f else f.(current := f.current + ".")
  }

  /** `backspace`: after the fresh start, drops the last character of the
      display; the display is never left empty. */
  function Backspace(s: State): (r: State)
    ensures var f := ClearIfEvaluated(s);
      r == f.(current := r.current) &&
      |r.current| > 0 &&
      (|f.current| <= 1 ==> r.current == "0") &&
      (|f.current| > 1 ==> r.current == f.current[..|f.current| - 1])
  {
    var f := ClearIfEvaluated(s);
    var popped := if f.current == [] then f.current else f.current[..|f.current| - 1];
    if popped == [] then f.(current := "0") else f.(current := popped)
  }

  /** `toggle_sign`: after the fresh start, a display other than "0" that
      parses as `x` is replaced by the text of `-x`; a malformed display is
      left as it is. */
  function ToggleSign(num: Numerals, s: State): (r: State)
    ensures var f := ClearIfEvaluated(s);
      r == f.(current := r.current) &&
      (f.current == "0" || num.parse(f.current).None? ==> r.current == f.current) &&
      (f.current != "0" && num.parse(f.current).Some? ==>
         r.current == num.render(-num.parse(f.current).value))
  {
    var f := ClearIfEvaluated(s);
    if f.current == "0" then f
    else match num.parse(f.current)
      case Some(x) => f.(current := num.render(-x))
      case None => f
  }

  /** `calculate_internal`: combines `stored` with the parsed display. A zero
      divisor locks the machine, shows "Error", clears the history and leaves
      `stored` alone; any other case writes the result to both the display
      and `stored`. */
  function CalculateInternal(num: Numerals, s: State, o: Op): (r: State)
    ensures var b := ParseOr0(num, s.current);
      r.op == s.op && r.lastOp == s.lastOp && r.lastOperand == s.lastOperand &&
      r.evaluated == s.evaluated && r.stored == (if Defined(o, b) then Apply(o, s.stored, b) else s.stored) &&
      (!Defined(o, b) ==> r.error && r.current == ErrorText && r.history == "") &&
      (Defined(o, b) ==> r.error == s.error && r.history == s.history &&
                         r.current == num.render(Apply(o, s.stored, b)))
  {
    var a := s.stored;
    var b := ParseOr0(num, s.current);
    if !Defined(o, b) then
      s.(error := true, current := ErrorText, history := "")
    else
      var result := Apply(o, a, b);
      s.(current := num.render(result), stored := result)
  }

  /** `set_operation`: a pending operator is evaluated first (and an error
      there ends the step); then the display becomes the stored operand, the
      new operator is both pending and last, and a fresh entry begins. */
  function SetOperation(num: Numerals, s: State, g: string): (r: State)
    requires IsOpGlyph(g)
    ensures var m := if s.op.Some? then CalculateInternal(num, s, s.op.value) else s;
      (s.op.Some? && m.error ==> r == m) &&
      (!(s.op.Some? && m.error) ==>
         r.op == Some(ParseOp(g)) && r.lastOp == r.op && r.current == "0" &&
         r.lastOperand == None && !r.evaluated && r.error == m.error &&
         r.stored == ParseOr0(num, m.current) &&
         r.history == num.render(r.stored) + " " + g)
  {
    var m := if s.op.Some? then CalculateInternal(num, s, s.op.value) else s;
    if s.op.Some? && m.error then m
    else
      var stored := ParseOr0(num, m.current);
      var o := ParseOp(g);
      m.(evaluated := false, stored := stored, op := Some(o), lastOp := Some(o),
         current := "0", lastOperand := None, history := num.render(stored) + " " + g)
  }

  /** `calculate` (the "=" button). With an operator pending, the display is
      its right operand; otherwise the last operator is applied again to the
      display and the last operand (zero if none). With neither it does nothing. */
  function Calculate(num: Numerals, s: State): (r: State)
    ensures s.op.None? && s.lastOp.None? ==> r == s
    ensures s.op.Some? || s.lastOp.Some? ==> r.op.None? && r.evaluated
    ensures s.op.Some? ==> r.lastOp == s.op && r.lastOperand == Some(ParseOr0(num, s.current))
    ensures s.op.None? && s.lastOp.Some? ==> r.lastOp == s.lastOp && r.lastOperand == s.lastOperand
    // pending: `stored op display`, or the lock on a zero divisor
    ensures s.op.Some? ==>
      var b := ParseOr0(num, s.current);
      if Defined(s.op.value, b) then
        r.error == s.error && r.stored == Apply(s.op.value, s.stored, b) &&
        r.current == num.render(r.stored) && r.history == s.history + " " + num.render(b) + " ="
      else
        r.error && r.current == ErrorText && r.history == "" && r.stored == s.stored
    // repeat: `display lastOp lastOperand`, the operand re-read from its text
    ensures s.op.None? && s.lastOp.Some? ==>
      var a := ParseOr0(num, s.current);
      var b := ParseOr0(num, num.render(s.lastOperand.GetOr(0.0)));
      if Defined(s.lastOp.value, b) then
        r.error == s.error && r.stored == Apply(s.lastOp.value, a, b) &&
        r.current == num.render(r.stored) &&
        r.history == num.render(a) + " " + Glyph(s.lastOp.value) + " " +
                     num.render(s.lastOperand.GetOr(0.0)) + "="
      else
        r.error && r.current == ErrorText && r.history == "" && r.stored == a
  {
    if s.op.Some? then
      var b := ParseOr0(num, s.current);
      var s1 := s.(lastOperand := Some(b), lastOp := s.op,
                   history := s.history + " " + num.render(b) + " =");
      CalculateInternal(num, s1, s.op.value).(op := None, evaluated := true)
    else if s.lastOp.Some? then
      var a := ParseOr0(num, s.current);
      var b := s.lastOperand.GetOr(0.0);
      var s1 := s.(stored := a,
                   history := num.render(a) + " " + Glyph(s.lastOp.value) + " " + num.render(b) + "=");
      var s2 := s1.(current := num.render(b));
      CalculateInternal(num, s2, s.lastOp.value).(op := None, evaluated := true)
    else
      s
  }

  /** `handle_input`: while locked only the two clear commands act, and an
      unrecognised token never changes anything. */
  function Step(num: Numerals, s: State, t: string): (r: State)
    ensures s.error && t != ClearAllToken && t != ClearEntryToken ==> r == s
    ensures !Recognised(t) ==> r == s
    ensures t == ClearAllToken ==> r == Init()
    ensures t == ClearEntryToken ==> r == ClearEntry(s)
  {
    if s.error && t != ClearAllToken && t != ClearEntryToken then s
    else if IsDigitToken(t) then InputDigit(s, t[0])
    else if t == "." then InputDecimal(s)
    else if IsOpGlyph(t) then SetOperation(num, s, t)
    else if t == "=" then Calculate(num, s)
    else if t == ClearAllToken then ClearAll(s)
    else if t == ClearEntryToken then ClearEntry(s)
    else if t == BackspaceToken then Backspace(s)
    else if t == SignToken then ToggleSign(num, s)
    else s
  }

  /** The state after feeding a sequence of tokens, one `handle_input` call each. */
  function Run(num: Numerals, s: State, ts: seq<string>): State
    decreases |ts|
  {
    if ts == [] then s else Run(num, Step(num, s, ts[0]), ts[1..])
  }
}
