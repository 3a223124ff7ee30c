/** Properties of the calculator state machine that relate several
    `handle_input` calls: the error lockout, the invariants every token keeps,
    digit entry, operator chaining and repeat-equals. */
module CalculatorProperties {
  import opened Numbers
  import opened CalculatorSpec

  /** The tokens that type the digits of `ds`, one button each. */
  function DigitTokens(ds: string): (ts: seq<string>)
    ensures |ts| == |ds|
  {
    if ds == [] then [] else [[ds[0]]] + DigitTokens(ds[1..])
  }

  predicate AllDigits(ds: string) {
    forall i :: 0 <= i < |ds| ==> '0' <= ds[i] <= '9'
  }

  /** `k` presses of "=". */
  function Equals(k: nat): (ts: seq<string>)
    ensures |ts| == k
  {
    if k == 0 then [] else ["="] + Equals(k - 1)
  }

  /** `x` with `b` applied to it `k` times under `o`, left to right. */
  function Iterate(o: Op, x: real, b: real, k: nat): real
    requires Defined(o, b)
    decreases k
  {
    if k == 0 then x else Iterate(o, Apply(o, x, b), b, k - 1)
  }

  lemma {:induction false} RunConcat(num: Numerals, s: State, xs: seq<string>, ys: seq<string>)
    ensures Run(num, s, xs + ys) == Run(num, Run(num, s, xs), ys)
    decreases |xs|
  {
    if xs == [] {
      assert xs + ys == ys;
    } else {
      assert (xs + ys)[0] == xs[0] && (xs + ys)[1..] == xs[1..] + ys;
      RunConcat(num, Step(num, s, xs[0]), xs[1..], ys);
    }
  }

  /** Error lockout: once locked, any run of tokens without a clear command
      leaves every field as it is. */
  lemma {:induction false} LockoutRun(num: Numerals, s: State, ts: seq<string>)
    requires s.error
    requires forall i :: 0 <= i < |ts| ==> ts[i] != ClearAllToken && ts[i] != ClearEntryToken
    ensures Run(num, s, ts) == s
    decreases |ts|
  {
    if ts != [] {
      assert Step(num, s, ts[0]) == s;
      LockoutRun(num, s, ts[1..]);
    }
  }

  /** Pressing "." twice does what pressing it once does. */
  lemma DecimalIdempotent(num: Numerals, s: State)
    ensures Step(num, Step(num, s, "."), ".") == Step(num, s, ".")
  {
  }

  /** What every reachable state satisfies: the display is never empty and
      holds at most one decimal point; a locked machine shows "Error" with an
      empty history; a pending operator is also the last operator and means
      no evaluation has just completed; and a last operator with none pending
      always has its operand, so repeat-equals never uses the zero default. */
  ghost predicate Consistent(s: State) {
    |s.current| > 0 && DotCount(s.current) <= 1 &&
    (s.error ==> s.current == ErrorText && s.history == "") &&
    (s.op.Some? ==> s.lastOp == s.op && !s.evaluated) &&
    (s.op.None? && s.lastOp.Some? ==> s.lastOperand.Some?)
  }

  /** The text conversions of Rust's `f64` that the invariant relies on. */
  ghost predicate WellBehaved(num: Numerals) {
    RenderNonEmpty(num) && RenderAtMostOneDot(num)
  }

  lemma InitConsistent()
    ensures Consistent(Init())
  {
    assert DotCount("0") == 0;
  }

  lemma RenderConsistent(num: Numerals, x: real)
    requires WellBehaved(num)
    ensures |num.render(x)| > 0 && DotCount(num.render(x)) <= 1
  {
  }

  lemma ErrorTextNoDot()
    ensures DotCount(ErrorText) == 0
  {
    assert '.' !in ErrorText;
    DotCountZero(ErrorText);
  }

  lemma CalculateInternalConsistent(num: Numerals, s: State, o: Op)
    requires WellBehaved(num) && !s.error
    ensures var r := CalculateInternal(num, s, o);
      |r.current| > 0 && DotCount(r.current) <= 1 &&
      (r.error ==> r.current == ErrorText && r.history == "")
  {
    ErrorTextNoDot();
    if Defined(o, ParseOr0(num, s.current)) {
      RenderConsistent(num, Apply(o, s.stored, ParseOr0(num, s.current)));
    }
  }

  lemma DigitKeepsDots(c: string, d: char)
    requires '0' <= d <= '9'
    ensures DotCount(c + [d]) == DotCount(c)
  {
    DotCountConcat(c, [d]);
  }

  lemma BackspaceKeepsDots(c: string)
    requires |c| > 0
    ensures DotCount(c[..|c| - 1]) <= DotCount(c)
  {
  }

  lemma ClearIfEvaluatedConsistent(s: State)
    requires Consistent(s) && !s.error
    ensures Consistent(ClearIfEvaluated(s))
  {
    assert DotCount("0") == 0;
  }

  lemma InputDigitConsistent(s: State, d: char)
    requires Consistent(s) && !s.error && '0' <= d <= '9'
    ensures Consistent(InputDigit(s, d))
  {
    var f := ClearIfEvaluated(s);
    ClearIfEvaluatedConsistent(s);
    assert DotCount([d]) == 0;
    DigitKeepsDots(f.current, d);
  }

  lemma InputDecimalConsistent(s: State)
    requires Consistent(s) && !s.error
    ensures Consistent(InputDecimal(s))
  {
    var f := ClearIfEvaluated(s);
    ClearIfEvaluatedConsistent(s);
    if '.' !in f.current {
      DotCountZero(f.current);
      DotCountConcat(f.current, ".");
    }
  }

  lemma BackspaceConsistent(s: State)
    requires Consistent(s) && !s.error
    ensures Consistent(Backspace(s))
  {
    var f := ClearIfEvaluated(s);
    ClearIfEvaluatedConsistent(s);
    assert DotCount("0") == 0;
    if |f.current| > 1 {
      BackspaceKeepsDots(f.current);
    }
  }

  lemma ToggleSignConsistent(num: Numerals, s: State)
    requires WellBehaved(num) && Consistent(s) && !s.error
    ensures Consistent(ToggleSign(num, s))
  {
    var f := ClearIfEvaluated(s);
    ClearIfEvaluatedConsistent(s);
    if f.current != "0" && num.parse(f.current).Some? {
      RenderConsistent(num, -num.parse(f.current).value);
    }
  }

  lemma SetOperationConsistent(num: Numerals, s: State, g: string)
    requires WellBehaved(num) && Consistent(s) && !s.error && IsOpGlyph(g)
    ensures Consistent(SetOperation(num, s, g))
  {
    assert DotCount("0") == 0;
    if s.op.Some? {
      CalculateInternalConsistent(num, s, s.op.value);
    }
  }

  lemma CalculateConsistent(num: Numerals, s: State)
    requires WellBehaved(num) && Consistent(s) && !s.error
    ensures Consistent(Calculate(num, s))
  {
    if s.op.Some? {
      var b := ParseOr0(num, s.current);
      var s1 := s.(lastOperand := Some(b), lastOp := s.op,
                   history := s.history + " " + num.render(b) + " =");
      CalculateInternalConsistent(num, s1, s.op.value);
    } else if s.lastOp.Some? {
      var a := ParseOr0(num, s.current);
      var b := s.lastOperand.GetOr(0.0);
      var s2 := s.(stored := a, current := num.render(b),
                   history := num.render(a) + " " + Glyph(s.lastOp.value) + " " + num.render(b) + "=");
      CalculateInternalConsistent(num, s2, s.lastOp.value);
    }
  }

  /** Every token keeps the invariant. */
  lemma StepConsistent(num: Numerals, s: State, t: string)
    requires WellBehaved(num) && Consistent(s)
    ensures Consistent(Step(num, s, t))
  {
    if s.error && t != ClearAllToken && t != ClearEntryToken {
    } else if IsDigitToken(t) {
      InputDigitConsistent(s, t[0]);
    } else if t == "." {
      InputDecimalConsistent(s);
    } else if IsOpGlyph(t) {
      SetOperationConsistent(num, s, t);
    } else if t == "=" {
      CalculateConsistent(num, s);
    } else if t == ClearAllToken {
      InitConsistent();
    } else if t == ClearEntryToken {
      assert DotCount("0") == 0;
    } else if t == BackspaceToken {
      BackspaceConsistent(s);
    } else if t == SignToken {
      ToggleSignConsistent(num, s);
    }
  }

  /** Every run of tokens keeps the invariant. */
  lemma {:induction false} RunConsistent(num: Numerals, s: State, ts: seq<string>)
    requires WellBehaved(num) && Consistent(s)
    ensures Consistent(Run(num, s, ts))
    decreases |ts|
  {
    if ts != [] {
      StepConsistent(num, s, ts[0]);
      RunConsistent(num, Step(num, s, ts[0]), ts[1..]);
    }
  }

  /** Dispatch of `handle_input` for each kind of token on an unlocked machine. */
  lemma StepDigit(num: Numerals, s: State, d: char)
    requires !s.error && '0' <= d <= '9'
    ensures Step(num, s, [d]) == InputDigit(s, d)
  {
    assert IsDigitToken([d]);
  }

  lemma StepDecimal(num: Numerals, s: State)
    requires !s.error
    ensures Step(num, s, ".") == InputDecimal(s)
  {
    assert !IsDigitToken(".");
  }

  lemma StepOperator(num: Numerals, s: State, g: string)
    requires !s.error && IsOpGlyph(g)
    ensures Step(num, s, g) == SetOperation(num, s, g)
  {
    assert !IsDigitToken(g) && g != ".";
  }

  lemma StepEquals(num: Numerals, s: State)
    requires !s.error
    ensures Step(num, s, "=") == Calculate(num, s)
  {
    assert !IsDigitToken("=") && !IsOpGlyph("=");
  }

  lemma StepBackspace(num: Numerals, s: State)
    requires !s.error
    ensures Step(num, s, BackspaceToken) == Backspace(s)
  {
    assert !IsDigitToken(BackspaceToken) && !IsOpGlyph(BackspaceToken);
  }

  lemma StepSign(num: Numerals, s: State)
    requires !s.error
    ensures Step(num, s, SignToken) == ToggleSign(num, s)
  {
    assert !IsDigitToken(SignToken) && !IsOpGlyph(SignToken);
  }

  lemma RunDigit(num: Numerals, s: State, d: char, rest: seq<string>)
    requires !s.error && '0' <= d <= '9'
    ensures Run(num, s, [[d]] + rest) == Run(num, InputDigit(s, d), rest)
  {
    var ts := [[d]] + rest;
    assert ts[0] == [d] && ts[1..] == rest;
    StepDigit(num, s, d);
  }

  lemma RunAppendDigit(num: Numerals, s: State, d: char, rest: seq<string>)
    requires !s.error && !s.evaluated && s.current != "0" && '0' <= d <= '9'
    ensures Run(num, s, [[d]] + rest) == Run(num, s.(current := s.current + [d]), rest)
  {
    RunDigit(num, s, d, rest);
  }

  /** Digits typed onto a display other than "0" are appended in order, and
      nothing but the display changes. */
  lemma {:induction false} AppendDigits(num: Numerals, s: State, ds: string)
    requires !s.error && !s.evaluated && |s.current| > 0 && s.current != "0"
    requires AllDigits(ds)
    ensures Run(num, s, DigitTokens(ds)) == s.(current := s.current + ds)
    decreases |ds|
  {
    if ds == [] {
      assert s.current + ds == s.current;
    } else {
      assert DigitTokens(ds) == [[ds[0]]] + DigitTokens(ds[1..]);
      RunAppendDigit(num, s, ds[0], DigitTokens(ds[1..]));
      AppendDigits(num, s.(current := s.current + [ds[0]]), ds[1..]);
      assert s.current + [ds[0]] + ds[1..] == s.current + ds;
    }
  }

  /** Digit entry from a fresh start (a "0" display, or just after "="):
      typing a lone digit, or d1..dn with d1 other than '0', shows exactly
      what was typed. */
  lemma TypeDigits(num: Numerals, s: State, ds: string)
    requires !s.error && (s.evaluated || s.current == "0")
    requires AllDigits(ds) && |ds| > 0 && (ds[0] != '0' || |ds| == 1)
    ensures Run(num, s, DigitTokens(ds)) == ClearIfEvaluated(s).(current := ds)
  {
    var d, rest := ds[0], DigitTokens(ds[1..]);
    assert DigitTokens(ds) == [[d]] + rest;
    RunDigit(num, s, d, rest);
    var s1 := InputDigit(s, d);
    assert s1 == ClearIfEvaluated(s).(current := [d]);
    if |ds| == 1 {
      assert rest == [] && ds == [d];
    } else {
      AppendDigits(num, s1, ds[1..]);
      assert [d] + ds[1..] == ds;
    }
  }

  /** "=" with an operator pending applies it to `stored` and the display,
      and remembers the operator and operand for repeat-equals. */
  lemma EqualsPending(num: Numerals, s: State)
    requires !s.error && s.op.Some? && Defined(s.op.value, ParseOr0(num, s.current))
    ensures var b := ParseOr0(num, s.current);
      var x := Apply(s.op.value, s.stored, b);
      var r := Step(num, s, "=");
      !r.error && r.op == None && r.evaluated && r.lastOp == s.op && r.lastOperand == Some(b) &&
      r.stored == x && r.current == num.render(x)
  {
  }

  /** Repeat-equals: with no operator pending, "=" applies the last operator
      and the last operand to the display value. The operand is re-read from
      its own text, so it must read back as itself. */
  lemma RepeatEquals(num: Numerals, s: State)
    requires !s.error && s.op == None && s.lastOp.Some? && s.lastOperand.Some?
    requires RoundTripsAt(num, s.lastOperand.value) && Defined(s.lastOp.value, s.lastOperand.value)
    ensures var x := Apply(s.lastOp.value, ParseOr0(num, s.current), s.lastOperand.value);
      var r := Step(num, s, "=");
      !r.error && r.op == None && r.evaluated && r.lastOp == s.lastOp &&
      r.lastOperand == s.lastOperand && r.stored == x && r.current == num.render(x)
  {
    ParseRenderOr0(num, s.lastOperand.value);
  }

  /** Pressing "=" `k` more times applies the last operator with the same
      operand `k` more times, provided the operand and every intermediate
      result shown on the display read back as themselves. */
  lemma {:induction false} RepeatEqualsMany(num: Numerals, s: State, k: nat)
    requires !s.error && s.op == None && s.lastOp.Some? && s.lastOperand.Some?
    requires RoundTripsAt(num, s.lastOperand.value) && Defined(s.lastOp.value, s.lastOperand.value)
    requires forall j :: 1 <= j < k ==>
      RoundTripsAt(num, Iterate(s.lastOp.value, ParseOr0(num, s.current), s.lastOperand.value, j))
    requires k > 0
    ensures var x := Iterate(s.lastOp.value, ParseOr0(num, s.current), s.lastOperand.value, k);
      var r := Run(num, s, Equals(k));
      !r.error && r.op == None && r.lastOp == s.lastOp && r.lastOperand == s.lastOperand &&
      r.stored == x && r.current == num.render(x)
    decreases k
  {
    var o, x, b := s.lastOp.value, ParseOr0(num, s.current), s.lastOperand.value;
    var s1 := Step(num, s, "=");
    RepeatEquals(num, s);
    assert Equals(k)[0] == "=" && Equals(k)[1..] == Equals(k - 1);
    var x1 := Apply(o, x, b);
    if k > 1 {
      assert RoundTripsAt(num, Iterate(o, x, b, 1));
      ParseRenderOr0(num, x1);
      forall j | 1 <= j < k - 1
        ensures RoundTripsAt(num, Iterate(o, ParseOr0(num, s1.current), b, j))
      {
        assert Iterate(o, x, b, j + 1) == Iterate(o, x1, b, j);
      }
      RepeatEqualsMany(num, s1, k - 1);
    }
  }

  /** After `a op b =`, pressing "=" `k` more times gives `a op b op b ... op b`,
      provided `b` and the results shown before the last press read back as
      themselves. */
  lemma EqualsThenRepeat(num: Numerals, s: State, k: nat)
    requires !s.error && s.op.Some?
    requires Defined(s.op.value, ParseOr0(num, s.current))
    requires RoundTripsAt(num, ParseOr0(num, s.current))
    requires forall j :: 1 <= j <= k ==>
      RoundTripsAt(num, Iterate(s.op.value, s.stored, ParseOr0(num, s.current), j))
    ensures var b := ParseOr0(num, s.current);
      var x := Iterate(s.op.value, s.stored, b, k + 1);
      Run(num, s, Equals(k + 1)).current == num.render(x)
  {
    var o, b := s.op.value, ParseOr0(num, s.current);
    EqualsPending(num, s);
    var s1 := Step(num, s, "=");
    assert Equals(k + 1)[0] == "=" && Equals(k + 1)[1..] == Equals(k);
    var x1 := Apply(o, s.stored, b);
    if k > 0 {
      assert RoundTripsAt(num, Iterate(o, s.stored, b, 1));
      ParseRenderOr0(num, x1);
      forall j | 1 <= j < k
        ensures RoundTripsAt(num, Iterate(o, ParseOr0(num, s1.current), b, j))
      {
        assert Iterate(o, s.stored, b, j + 1) == Iterate(o, x1, b, j);
      }
      RepeatEqualsMany(num, s1, k);
    }
  }

  /** Chained operators associate left to right without precedence:
      with `a o1 b` pending, typing `o2 c =` shows `(a o1 b) o2 c`. */
  lemma ChainLeftToRight(num: Numerals, s: State, g: string, ds: string)
    requires !s.error && s.op.Some?
    requires Defined(s.op.value, ParseOr0(num, s.current))
    requires RoundTripsAt(num, Apply(s.op.value, s.stored, ParseOr0(num, s.current)))
    requires IsOpGlyph(g) && AllDigits(ds) && |ds| > 0 && (ds[0] != '0' || |ds| == 1)
    requires Defined(ParseOp(g), ParseOr0(num, ds))
    ensures var ab := Apply(s.op.value, s.stored, ParseOr0(num, s.current));
      var r := Run(num, s, [g] + DigitTokens(ds) + ["="]);
      !r.error && r.current == num.render(Apply(ParseOp(g), ab, ParseOr0(num, ds)))
  {
    var ab := Apply(s.op.value, s.stored, ParseOr0(num, s.current));
    var s1 := Step(num, s, g);
    ParseRenderOr0(num, ab);
    assert s1.op == Some(ParseOp(g)) && s1.stored == ab && s1.current == "0" && !s1.error;
    RunConcat(num, s, [g], DigitTokens(ds));
    RunConcat(num, s, [g] + DigitTokens(ds), ["="]);
    TypeDigits(num, s1, ds);
    var s2 := Run(num, s1, DigitTokens(ds));
    assert s2.current == ds && s2.stored == ab && s2.op == s1.op;
    EqualsPending(num, s2);
  }

  /** Division by zero, reached through "=": the machine locks with "Error"
      and an empty history, keeps `stored`, and leaves only the two clear
      commands able to change it. */
  lemma DivideByZeroLocks(num: Numerals, s: State, ts: seq<string>)
    requires !s.error && s.op == Some(Div) && ParseOr0(num, s.current) == 0.0
    requires forall i :: 0 <= i < |ts| ==> ts[i] != ClearAllToken && ts[i] != ClearEntryToken
    ensures var r := Step(num, s, "=");
      r.error && r.current == ErrorText && r.history == "" && r.stored == s.stored &&
      r.op == None && r.evaluated && Run(num, r, ts) == r
  {
    LockoutRun(num, Step(num, s, "="), ts);
  }

  /** Division by zero, reached by chaining a further operator: the pending
      operator stays pending and the machine locks. */
  lemma DivideByZeroOnChain(num: Numerals, s: State, g: string)
    requires !s.error && s.op == Some(Div) && ParseOr0(num, s.current) == 0.0 && IsOpGlyph(g)
    ensures var r := Step(num, s, g);
      r.error && r.current == ErrorText && r.history == "" && r.stored == s.stored &&
      r.op == s.op && r.lastOp == s.lastOp && r.evaluated == s.evaluated
  {
  }

  /** From the lock, "CE" unlocks and keeps the expression context, and "C"
      forgets everything. */
  lemma UnlockFromError(num: Numerals, s: State)
    requires s.error
    ensures var r := Step(num, s, ClearEntryToken);
      !r.error && r.current == "0" && r.stored == s.stored && r.op == s.op &&
      r.lastOp == s.lastOp && r.lastOperand == s.lastOperand && r.history == s.history
    ensures Step(num, s, ClearAllToken) == Init()
  {
  }

  /** Repeat-equals after a division by zero: "CE" unlocks, but the last
      operator and its zero operand are kept, so the next "=" locks again. */
  lemma DivideByZeroRelocks(num: Numerals, s: State)
    requires !s.error && s.op == Some(Div) && ParseOr0(num, s.current) == 0.0
    requires RoundTripsAt(num, 0.0)
    ensures var r := Run(num, s, ["=", ClearEntryToken, "="]);
      r.error && r.current == ErrorText && r.history == "" && r.op == None
  {
    var ts := ["=", ClearEntryToken, "="];
    var s1 := Step(num, s, "=");
    var s2 := Step(num, s1, ClearEntryToken);
    assert ts[0] == "=" && ts[1..][0] == ClearEntryToken && ts[1..][1..] == ["="];
    assert s2.lastOp == Some(Div) && s2.lastOperand == Some(0.0) && s2.op == None && !s2.error;
    StepEquals(num, s2);
    ParseRenderOr0(num, 0.0);
    var s3 := Step(num, s2, "=");
    assert s3.error && s3.current == ErrorText && s3.history == "" && s3.op == None;
    assert Run(num, s2, ["="]) == Run(num, s3, []) == s3;
    assert Run(num, s, ts) == Run(num, s1, ts[1..]) == Run(num, s2, ["="]);
  }

  /** Backspace after a sign change can leave a lone minus sign on the
      display: `5 ± ←` shows "-", which is not a numeral, and the machine is
      not locked. */
  lemma SignThenBackspaceLeavesMinus(num: Numerals)
    requires num.parse("5") == Some(5.0) && num.render(-5.0) == "-5"
    ensures var r := Run(num, Init(), ["5", SignToken, BackspaceToken]);
      !r.error && r.current == "-"
  {
    var ts := ["5", SignToken, BackspaceToken];
    var s1 := Step(num, Init(), "5");
    StepDigit(num, Init(), '5');
    assert s1.current == "5" && !s1.error && !s1.evaluated;
    StepSign(num, s1);
    var s2 := Step(num, s1, SignToken);
    assert s2.current == "-5" && !s2.error && !s2.evaluated;
    StepBackspace(num, s2);
    var s3 := Step(num, s2, BackspaceToken);
    assert s3.current == "-" && !s3.error;
    assert ts[0] == "5" && ts[1..][0] == SignToken && ts[1..][1..] == [BackspaceToken];
    assert Run(num, s2, [BackspaceToken]) == Run(num, s3, []) == s3;
    assert Run(num, Init(), ts) == Run(num, s1, ts[1..]) == Run(num, s2, [BackspaceToken]);
  }
}
