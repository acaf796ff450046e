/** The quantity validator of the cart's line-item inputs: which constraint
    an entered quantity breaks, in priority order, and the message shown. */
module QuantityValidation {
  import opened Options
  import opened Text

  /** What `parseInt` made of the field's text: an integer, or NaN. The
      range and precision of JavaScript numbers (a numeral of hundreds of
      digits parses to Infinity) are not modelled. */
  datatype Entered = Number(n: int) | NotANumber

  /** A bound declared on the input: the attribute text as written on the
      element (inserted into messages) and the integer `parseInt` reads
      from it (used in comparisons). */
  datatype Bound = Bound(text: string, value: int)

  /** The constraints of one input: `data-min` always, `max` and `step`
      only when the attribute is non-empty. */
  datatype Constraints = Constraints(min: Bound, max: Option<Bound>, step: Option<Bound>)

  /** `input.max && ...` and `input.step && ...`: an attribute counts as
      declared exactly when its text is not empty, so a declared bound never
      has empty text. */
  predicate Declared(c: Constraints)
  {
    (c.max.Some? ==> c.max.value.text != "") && (c.step.Some? ==> c.step.value.text != "")
  }

  /** The constraints read from an input element. */
  type InputConstraints = c: Constraints | Declared(c)
    witness Constraints(Bound("1", 1), None, None)

  /** The localized templates of the quick-order-list string table. */
  datatype Strings = Strings(minError: string, maxError: string, stepError: string)

  datatype Verdict = BelowMin | AboveMax | NotStepMultiple | Acceptable

  /** The JavaScript comparisons: any comparison with NaN is false. */
  predicate Below(v: Entered, bound: int)
  {
    v.Number? && v.n < bound
  }

  predicate Above(v: Entered, bound: int)
  {
    v.Number? && v.n > bound
  }

  /** `v % step === 0` in JavaScript: false for NaN and for a step of 0
      (both give NaN). Whether the remainder is zero does not depend on
      truncating or Euclidean division, so Dafny's `%` decides it. */
  function MultipleOf(v: Entered, step: int): (r: bool)
    ensures r <==> v.Number? && step != 0 && v.n == step * (v.n / step)
  {
    v.Number? && step != 0 && v.n % step == 0
  }

  /** The first check that fails, in the order min, max, step. */
  function Classify(v: Entered, c: Constraints): (r: Verdict)
    ensures r == BelowMin <==> Below(v, c.min.value)
    ensures r == AboveMax <==>
      !Below(v, c.min.value) && c.max.Some? && Above(v, c.max.value.value)
    ensures r == NotStepMultiple <==>
      !Below(v, c.min.value) && !(c.max.Some? && Above(v, c.max.value.value)) &&
      c.step.Some? && !MultipleOf(v, c.step.value.value)
    ensures r == Acceptable <==>
      !Below(v, c.min.value) && !(c.max.Some? && Above(v, c.max.value.value)) &&
      !(c.step.Some? && !MultipleOf(v, c.step.value.value))
  {
    if Below(v, c.min.value) then BelowMin
    else if c.max.Some? && Above(v, c.max.value.value) then AboveMax
    else if c.step.Some? && !MultipleOf(v, c.step.value.value) then NotStepMultiple
    else Acceptable
  }

  /** The message for a verdict: the matching template with its placeholder
      replaced by the bound's text; empty when the value is acceptable. */
  function Message(verdict: Verdict, c: Constraints, strings: Strings): (m: string)
    ensures verdict == Acceptable ==> m == ""
    ensures verdict == BelowMin ==> m == ReplaceFirst(strings.minError, "[min]", c.min.text)
    ensures verdict == AboveMax && c.max.Some? ==>
      m == ReplaceFirst(strings.maxError, "[max]", c.max.value.text)
    ensures verdict == NotStepMultiple && c.step.Some? ==>
      m == ReplaceFirst(strings.stepError, "[step]", c.step.value.text)
  {
    match verdict
    case BelowMin => ReplaceFirst(strings.minError, "[min]", c.min.text)
    case AboveMax => if c.max.Some? then ReplaceFirst(strings.maxError, "[max]", c.max.value.text) else ""
    case NotStepMultiple =>
      if c.step.Some? then ReplaceFirst(strings.stepError, "[step]", c.step.value.text) else ""
    case Acceptable => ""
  }

  /** The validator's decision. The source decides on the truthiness of the
      message, so a rule whose message comes out empty lets the value through. */
  datatype Decision = Reject(message: string) | Accept(quantity: Entered)

  function Decide(v: Entered, c: Constraints, strings: Strings): (d: Decision)
    ensures d.Reject? ==> Classify(v, c) != Acceptable && d.message != ""
    ensures d.Accept? ==> d.quantity == v
    ensures Classify(v, c) == Acceptable ==> d.Accept?
  {
    var m := Message(Classify(v, c), c, strings);
    if m != "" then Reject(m) else Accept(v)
  }

  /** A bound text that `parseInt` reads as an integer is not empty and
      does not start with `$`. */
  predicate Numeric(b: Bound)
  {
    b.text != "" && b.text[0] != '$'
  }

  /** Templates that are not empty, with bound texts that read as numbers:
      every broken constraint rejects the value. */
  predicate WellFormed(c: Constraints, strings: Strings)
  {
    strings.minError != "" && strings.maxError != "" && strings.stepError != "" &&
    Numeric(c.min) &&
    (c.max.Some? ==> Numeric(c.max.value)) &&
    (c.step.Some? ==> Numeric(c.step.value))
  }

  /** With well-formed templates the decision is exactly the classification:
      rejected if and only if some constraint is broken. */
  lemma DecideMatchesClassify(v: Entered, c: Constraints, strings: Strings)
    requires WellFormed(c, strings)
    ensures Decide(v, c, strings).Reject? <==> Classify(v, c) != Acceptable
    ensures Decide(v, c, strings).Reject? ==>
      Decide(v, c, strings).message == Message(Classify(v, c), c, strings)
  {
  }

  /** Below the minimum the minimum's message is chosen, whatever the
      maximum and step are. */
  lemma MinWins(n: int, c: Constraints, strings: Strings)
    requires n < c.min.value
    ensures Message(Classify(Number(n), c), c, strings) ==
      ReplaceFirst(strings.minError, "[min]", c.min.text)
  {
  }

  /** Without a declared maximum no value is ever too large. */
  lemma NoMaxNoUpperCheck(v: Entered, c: Constraints)
    requires c.max.None?
    ensures Classify(v, c) != AboveMax
  {
  }

  /** NaN passes the min and max checks; it is rejected by the step check
      when a step is declared and accepted otherwise. */
  lemma NotANumberOutcome(c: Constraints)
    ensures Classify(NotANumber, c) == if c.step.Some? then NotStepMultiple else Acceptable
  {
  }

  /** The scenario min=1, max=10, step=2: 3 breaks the step and is rejected
      with the step template filled in with "2"; 4 is accepted as it is. */
  lemma StepScenario(strings: Strings)
    requires strings.stepError != ""
    ensures var c := Constraints(Bound("1", 1), Some(Bound("10", 10)), Some(Bound("2", 2)));
      Decide(Number(3), c, strings) == Reject(ReplaceFirst(strings.stepError, "[step]", "2")) &&
      Decide(Number(4), c, strings) == Accept(Number(4))
  {
  }
}
