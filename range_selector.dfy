/**
 * The range selector: four handlers (typed minimum, typed maximum, minimum
 * slider, maximum slider) that each pass a candidate value to the parent's
 * setter only when it keeps the minimum strictly below the maximum.
 */
module RangeSelector {
  import opened Wrappers
  import opened Decimal

  /** Bounds of the two sliders that do not depend on the other value. */
  const MinSliderLow: int := 0
  const MaxSliderHigh: int := 999999

  /**
   * `parseInt` on the text of a number input, for decimal text: an optional
   * sign followed by the longest run of digits; no digits at all is NaN.
   */
  function ParseInt(text: string): Option<int>
  {
    var negative := |text| > 0 && text[0] == '-';
    var unsigned := if |text| > 0 && (text[0] == '-' || text[0] == '+') then text[1..] else text;
    var digits := DigitPrefix(unsigned);
    if digits == [] then None
    else if negative then Some(0 - DigitsValue(digits) as int)
    else Some(DigitsValue(digits))
  }

  /** `parseInt(text) || 0`: NaN (and 0 itself) become 0. */
  function ParseIntOrZero(text: string): (n: int)
    ensures ParseInt(text).None? ==> n == 0
    ensures ParseInt(text).Some? ==> n == ParseInt(text).value
  {
    match ParseInt(text)
    case None => 0
    case Some(n) => n
  }

  /** Typed decimal text of a whole number reads back as that number. */
  lemma ParseIntOfDecimal(n: nat)
    ensures ParseInt(NatToString(n)) == Some(n)
    ensures ParseInt("-" + NatToString(n)) == Some(0 - n as int)
  {
    var s := NatToString(n);
    assert DigitPrefix(s) == s;
    assert ("-" + s)[1..] == s;
    DigitsValueOfNatToString(n);
  }

  /** Text without digits, such as an emptied input, is the candidate 0. */
  lemma UnparsableTextIsZero(text: string)
    requires forall i :: 0 <= i < |text| ==> !IsDigit(text[i])
    ensures ParseIntOrZero(text) == 0
  {
  }

  /** The parent-owned pair (minValue, maxValue). */
  datatype Bounds = Bounds(minValue: int, maxValue: int)

  predicate Ordered(b: Bounds) {
    b.minValue < b.maxValue
  }

  /** One user action on the selector. */
  datatype Edit =
    | MinInput(text: string)
    | MaxInput(text: string)
    | MinSlider(value: int)
    | MaxSlider(value: int)

  predicate EditsMin(e: Edit) {
    e.MinInput? || e.MinSlider?
  }

  /** The candidate value a handler computes before its guard. */
  function Candidate(e: Edit): int
  {
    match e
    case MinInput(text) => ParseIntOrZero(text)
    case MaxInput(text) => ParseIntOrZero(text)
    case MinSlider(value) => value
    case MaxSlider(value) => value
  }

  /** Whether the handler's guard lets the candidate through. */
  predicate Accepted(b: Bounds, e: Edit) {
    if EditsMin(e) then Candidate(e) < b.maxValue else Candidate(e) > b.minValue
  }

  /** The bounds after one handler has run. */
  function Apply(b: Bounds, e: Edit): Bounds
  {
    if !Accepted(b, e) then b
    else if EditsMin(e) then b.(minValue := Candidate(e))
    else b.(maxValue := Candidate(e))
  }

  /**
   * A minimum edit sets minValue to the candidate iff it is below maxValue
   * and otherwise changes nothing; maxValue is never touched.
   */
  lemma MinEditAppliedIff(b: Bounds, e: Edit)
    requires EditsMin(e)
    ensures Candidate(e) < b.maxValue ==> Apply(b, e) == Bounds(Candidate(e), b.maxValue)
    ensures Candidate(e) >= b.maxValue ==> Apply(b, e) == b
  {
  }

  /**
   * A maximum edit sets maxValue to the candidate iff it is above minValue
   * and otherwise changes nothing; minValue is never touched.
   */
  lemma MaxEditAppliedIff(b: Bounds, e: Edit)
    requires !EditsMin(e)
    ensures Candidate(e) > b.minValue ==> Apply(b, e) == Bounds(b.minValue, Candidate(e))
    ensures Candidate(e) <= b.minValue ==> Apply(b, e) == b
  {
  }

  /** Every edit keeps minValue strictly below maxValue. */
  lemma ApplyKeepsOrdered(b: Bounds, e: Edit)
    requires Ordered(b)
    ensures Ordered(Apply(b, e))
  {
  }

  function ApplyAll(b: Bounds, edits: seq<Edit>): Bounds
    decreases |edits|
  {
    if edits == [] then b else ApplyAll(Apply(b, edits[0]), edits[1..])
  }

  /** Any sequence of edits from an ordered start stays ordered. */
  lemma {:induction false} ApplyAllKeepsOrdered(b: Bounds, edits: seq<Edit>)
    requires Ordered(b)
    ensures Ordered(ApplyAll(b, edits))
    decreases |edits|
  {
    if edits != [] {
      ApplyKeepsOrdered(b, edits[0]);
      ApplyAllKeepsOrdered(Apply(b, edits[0]), edits[1..]);
    }
  }

  /** From the initial state (1, 100) every reachable state is ordered. */
  lemma ReachableFromInitialAreOrdered(edits: seq<Edit>)
    ensures Ordered(ApplyAll(Bounds(1, 100), edits))
  {
    ApplyAllKeepsOrdered(Bounds(1, 100), edits);
  }

  /**
   * The minimum slider spans [0, maxValue - 1] and the maximum slider
   * [minValue + 1, 999999]; a slider value inside its span always passes.
   */
  lemma SliderSpanAlwaysAccepted(b: Bounds, v: int)
    ensures MinSliderLow <= v <= b.maxValue - 1 ==> Apply(b, MinSlider(v)) == b.(minValue := v)
    ensures b.minValue + 1 <= v <= MaxSliderHigh ==> Apply(b, MaxSlider(v)) == b.(maxValue := v)
  {
  }

  /**
   * Typed values are bounded only by the relative guard, not by the slider
   * spans: a typed negative minimum below 0, or a typed maximum above
   * 999999, goes through whenever the guard allows it.
   */
  lemma TypedInputIgnoresSliderSpan(b: Bounds, n: nat)
    ensures 0 - n as int < b.maxValue ==> Apply(b, MinInput("-" + NatToString(n))).minValue == 0 - n as int
    ensures n > b.minValue ==> Apply(b, MaxInput(NatToString(n))).maxValue == n
  {
    ParseIntOfDecimal(n);
  }

  /**
   * The parent's minValue and maxValue as seen by the selector. Each handler
   * runs its guard against the current values and calls the setter.
   */
  class RangeState {
    var minValue: int
    var maxValue: int

    function Current(): Bounds
      reads this
    {
      Bounds(minValue, maxValue)
    }

    constructor (min: int, max: int)
      ensures Current() == Bounds(min, max)
    {
      minValue := min;
      maxValue := max;
    }

    /** handleMinInputChange */
    method HandleMinInputChange(text: string)
      modifies this
      ensures Current() == Apply(old(Current()), MinInput(text))
      ensures old(Ordered(Current())) ==> Ordered(Current())
    {
      var newValue := ParseIntOrZero(text);
      if newValue < maxValue {
        minValue := newValue;
      }
    }

    /** handleMaxInputChange */
    method HandleMaxInputChange(text: string)
      modifies this
      ensures Current() == Apply(old(Current()), MaxInput(text))
      ensures old(Ordered(Current())) ==> Ordered(Current())
    {
      var newValue := ParseIntOrZero(text);
      if newValue > minValue {
        maxValue := newValue;
      }
    }

    /** handleMinSliderChange, given values[0] */
    method HandleMinSliderChange(value: int)
      modifies this
      ensures Current() == Apply(old(Current()), MinSlider(value))
      ensures old(Ordered(Current())) ==> Ordered(Current())
    {
      if value < maxValue {
        minValue := value;
      }
    }

    /** handleMaxSliderChange, given values[0] */
    method HandleMaxSliderChange(value: int)
      modifies this
      ensures Current() == Apply(old(Current()), MaxSlider(value))
      ensures old(Ordered(Current())) ==> Ordered(Current())
    {
      if value > minValue {
        maxValue := value;
      }
    }
  }
}
