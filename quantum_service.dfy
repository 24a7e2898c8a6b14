/**
 * The quantum random number service: choosing the bit width, building the
 * request, rescaling raw entropy into [min, max], falling back to local
 * pseudo-random values on any failure, and the availability probe.
 *
 * The network is a parameter `fetch` that maps the requested URL to what
 * came back; `Math.random` is a sequence of draws in [0, 1).
 */
module QuantumService {
  import opened Wrappers
  import opened Decimal
  import opened Arithmetic

  const QuantumApiUrl: string := "https://qrng.anu.edu.au/API/jsonI.php"

  /** The bit width never drops below this, whatever the range. */
  const MinBitWidth: nat := 32

  /** The probe asks for one 8-bit value and nothing else. */
  const ProbeUrl: string := QuantumApiUrl + "?length=1&type=uint8"

  /**
   * The `success` member of the parsed body. `Bool` is a JSON boolean;
   * `Other` is anything else (missing, a number, a string, ...) together
   * with its JavaScript truthiness.
   */
  datatype SuccessField = Bool(b: bool) | Other(truthy: bool)

  /**
   * What `response.json()` yields. `Unparseable` covers a body that throws
   * while parsing and one that parses to `null` (reading `.success` of it
   * throws). `data` is `None` when the member is not an array, so that
   * `data.map` throws.
   */
  datatype Body = Unparseable | Object(success: SuccessField, data: Option<seq<nat>>)

  /** What `fetch` yields: it throws, or gives a status flag and a body. */
  datatype FetchOutcome = NetworkError | Response(ok: bool, body: Body)

  /** Which of the two branches produced the numbers. */
  datatype Generation = Quantum(values: seq<int>) | Fallback(values: seq<int>)

  predicate Truthy(f: SuccessField) {
    match f
    case Bool(b) => b
    case Other(t) => t
  }

  function Pow2(k: nat): (p: nat)
    ensures p >= 1
  {
    if k == 0 then 1 else 2 * Pow2(k - 1)
  }

  lemma {:induction false} Pow2StrictlyIncreasing(i: nat, j: nat)
    requires i < j
    ensures Pow2(i) < Pow2(j)
    decreases j
  {
    if i < j - 1 {
      Pow2StrictlyIncreasing(i, j - 1);
    }
  }

  /** Powers of two determine their exponents' order. */
  lemma Pow2Below(a: nat, b: nat)
    requires Pow2(a) < Pow2(b)
    ensures a < b
  {
    if a >= b {
      if b < a {
        Pow2StrictlyIncreasing(b, a);
      }
      assert false;
    }
  }

  lemma Pow2AtMost(a: nat, b: nat)
    requires Pow2(a) <= Pow2(b)
    ensures a <= b
  {
    if a > b {
      Pow2StrictlyIncreasing(b, a);
      assert false;
    }
  }

  /** ceil(log2 r): the smallest k with 2^k >= r (0 when r <= 1). */
  function CeilLog2(r: int): (k: nat)
    ensures Pow2(k) >= r
    ensures k > 0 ==> Pow2(k - 1) < r
    decreases r
  {
    if r <= 1 then 0 else 1 + CeilLog2((r + 1) / 2)
  }

  /** No smaller exponent than CeilLog2(r) reaches r. */
  lemma CeilLog2Least(r: int, j: nat)
    requires Pow2(j) >= r
    ensures CeilLog2(r) <= j
  {
    var k := CeilLog2(r);
    if k > 0 {
      Pow2Below(k - 1, j);
    }
  }

  /**
   * max(32, ceil(log2 range)). A range of 0 gives 32 as in the source,
   * where log2(0) is minus infinity.
   */
  function BitWidth(range: int): (w: nat)
    requires range >= 0
    ensures w >= MinBitWidth
    ensures range <= Pow2(MinBitWidth) ==> w == MinBitWidth
    ensures range > Pow2(MinBitWidth) ==> Pow2(w) >= range && Pow2(w - 1) < range
  {
    var k := CeilLog2(range);
    assert range <= Pow2(MinBitWidth) ==> k <= MinBitWidth by {
      if range <= Pow2(MinBitWidth) {
        CeilLog2Least(range, MinBitWidth);
      }
    }
    assert range > Pow2(MinBitWidth) ==> k >= MinBitWidth by {
      if range > Pow2(MinBitWidth) {
        Pow2Below(MinBitWidth, k);
      }
    }
    if k < MinBitWidth then MinBitWidth else k
  }

  lemma {:induction false} Pow2Add(a: nat, b: nat)
    ensures Pow2(a + b) == Pow2(a) * Pow2(b)
    decreases a
  {
    if a > 0 {
      Pow2Add(a - 1, b);
    }
  }

  lemma Pow2Of32()
    ensures Pow2(32) == 4294967296
  {
    assert Pow2(8) == 256;
    Pow2Add(8, 8);
    Pow2Add(16, 16);
  }

  lemma {:induction false} CeilLog2OfPower(k: nat)
    ensures CeilLog2(Pow2(k)) == k
  {
    var c := CeilLog2(Pow2(k));
    Pow2AtMost(k, c);
    if c > 0 {
      Pow2Below(c - 1, k);
    }
  }

  /** A power of two from 2^32 upwards needs exactly its exponent. */
  lemma BitWidthOfPower(k: nat)
    requires k >= MinBitWidth
    ensures BitWidth(Pow2(k)) == k
  {
    CeilLog2OfPower(k);
  }

  lemma BitWidthExamples()
    ensures BitWidth(2) == 32
    ensures BitWidth(Pow2(40)) == 40
  {
    Pow2StrictlyIncreasing(1, MinBitWidth);
    BitWidthOfPower(40);
  }

  /** The query of a generation request: `?length=<count>&type=uint<size>&size=<size>`. */
  function Query(count: nat, size: nat): string
  {
    "?length=" + (NatToString(count) + ("&type=uint" + (NatToString(size) + ("&size=" + NatToString(size)))))
  }

  function RequestUrl(count: nat, size: nat): string
  {
    QuantumApiUrl + Query(count, size)
  }

  lemma PrefixCancels(p: string, x: string, y: string)
    requires p + x == p + y
    ensures x == y
  {
    assert x == (p + x)[|p|..];
    assert y == (p + y)[|p|..];
  }

  /** The request URL carries count and size unambiguously. */
  lemma RequestUrlDetermines(count1: nat, size1: nat, count2: nat, size2: nat)
    requires RequestUrl(count1, size1) == RequestUrl(count2, size2)
    ensures count1 == count2 && size1 == size2
  {
    var c1, c2 := NatToString(count1), NatToString(count2);
    var s1, s2 := NatToString(size1), NatToString(size2);
    var sizeTail1, sizeTail2 := "&size=" + s1, "&size=" + s2;
    var typeTail1, typeTail2 := "&type=uint" + (s1 + sizeTail1), "&type=uint" + (s2 + sizeTail2);
    PrefixCancels(QuantumApiUrl, Query(count1, size1), Query(count2, size2));
    PrefixCancels("?length=", c1 + typeTail1, c2 + typeTail2);
    DigitRunsSplitEqually(c1, typeTail1, c2, typeTail2);
    NatToStringInjective(count1, count2);
    PrefixCancels("&type=uint", s1 + sizeTail1, s2 + sizeTail2);
    DigitRunsSplitEqually(s1, sizeTail1, s2, sizeTail2);
    NatToStringInjective(size1, size2);
  }

  /** The probe URL is the generation URL for one 8-bit value without `&size=8`. */
  lemma ProbeUrlLacksSize()
    ensures ProbeUrl + "&size=8" == RequestUrl(1, 8)
  {
  }

  /**
   * The source's rescale, exactly: min + floor(v / (2^size - 1) * range)
   * with range = max - min + 1. Dafny's division by a positive divisor
   * is the floor.
   */
  function Rescale(min: int, max: int, size: nat, v: nat): int
    requires size >= 1
  {
    Pow2StrictlyIncreasing(0, size);
    min + (v * (max - min + 1)) / (Pow2(size) - 1)
  }

  /** Below the top raw value, the rescale lands in [min, max]. */
  lemma RescaleInRange(min: int, max: int, size: nat, v: nat)
    requires min <= max && size >= 1
    requires v < Pow2(size) - 1
    ensures min <= Rescale(min, max, size, v) <= max
  {
    Pow2StrictlyIncreasing(0, size);
    ScaleBelow(v, max - min + 1, Pow2(size) - 1);
  }

  lemma RescaleAtZero(min: int, max: int, size: nat)
    requires size >= 1
    ensures Rescale(min, max, size, 0) == min
  {
  }

  lemma RescaleMonotone(min: int, max: int, size: nat, v1: nat, v2: nat)
    requires min <= max && size >= 1 && v1 <= v2
    ensures Rescale(min, max, size, v1) <= Rescale(min, max, size, v2)
  {
    Pow2StrictlyIncreasing(0, size);
    var range := max - min + 1;
    MulLe(v1, v2, range);
    DivMonotone(v1 * range, v2 * range, Pow2(size) - 1);
  }

  /**
   * The top raw value 2^size - 1 maps to max + 1, one past the inclusive
   * maximum; this holds for min == max as well.
   */
  lemma RescaleOvershoot(min: int, max: int, size: nat)
    requires min <= max && size >= 1
    ensures Rescale(min, max, size, Pow2(size) - 1) == max + 1
  {
    Pow2StrictlyIncreasing(0, size);
    var range, d := max - min + 1, Pow2(size) - 1;
    DivExact(range, d);
    assert d * range == range * d;
  }

  /**
   * The evidently intended rescale, dividing by 2^size rather than by
   * 2^size - 1, so that every raw value of `size` bits stays in range.
   */
  function RescaleIntended(min: int, max: int, size: nat, v: nat): int
  {
    min + (v * (max - min + 1)) / Pow2(size)
  }

  /**
   * The corrected rescale keeps every raw value of `size` bits in
   * [min, max], maps 0 to min and, whenever the bit width covers the range
   * (as BitWidth guarantees), maps the top raw value to max itself.
   */
  lemma RescaleIntendedInRange(min: int, max: int, size: nat, v: nat)
    requires min <= max
    requires v < Pow2(size)
    ensures min <= RescaleIntended(min, max, size, v) <= max
    ensures v == 0 ==> RescaleIntended(min, max, size, v) == min
    ensures max - min + 1 <= Pow2(size) ==> RescaleIntended(min, max, size, Pow2(size) - 1) == max
  {
    var range, p := max - min + 1, Pow2(size);
    ScaleBelow(v, range, p);
    if range <= p {
      ScaleTop(range, p);
    }
  }

  /** One fallback value: Math.floor(Math.random() * (max - min + 1) + min). */
  function FallbackValue(min: int, max: int, r: real): (v: int)
    requires min <= max && 0.0 <= r < 1.0
    ensures min <= v <= max
    ensures min == max ==> v == min
  {
    var range := (max - min + 1) as real;
    assert 0.0 <= r * range < range by {
      assert (1.0 - r) * range > 0.0;
    }
    (r * range + min as real).Floor
  }

  predicate ValidDraws(draws: seq<real>) {
    forall i :: 0 <= i < |draws| ==> 0.0 <= draws[i] < 1.0
  }

  /** Array.from({ length: count }, ...) over the draws of Math.random. */
  function FallbackNumbers(min: int, max: int, draws: seq<real>): (values: seq<int>)
    requires min <= max && ValidDraws(draws)
    ensures |values| == |draws|
    ensures forall i :: 0 <= i < |values| ==> min <= values[i] <= max
    ensures min == max ==> forall i :: 0 <= i < |values| ==> values[i] == min
  {
    seq(|draws|, i requires 0 <= i < |draws| => FallbackValue(min, max, draws[i]))
  }

  /** data.map(rescale) on the success path. */
  function RescaleAll(min: int, max: int, size: nat, data: seq<nat>): (values: seq<int>)
    requires size >= 1
    ensures |values| == |data|
  {
    seq(|data|, i requires 0 <= i < |data| => Rescale(min, max, size, data[i]))
  }

  /** The raw values of a response the quantum branch accepts, if it does. */
  function AcceptedData(response: FetchOutcome): Option<seq<nat>>
  {
    match response
    case NetworkError => None
    case Response(ok, body) =>
      if !ok then None
      else match body
        case Unparseable => None
        case Object(success, data) => if Truthy(success) then data else None
  }

  /**
   * generateQuantumRandomNumbers. `draws` stands for the `count` calls of
   * Math.random the fallback makes.
   */
  function GenerateQuantumRandomNumbers(
    min: int, max: int, count: nat, fetch: string -> FetchOutcome, draws: seq<real>): (g: Generation)
    requires min <= max
    requires |draws| == count && ValidDraws(draws)
    ensures g.Fallback? ==> |g.values| == count
    ensures g.Fallback? ==> forall i :: 0 <= i < |g.values| ==> min <= g.values[i] <= max
  {
    var size := BitWidth(max - min + 1);
    match AcceptedData(fetch(RequestUrl(count, size)))
    case Some(data) => Quantum(RescaleAll(min, max, size, data))
    case None => Fallback(FallbackNumbers(min, max, draws))
  }

  /**
   * A thrown transport error, a non-OK status, an unparseable body, a falsy
   * `success` or a non-array `data` all yield the fallback: `count` values
   * in [min, max].
   */
  lemma FailureYieldsFallback(
    min: int, max: int, count: nat, fetch: string -> FetchOutcome, draws: seq<real>)
    requires min <= max && |draws| == count && ValidDraws(draws)
    requires var response := fetch(RequestUrl(count, BitWidth(max - min + 1)));
      || response.NetworkError?
      || !response.ok
      || response.body.Unparseable?
      || !Truthy(response.body.success)
      || response.body.data.None?
    ensures var g := GenerateQuantumRandomNumbers(min, max, count, fetch, draws);
      && g.Fallback?
      && |g.values| == count
      && forall i :: 0 <= i < count ==> min <= g.values[i] <= max
  {
  }

  /**
   * An OK response whose `success` is truthy and whose `data` is an array
   * yields the rescale of each raw value, as many values as `data` holds
   * (not checked against `count`).
   */
  lemma SuccessYieldsRescaledData(
    min: int, max: int, count: nat, fetch: string -> FetchOutcome, draws: seq<real>, data: seq<nat>)
    requires min <= max && |draws| == count && ValidDraws(draws)
    requires var size := BitWidth(max - min + 1);
      var response := fetch(RequestUrl(count, size));
      response.Response? && response.ok && response.body.Object?
      && Truthy(response.body.success) && response.body.data == Some(data)
    ensures var g := GenerateQuantumRandomNumbers(min, max, count, fetch, draws);
      var size := BitWidth(max - min + 1);
      && g.Quantum?
      && |g.values| == |data|
      && forall i :: 0 <= i < |data| ==> g.values[i] == Rescale(min, max, size, data[i])
  {
  }

  /**
   * Every generated value lies in [min, max] unless the service returned
   * the top raw value 2^size - 1.
   */
  lemma GeneratedInRange(
    min: int, max: int, count: nat, fetch: string -> FetchOutcome, draws: seq<real>)
    requires min <= max && |draws| == count && ValidDraws(draws)
    requires var size := BitWidth(max - min + 1);
      var accepted := AcceptedData(fetch(RequestUrl(count, size)));
      accepted.Some? ==> forall i :: 0 <= i < |accepted.value| ==> accepted.value[i] < Pow2(size) - 1
    ensures var g := GenerateQuantumRandomNumbers(min, max, count, fetch, draws);
      forall i :: 0 <= i < |g.values| ==> min <= g.values[i] <= max
  {
    var size := BitWidth(max - min + 1);
    var g := GenerateQuantumRandomNumbers(min, max, count, fetch, draws);
    if g.Quantum? {
      var data := AcceptedData(fetch(RequestUrl(count, size))).value;
      forall i | 0 <= i < |g.values|
        ensures min <= g.values[i] <= max
      {
        RescaleInRange(min, max, size, data[i]);
      }
    }
  }

  /**
   * A service answering with the top raw value pushes the quantum result
   * to max + 1, so the inclusive-max promise fails on that path.
   */
  lemma TopRawValueEscapesRange(min: int, max: int, draws: seq<real>)
    requires min <= max && |draws| == 1 && ValidDraws(draws)
    ensures var size := BitWidth(max - min + 1);
      var top := Pow2(size) - 1;
      var fetch := (url: string) => Response(true, Object(Bool(true), Some([top])));
      GenerateQuantumRandomNumbers(min, max, 1, fetch, draws) == Quantum([max + 1])
  {
    var size := BitWidth(max - min + 1);
    RescaleOvershoot(min, max, size);
  }

  /**
   * min = 1, max = 10 with the raw values
   * [0, 429496729, 4294967295, 1000000000, 2147483647].
   */
  lemma WorkedExample(draws: seq<real>)
    requires |draws| == 5 && ValidDraws(draws)
    ensures var fetch := (url: string) =>
        Response(true, Object(Bool(true), Some([0, 429496729, 4294967295, 1000000000, 2147483647])));
      GenerateQuantumRandomNumbers(1, 10, 5, fetch, draws) == Quantum([1, 1, 11, 3, 5])
  {
    Pow2Of32();
    assert BitWidth(10) == 32 by {
      Pow2StrictlyIncreasing(4, MinBitWidth);
    }
  }

  /** checkQuantumApiAvailability: `result.success === true`, status ignored. */
  function CheckQuantumApiAvailability(fetch: string -> FetchOutcome): (available: bool)
    ensures available <==>
      (fetch(ProbeUrl).Response? && fetch(ProbeUrl).body.Object?
       && fetch(ProbeUrl).body.success == Bool(true))
  {
    match fetch(ProbeUrl)
    case NetworkError => false
    case Response(_, body) =>
      match body
      case Unparseable => false
      case Object(success, _) => success == Bool(true)
  }

  /**
   * The probe and generation disagree: the probe ignores a failing HTTP
   * status that makes generation fall back, and generation accepts a
   * truthy non-boolean `success` that the probe rejects.
   */
  lemma ProbeAndGenerationDisagree(draws: seq<real>)
    requires |draws| == 1 && ValidDraws(draws)
    ensures var fetch := (url: string) => Response(false, Object(Bool(true), Some([0])));
      CheckQuantumApiAvailability(fetch)
      && GenerateQuantumRandomNumbers(1, 100, 1, fetch, draws).Fallback?
    ensures var fetch := (url: string) => Response(true, Object(Other(true), Some([0])));
      !CheckQuantumApiAvailability(fetch)
      && GenerateQuantumRandomNumbers(1, 100, 1, fetch, draws) == Quantum([1])
  {
  }
}
