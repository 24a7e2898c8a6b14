/**
 * The number generator screen's state and its handlers: generation into
 * the single or multiple tab, the bounded history of single results,
 * clearing the history, switching tabs and the availability check on mount.
 */
module NumberGenerator {
  import opened Wrappers
  import opened QuantumService
  import opened RangeSelector

  /** The history keeps at most this many entries, newest first. */
  const HistoryLimit: nat := 20

  const SingleTab: string := "single"

  /**
   * What the single-number display holds. `Cleared` is the `null` that
   * generation and tab changes set, which the display shows as '?' with
   * copying disabled; `Shown(None)` is the `undefined` that `numbers[0]`
   * gives for an empty list, which the display does not treat as `null`.
   */
  datatype CurrentNumber = Cleared | Shown(first: Option<int>)

  /** One history entry; `number` is None where the source records `undefined`. */
  datatype HistoryItem = HistoryItem(number: Option<int>, min: int, max: int)

  function Min(a: int, b: int): int {
    if a < b then a else b
  }

  /** `numbers[0]`, which is `undefined` for an empty list. */
  function First(numbers: seq<int>): (r: Option<int>)
    ensures r.Some? <==> |numbers| > 0
    ensures r.Some? ==> r.value == numbers[0]
  {
    if |numbers| == 0 then None else Some(numbers[0])
  }

  /** `[item, ...history].slice(0, 20)` */
  function PushHistory(history: seq<HistoryItem>, item: HistoryItem): (r: seq<HistoryItem>)
    ensures |r| == Min(|history| + 1, HistoryLimit)
    ensures r[0] == item
    ensures forall i :: 1 <= i < |r| ==> r[i] == history[i - 1]
  {
    ([item] + history)[..Min(|history| + 1, HistoryLimit)]
  }

  /** The history after single results `items` arrive, oldest first. */
  function PushAll(history: seq<HistoryItem>, items: seq<HistoryItem>): seq<HistoryItem>
    decreases |items|
  {
    if items == [] then history else PushAll(PushHistory(history, items[0]), items[1..])
  }

  /**
   * After any run of single results the history holds the 20 newest
   * entries, newest first, followed by what survives of the old history.
   */
  lemma {:induction false} PushAllKeepsNewest(history: seq<HistoryItem>, items: seq<HistoryItem>)
    requires |history| <= HistoryLimit
    ensures var r := PushAll(history, items);
      && |r| == Min(|items| + |history|, HistoryLimit)
      && forall i :: 0 <= i < |r| ==>
           r[i] == if i < |items| then items[|items| - 1 - i] else history[i - |items|]
    decreases |items|
  {
    if items != [] {
      var h1 := PushHistory(history, items[0]);
      var rest := items[1..];
      PushAllKeepsNewest(h1, rest);
      var r := PushAll(history, items);
      assert r == PushAll(h1, rest);
      forall i | 0 <= i < |r|
        ensures r[i] == if i < |items| then items[|items| - 1 - i] else history[i - |items|]
      {
        if i < |rest| {
          assert r[i] == rest[|rest| - 1 - i];
        } else {
          assert r[i] == h1[i - |rest|];
        }
      }
    }
  }

  /** The screen's state fields; minValue and maxValue live in `range`. */
  class Generator {
    const range: RangeState
    var quantity: int
    var currentNumber: CurrentNumber
    var currentNumbers: Option<seq<int>>
    var isLoading: bool
    var history: seq<HistoryItem>
    var isQuantumAvailable: Option<bool>
    var activeTab: string

    /**
     * The range stays ordered (the selector's guards keep it so), the
     * quantity stays 1 (nothing ever calls its setter) and the history
     * stays within its bound.
     */
    ghost predicate Valid()
      reads this, range
    {
      Ordered(range.Current()) && quantity == 1 && |history| <= HistoryLimit
    }

    constructor ()
      ensures Valid() && fresh(range)
      ensures range.Current() == Bounds(1, 100) && quantity == 1
      ensures currentNumber == Cleared && currentNumbers == None && !isLoading
      ensures history == [] && isQuantumAvailable == None && activeTab == SingleTab
    {
      range := new RangeState(1, 100);
      quantity := 1;
      currentNumber := Cleared;
      currentNumbers := None;
      isLoading := false;
      history := [];
      isQuantumAvailable := None;
      activeTab := SingleTab;
    }

    /** The mount effect: record what the availability probe answered. */
    method CheckApi(fetch: string -> FetchOutcome)
      modifies this`isQuantumAvailable
      ensures isQuantumAvailable == Some(CheckQuantumApiAvailability(fetch))
    {
      isQuantumAvailable := Some(CheckQuantumApiAvailability(fetch));
    }

    /** The start of handleGenerate: loading, and both results cleared. */
    method BeginGenerate()
      modifies this`isLoading, this`currentNumber, this`currentNumbers
      ensures isLoading && currentNumber == Cleared && currentNumbers == None
    {
      isLoading := true;
      currentNumber := Cleared;
      currentNumbers := None;
    }

    /**
     * The rest of handleGenerate once the numbers are in: the single tab
     * shows the first number and records it in the history, any other tab
     * shows the whole list; loading ends either way.
     */
    method FinishGenerate(numbers: seq<int>)
      requires |history| <= HistoryLimit
      modifies this`isLoading, this`currentNumber, this`currentNumbers, this`history
      ensures !isLoading && |history| <= HistoryLimit
      ensures activeTab == SingleTab ==>
        && currentNumber == Shown(First(numbers))
        && currentNumbers == old(currentNumbers)
        && history == PushHistory(old(history), HistoryItem(First(numbers), range.minValue, range.maxValue))
      ensures activeTab != SingleTab ==>
        && currentNumbers == Some(numbers)
        && currentNumber == old(currentNumber)
        && history == old(history)
    {
      if activeTab == SingleTab {
        currentNumber := Shown(First(numbers));
        var item := HistoryItem(First(numbers), range.minValue, range.maxValue);
        history := PushHistory(history, item);
      } else {
        currentNumbers := Some(numbers);
      }
      isLoading := false;
    }

    /**
     * handleGenerate: one generation with the current range and quantity.
     * `fetch` and `draws` stand for the network and Math.random.
     */
    method HandleGenerate(fetch: string -> FetchOutcome, draws: seq<real>)
      requires Valid()
      requires |draws| == quantity && ValidDraws(draws)
      modifies this`isLoading, this`currentNumber, this`currentNumbers, this`history
      ensures Valid() && !isLoading
      ensures var numbers := GenerateQuantumRandomNumbers(range.minValue, range.maxValue, quantity, fetch, draws).values;
        if activeTab == SingleTab then
          && currentNumber == Shown(First(numbers))
          && currentNumbers == None
          && history == PushHistory(old(history), HistoryItem(First(numbers), range.minValue, range.maxValue))
        else
          && currentNumber == Cleared
          && currentNumbers == Some(numbers)
          && history == old(history)
    {
      BeginGenerate();
      var numbers := GenerateQuantumRandomNumbers(range.minValue, range.maxValue, quantity, fetch, draws).values;
      FinishGenerate(numbers);
    }

    /** handleClearHistory */
    method HandleClearHistory()
      modifies this`history
      ensures history == []
    {
      history := [];
    }

    /** handleTabChange */
    method HandleTabChange(value: string)
      modifies this`activeTab, this`currentNumber, this`currentNumbers
      ensures activeTab == value && currentNumber == Cleared && currentNumbers == None
    {
      activeTab := value;
      currentNumber := Cleared;
      currentNumbers := None;
    }
  }
}
