/**
  The pool finder page (src/pages/PoolFinder/index.tsx): two currency pickers, the state of
  the pair they name, and which result card is shown. Reserves and balances are the
  big integers of the SDK, here `int`. `usePair`, `useTokenBalance` and `currencyId` are
  inputs: the pair state and pair, the position balance, and each currency's id.
 */
module PoolFinder {
  import opened Options

  /** The states `usePair` reports. */
  datatype PairState = Loading | NotExists | Exists | Invalid

  /** What the page reads of a pair: its raw reserves. */
  datatype Pair = Pair(reserve0: int, reserve1: int)

  /** A selectable currency, through the id `currencyId` gives it. */
  datatype Currency = Currency(id: string)

  /** Which picker the search modal serves (lines 27-30). */
  datatype Field = Token0 | Token1

  /** Lines 56-63: no pair contract, or one with both reserves zero. */
  predicate ValidPairNoLiquidity(state: PairState, pair: Option<Pair>)
  {
    state == NotExists || (state == Exists && pair.Some? && pair.value.reserve0 == 0 && pair.value.reserve1 == 0)
  }

  /** Lines 65-66: a balance is known and positive. */
  predicate HasPosition(position: Option<int>)
  {
    position.Some? && position.value > 0
  }

  /** The result card under the pickers (lines 160-201). */
  datatype ResultView =
    | PrerequisiteMessage
    | PositionCard(pair: Pair)
    | AddLiquidity(link: string)
    | CreatePool(link: string)
    | InvalidPair
    | LoadingPair
    | NoResult

  /** The link both prompts carry (lines 168, 178). */
  function AddLink(c0: Currency, c1: Currency): string
  {
    "/add/" + c0.id + "/" + c1.id
  }

  /**
    Lines 160-201: with a currency missing only the prerequisite message; an existing pair
    shows the position card to a holder and the add-liquidity prompt otherwise; any other
    state is tried against `validPairNoLiquidity`, invalid and loading, in that order.
   */
  function Result(c0: Option<Currency>, c1: Option<Currency>, state: PairState, pair: Option<Pair>,
                  position: Option<int>): (v: ResultView)
    ensures v.PrerequisiteMessage? <==> c0.None? || c1.None?
    ensures v.PositionCard? <==> c0.Some? && c1.Some? && state == Exists && HasPosition(position) && pair.Some?
    ensures v.PositionCard? ==> Some(v.pair) == pair
    ensures v.AddLiquidity? <==> c0.Some? && c1.Some? && state == Exists && !(HasPosition(position) && pair.Some?)
    ensures v.CreatePool? <==> c0.Some? && c1.Some? && state == NotExists
    ensures v.AddLiquidity? || v.CreatePool? ==> v.link == AddLink(c0.value, c1.value)
    ensures v.InvalidPair? <==> c0.Some? && c1.Some? && state == Invalid
    ensures v.LoadingPair? <==> c0.Some? && c1.Some? && state == Loading
    ensures !v.NoResult?
  {
    if c0.Some? && c1.Some? then
      if state == Exists then
        (if HasPosition(position) && pair.Some? then PositionCard(pair.value) else AddLiquidity(AddLink(c0.value, c1.value)))
      else if ValidPairNoLiquidity(state, pair) then CreatePool(AddLink(c0.value, c1.value))
      else if state == Invalid then InvalidPair
      else if state == Loading then LoadingPair
      else NoResult
    else PrerequisiteMessage
  }

  /**
    The empty-reserves half of `validPairNoLiquidity` never decides the view: an existing
    pair is handled before it is consulted, so "create pool" is offered only for a pair
    that does not exist, and an existing pair without liquidity gets the add-liquidity prompt.
   */
  lemma EmptyReservesNeverCreatePool(c0: Currency, c1: Currency, pair: Pair, position: Option<int>)
    requires pair.reserve0 == 0 && pair.reserve1 == 0
    ensures ValidPairNoLiquidity(Exists, Some(pair))
    ensures !Result(Some(c0), Some(c1), Exists, Some(pair), position).CreatePool?
    ensures !HasPosition(position) ==> Result(Some(c0), Some(c1), Exists, Some(pair), position) == AddLiquidity(AddLink(c0, c1))
  {
  }

  /** Line 147: the "pool found" banner is shown exactly to a holder of the pair's liquidity token. */
  predicate PoolFoundBanner(position: Option<int>)
  {
    HasPosition(position)
  }

  /** A holder of an existing pair sees both the banner and the position card. */
  lemma HolderSeesPosition(c0: Currency, c1: Currency, pair: Pair, position: Option<int>)
    requires HasPosition(position)
    ensures PoolFoundBanner(position)
    ensures Result(Some(c0), Some(c1), Exists, Some(pair), position) == PositionCard(pair)
  {
  }

  class PoolFinderPage {
    var showSearch: bool
    var activeField: Field
    var currency0: Option<Currency>
    var currency1: Option<Currency>
    /** The pairs handed to `addPair`, oldest first. */
    var addedPairs: seq<Pair>

    /** Lines 41-45: the first picker starts on the chain's base currency. */
    constructor(baseCurrency: Option<Currency>)
      ensures !showSearch && activeField == Token1
      ensures currency0 == baseCurrency && currency1 == None && addedPairs == []
    {
      showSearch := false;
      activeField := Token1;
      currency0 := baseCurrency;
      currency1 := None;
      addedPairs := [];
    }

    /** Lines 50-54: a loaded pair is remembered; no pair, nothing. */
    method PairEffect(pair: Option<Pair>)
      modifies this`addedPairs
      ensures addedPairs == old(addedPairs) + (if pair.Some? then [pair.value] else [])
    {
      if pair.Some? {
        addedPairs := addedPairs + [pair.value];
      }
    }

    /** Lines 104-107, 128-131: a picker's click opens the search for its field. */
    method OpenSearch(field: Field)
      modifies this`showSearch, this`activeField
      ensures showSearch && activeField == field
    {
      showSearch := true;
      activeField := field;
    }

    /** Lines 68-77: the chosen currency goes to the active field's picker; the other is unchanged. */
    method SelectCurrency(currency: Currency)
      modifies this`currency0, this`currency1
      ensures activeField == Token0 ==> currency0 == Some(currency) && currency1 == old(currency1)
      ensures activeField == Token1 ==> currency1 == Some(currency) && currency0 == old(currency0)
    {
      if activeField == Token0 {
        currency0 := Some(currency);
      } else {
        currency1 := Some(currency);
      }
    }

    /** Lines 79-81. */
    method DismissSearch()
      modifies this`showSearch
      ensures !showSearch
    {
      showSearch := false;
    }

    /** Line 208: the modal marks the currency of the picker it is not serving. */
    function SelectedCurrency(): (c: Option<Currency>)
      reads this
      ensures activeField == Token0 ==> c == currency1
      ensures activeField == Token1 ==> c == currency0
    {
      if activeField == Token0 then currency1 else currency0
    }
  }

  /**
    Picking the second currency through its picker fills that picker alone; the modal then
    marks the first picker's currency.
   */
  method PickSecond(page: PoolFinderPage, currency: Currency) returns (marked: Option<Currency>)
    modifies page
    ensures page.currency1 == Some(currency) && page.currency0 == old(page.currency0)
    ensures marked == page.currency0 && page.showSearch
  {
    page.OpenSearch(Token1);
    page.SelectCurrency(currency);
    marked := page.SelectedCurrency();
  }
}
