/**
  The amount-and-currency input of the swap and liquidity forms
  (src/components/CurrencyInputPanel/index.tsx): how the selected currency's symbol is
  shortened, what the selector button and the balance label show, and when the search
  modal may open. The balance, already formatted by `toSignificant`, is an input.
 */
module CurrencyInputPanel {
  import opened Options

  /** What the panel reads of a currency: its symbol, which may be absent. */
  datatype CurrencyInfo = CurrencyInfo(symbol: Option<string>)

  /** The longest symbol shown in full (line 182). */
  const MAX_SYMBOL_LENGTH: nat := 20

  /** A long symbol keeps its first four and its last five characters around an ellipsis (line 183). */
  function Abbreviated(s: string): (r: string)
    requires |s| > MAX_SYMBOL_LENGTH
    ensures |r| == 12
    ensures r[..4] == s[..4] && r[4..7] == "..." && r[7..] == s[|s| - 5..]
  {
    s[..4] + "..." + s[|s| - 5..]
  }

  /** Lines 181-184: `undefined` without a currency, the symbol itself up to 20 characters, else abbreviated. */
  function SelectedSymbol(currency: Option<CurrencyInfo>): (r: Option<string>)
    ensures currency.None? ==> r.None?
    ensures currency.Some? && currency.value.symbol.Some? && |currency.value.symbol.value| > MAX_SYMBOL_LENGTH ==>
              r == Some(Abbreviated(currency.value.symbol.value))
    ensures currency.Some? && (currency.value.symbol.None? || |currency.value.symbol.value| <= MAX_SYMBOL_LENGTH) ==>
              r == currency.value.symbol
  {
    if currency.Some? && currency.value.symbol.Some? && currency.value.symbol.value != ""
       && |currency.value.symbol.value| > MAX_SYMBOL_LENGTH
    then Some(Abbreviated(currency.value.symbol.value))
    else if currency.Some? then currency.value.symbol
    else None
  }

  /** Every shown symbol fits in 20 characters, and shortening a shown symbol changes nothing. */
  lemma SelectedSymbolStable(currency: CurrencyInfo)
    ensures SelectedSymbol(Some(currency)).Some? ==> |SelectedSymbol(Some(currency)).value| <= MAX_SYMBOL_LENGTH
    ensures SelectedSymbol(Some(CurrencyInfo(SelectedSymbol(Some(currency))))) == SelectedSymbol(Some(currency))
  {
  }

  /** Two long symbols show the same text exactly when they agree on the kept characters. */
  lemma AbbreviatedCollides(s: string, t: string)
    requires |s| > MAX_SYMBOL_LENGTH && |t| > MAX_SYMBOL_LENGTH
    ensures Abbreviated(s) == Abbreviated(t) <==> s[..4] == t[..4] && s[|s| - 5..] == t[|t| - 5..]
  {
    if Abbreviated(s) == Abbreviated(t) {
      assert Abbreviated(s)[..4] == Abbreviated(t)[..4];
      assert Abbreviated(s)[7..] == Abbreviated(t)[7..];
    }
  }

  /** The text of the selector button (lines 205-218). */
  datatype SelectorLabel = PairName(symbol0: Option<string>, symbol1: Option<string>) | Symbol(text: string) | SelectTokenPrompt

  /** What the panel reads of a liquidity pair: its two tokens' symbols. */
  datatype PairInfo = PairInfo(symbol0: Option<string>, symbol1: Option<string>)

  /** Lines 210-218: a pair names both tokens; otherwise a non-empty symbol, else the prompt. */
  function Selector(pair: Option<PairInfo>, currency: Option<CurrencyInfo>): (l: SelectorLabel)
    ensures pair.Some? <==> l.PairName?
    ensures l.SelectTokenPrompt? <==> pair.None? && (SelectedSymbol(currency).None? || SelectedSymbol(currency).value == "")
    ensures l.Symbol? ==> Some(l.text) == SelectedSymbol(currency) && l.text != ""
  {
    if pair.Some? then PairName(pair.value.symbol0, pair.value.symbol1)
    else
      var symbol := SelectedSymbol(currency);
      if symbol.Some? && symbol.value != "" then Symbol(symbol.value) else SelectTokenPrompt
  }

  /**
    Lines 223-239: the label row exists only for a visible input and a connected account;
    it names the balance, after the custom prefix or "Balance: ", when balances are not
    hidden, a currency is chosen and its balance is known, and is empty otherwise.
   */
  function BalanceLabel(hideInput: bool, hasAccount: bool, hideBalance: bool, currency: Option<CurrencyInfo>,
                        balance: Option<string>, customBalanceText: Option<string>): (shown: Option<string>)
    ensures shown.Some? <==> !hideInput && hasAccount
    ensures shown.Some? && shown.value != "" ==> !hideBalance && currency.Some? && balance.Some?
    ensures !hideInput && hasAccount && !hideBalance && currency.Some? && balance.Some? ==>
              shown == Some((if customBalanceText.Some? then customBalanceText.value else "Balance: ") + balance.value)
  {
    if hideInput || !hasAccount then None
    else if !hideBalance && currency.Some? && balance.Some? then
      Some((if customBalanceText.Some? then customBalanceText.value else "Balance: ") + balance.value)
    else Some("")
  }

  /**
    The balance label is empty when there is nothing to show, and it cannot be confused
    with that empty label when there is: the default prefix is never empty.
   */
  lemma BalanceShownIffKnown(hideBalance: bool, currency: Option<CurrencyInfo>, balance: Option<string>)
    ensures BalanceLabel(false, true, hideBalance, currency, balance, None) != Some("")
            <==> !hideBalance && currency.Some? && balance.Some?
  {
    if !hideBalance && currency.Some? && balance.Some? {
      assert BalanceLabel(false, true, hideBalance, currency, balance, None).value[0] == 'B';
    }
  }

  /** Line 242: the search modal exists only when selection is enabled and a handler is given. */
  predicate SearchModalRendered(disableCurrencySelect: bool, hasOnCurrencySelect: bool)
  {
    !disableCurrencySelect && hasOnCurrencySelect
  }

  class Panel {
    var modalOpen: bool

    /** Line 172. */
    constructor()
      ensures !modalOpen
    {
      modalOpen := false;
    }

    /** Lines 198-202: a click opens the modal unless selection is disabled. */
    method Click(disableCurrencySelect: bool)
      modifies this`modalOpen
      ensures modalOpen == (old(modalOpen) || !disableCurrencySelect)
    {
      if !disableCurrencySelect {
        modalOpen := true;
      }
    }

    /** Lines 177-179. */
    method DismissSearch()
      modifies this`modalOpen
      ensures !modalOpen
    {
      modalOpen := false;
    }
  }

  /**
    A click on a panel whose selection is disabled leaves the modal closed; on an enabled
    panel it opens the modal, which stays open until dismissed.
   */
  method ClickThenDismiss() returns (afterDisabled: bool, afterEnabled: bool, afterDismiss: bool)
    ensures !afterDisabled && afterEnabled && !afterDismiss
  {
    var p := new Panel();
    p.Click(true);
    afterDisabled := p.modalOpen;
    p.Click(false);
    p.Click(true);
    afterEnabled := p.modalOpen;
    p.DismissSearch();
    afterDismiss := p.modalOpen;
  }
}
