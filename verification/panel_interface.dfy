/**
  The interface-settings form of the admin panel (src/pages/Panel/Interface.tsx): the
  form fields and their validity, the dirty check against the stored settings, the save
  guard, the save protocol around `saveAppData`, and the creation of a template token
  list. `validUrl.isUri` is the parameter `isUri`, `networks.json` the parameter
  `networksTable`, and the outcome of `saveAppData` a parameter.
 */
module PanelInterface {
  import opened Options
  import opened JsValues
  import opened AppSettings
  import Panel

  /** The nine form fields the settings comparison and the save look at. */
  datatype FormValues = FormValues(
    projectName: JsValue,
    logoUrl: JsValue,
    faviconUrl: JsValue,
    navigationLinks: JsValue,
    menuLinks: JsValue,
    socialLinks: JsValue,
    addressesOfTokenLists: JsValue,
    swapInputCurrency: JsValue,
    swapOutputCurrency: JsValue)

  /** The stored settings in the form's shape, as `currentStrSettings` lists them (lines 74-84). */
  function Snapshot(state: Settings): FormValues
  {
    FormValues(state.projectName, state.logo, state.favicon, Arr(state.navigationLinks), Arr(state.menuLinks),
               Arr(state.socialLinks), Arr(state.addressesOfTokenLists),
               state.defaultSwapCurrency.input, state.defaultSwapCurrency.output)
  }

  /** The form's first values (lines 52-72): the stored settings, with `|| ''` on the swap currencies. */
  function InitialForm(state: Settings): FormValues
  {
    Snapshot(state).(swapInputCurrency := IfTruthy(state.defaultSwapCurrency.input, Str("")),
                     swapOutputCurrency := IfTruthy(state.defaultSwapCurrency.output, Str("")))
  }

  /**
    What `JSON.stringify` keeps of a value: members whose value is `undefined` are
    dropped and `undefined` array elements are written as `null`.
   */
  function Json(v: JsValue): JsValue
    decreases v, 0
  {
    match v
    case Arr(e) => Arr(seq(|e|, i requires 0 <= i < |e| => JsonElement(e[i])))
    case Obj(m) => Obj(map k | k in m && Json(m[k]) != Undefined :: Json(m[k]))
    case _ => v
  }

  function JsonElement(v: JsValue): JsValue
    decreases v, 1
  {
    if Json(v) == Undefined then Null else Json(v)
  }

  /** No `undefined` anywhere inside the value, the top level excepted. */
  predicate JsonClean(v: JsValue)
    decreases v
  {
    match v
    case Arr(e) => forall i :: 0 <= i < |e| ==> e[i] != Undefined && JsonClean(e[i])
    case Obj(m) => forall k :: k in m ==> m[k] != Undefined && JsonClean(m[k])
    case _ => true
  }

  /** Serialising loses nothing of a clean value. */
  lemma {:induction false} JsonOfClean(v: JsValue)
    requires JsonClean(v)
    ensures Json(v) == v
    decreases v
  {
    match v
    case Arr(e) =>
      forall i | 0 <= i < |e| ensures JsonElement(e[i]) == e[i] {
        JsonOfClean(e[i]);
      }
      assert Json(v).elems == e;
    case Obj(m) =>
      forall k | k in m ensures Json(m[k]) == m[k] {
        JsonOfClean(m[k]);
      }
      assert Json(v).fields == m;
    case _ =>
  }

  /** The form as `JSON.stringify` sees it, field by field in the order the form lists them. */
  function FormImage(f: FormValues): seq<JsValue>
  {
    [Json(f.projectName), Json(f.logoUrl), Json(f.faviconUrl), Json(f.navigationLinks), Json(f.menuLinks),
     Json(f.socialLinks), Json(f.addressesOfTokenLists), Json(f.swapInputCurrency), Json(f.swapOutputCurrency)]
  }

  /** Lines 88-101: the serialised form differs from the serialised stored settings. */
  predicate SettingsChanged(form: FormValues, stored: FormValues)
  {
    FormImage(form) != FormImage(stored)
  }

  predicate CleanForm(f: FormValues)
  {
    && JsonClean(f.projectName) && JsonClean(f.logoUrl) && JsonClean(f.faviconUrl)
    && JsonClean(f.navigationLinks) && JsonClean(f.menuLinks) && JsonClean(f.socialLinks)
    && JsonClean(f.addressesOfTokenLists) && JsonClean(f.swapInputCurrency) && JsonClean(f.swapOutputCurrency)
  }

  /** An unchanged form is never reported changed; for clean values, only an unchanged form is reported unchanged. */
  lemma SettingsChangedExactly(form: FormValues, stored: FormValues)
    ensures form == stored ==> !SettingsChanged(form, stored)
    ensures CleanForm(form) && CleanForm(stored) ==> (SettingsChanged(form, stored) <==> form != stored)
  {
    if CleanForm(form) && CleanForm(stored) {
      JsonOfClean(form.projectName); JsonOfClean(form.logoUrl); JsonOfClean(form.faviconUrl);
      JsonOfClean(form.navigationLinks); JsonOfClean(form.menuLinks); JsonOfClean(form.socialLinks);
      JsonOfClean(form.addressesOfTokenLists); JsonOfClean(form.swapInputCurrency); JsonOfClean(form.swapOutputCurrency);
      JsonOfClean(stored.projectName); JsonOfClean(stored.logoUrl); JsonOfClean(stored.faviconUrl);
      JsonOfClean(stored.navigationLinks); JsonOfClean(stored.menuLinks); JsonOfClean(stored.socialLinks);
      JsonOfClean(stored.addressesOfTokenLists); JsonOfClean(stored.swapInputCurrency); JsonOfClean(stored.swapOutputCurrency);
      if SettingsChanged(form, stored) {
        assert form != stored;
      } else {
        assert FormImage(form) == FormImage(stored);
        assert FormImage(form)[0] == FormImage(stored)[0] && FormImage(form)[1] == FormImage(stored)[1];
        assert FormImage(form)[2] == FormImage(stored)[2] && FormImage(form)[3] == FormImage(stored)[3];
        assert FormImage(form)[4] == FormImage(stored)[4] && FormImage(form)[5] == FormImage(stored)[5];
        assert FormImage(form)[6] == FormImage(stored)[6] && FormImage(form)[7] == FormImage(stored)[7];
        assert FormImage(form)[8] == FormImage(stored)[8];
      }
    }
  }

  /**
    Settings as `parseSettings` leaves them (empty or truthy swap currencies) give a fresh
    form that is not reported changed.
   */
  lemma FreshFormUnchanged(state: Settings)
    requires state.defaultSwapCurrency.input == Str("") || Truthy(state.defaultSwapCurrency.input)
    requires state.defaultSwapCurrency.output == Str("") || Truthy(state.defaultSwapCurrency.output)
    ensures !SettingsChanged(InitialForm(state), Snapshot(state))
  {
    assert InitialForm(state) == Snapshot(state);
  }

  /** The empty-list template `createNewTokenList` inserts (lines 183-187). */
  const TEMPLATE_LIST: JsValue := Obj(map["name" := Str("Template list"), "logoURI" := Str(""), "tokens" := Arr([])])

  /** Line 172: both ids are non-empty and no truthy list sits at `tokenLists[chain][id]`. */
  predicate IsUniqueNewList(tokenLists: JsValue, chain: string, id: string)
  {
    chain != "" && id != "" && !Truthy(Get(Get(tokenLists, chain), id))
  }

  /**
    Lines 178-190: `{ ...lists, [chain]: { ...lists[chain], [id]: template } }`. The
    template lands at `[chain][id]`; every other chain and every other list of the chain
    is unchanged.
   */
  function WithTemplateList(tokenLists: JsValue, chain: string, id: string): (r: JsValue)
    ensures r.Obj? && Get(r, chain).Obj?
    ensures Get(Get(r, chain), id) == TEMPLATE_LIST
    ensures forall c :: c != chain ==> Get(r, c) == Get(tokenLists, c)
    ensures forall l :: l != id ==> Get(Get(r, chain), l) == Get(Get(tokenLists, chain), l)
  {
    var lists := OwnEntries(tokenLists);
    var chainLists := OwnEntries(Get(tokenLists, chain));
    Obj(lists[chain := Obj(chainLists[id := TEMPLATE_LIST])])
  }

  /** A list just created is no longer unique, so it cannot be created twice. */
  lemma CreatedListNotUnique(tokenLists: JsValue, chain: string, id: string)
    ensures !IsUniqueNewList(WithTemplateList(tokenLists, chain, id), chain, id)
  {
  }

  /** What `saveSettings` hands to `saveAppData` (lines 125-139). */
  datatype SaveRequest = SaveRequest(
    projectName: JsValue,
    logoUrl: JsValue,
    faviconUrl: JsValue,
    navigationLinks: JsValue,
    menuLinks: JsValue,
    socialLinks: JsValue,
    addressesOfTokenLists: JsValue,
    defaultSwapCurrency: SwapCurrency)

  class InterfaceForm {
    var form: FormValues
    var isValidLogo: bool
    var isValidFavicon: bool
    var settingsChanged: bool
    var cannotSaveSettings: bool
    var tokenLists: JsValue
    var newListChainId: string
    var newListId: string
    var isUniqueNewList: bool
    var canCreateNewList: bool

    /**
      The state on first render (lines 52-72, 86, 115, 166-169). The first validity flags
      are `isUri` of the stored URLs, without the empty-URL exception the effects make.
     */
    constructor(state: Settings, isUri: JsValue -> bool)
      ensures form == InitialForm(state)
      ensures isValidLogo == isUri(state.logo) && isValidFavicon == isUri(state.favicon)
      ensures !settingsChanged && cannotSaveSettings
      ensures tokenLists == state.tokenListsByChain
      ensures newListChainId == "" && newListId == "templatelist" && !isUniqueNewList && !canCreateNewList
    {
      form := InitialForm(state);
      isValidLogo := isUri(state.logo);
      isValidFavicon := isUri(state.favicon);
      settingsChanged := false;
      cannotSaveSettings := true;
      tokenLists := state.tokenListsByChain;
      newListChainId := "";
      newListId := "templatelist";
      isUniqueNewList := false;
      canCreateNewList := false;
    }

    /** The inputs' change handlers: the form takes the values typed in. */
    method Edit(values: FormValues)
      modifies this`form
      ensures form == values
    {
      form := values;
    }

    /** The new-list inputs' change handlers. */
    method EditNewList(chain: string, id: string)
      modifies this`newListChainId, this`newListId
      ensures newListChainId == chain && newListId == id
    {
      newListChainId := chain;
      newListId := id;
    }

    /** Lines 58-64: an empty URL is valid; a non-empty one is valid exactly when `isUri` accepts it. */
    method ValidityEffect(isUri: JsValue -> bool)
      modifies this`isValidLogo, this`isValidFavicon
      ensures isValidLogo <==> !Truthy(form.logoUrl) || isUri(form.logoUrl)
      ensures isValidFavicon <==> !Truthy(form.faviconUrl) || isUri(form.faviconUrl)
    {
      isValidLogo := if Truthy(form.logoUrl) then isUri(form.logoUrl) else true;
      isValidFavicon := if Truthy(form.faviconUrl) then isUri(form.faviconUrl) else true;
    }

    /** Lines 88-113: the form is compared with the stored settings. */
    method DirtyEffect(state: Settings)
      modifies this`settingsChanged
      ensures settingsChanged == SettingsChanged(form, Snapshot(state))
    {
      settingsChanged := FormImage(form) != FormImage(Snapshot(state));
    }

    /** Lines 117-119: saving is refused off the storage network, with nothing changed, or with an invalid URL. */
    method SaveGuardEffect(chainId: Option<nat>, storageNetworkId: nat)
      modifies this`cannotSaveSettings
      ensures cannotSaveSettings <==> chainId != Some(storageNetworkId) || !settingsChanged || !isValidLogo || !isValidFavicon
    {
      cannotSaveSettings := chainId != Some(storageNetworkId) || !settingsChanged || !isValidLogo || !isValidFavicon;
    }

    /** Lines 122-139: the panel turns pending, then the form is packed, the swap currencies as one pair. */
    method StartSave(panel: Panel.PanelPage) returns (request: SaveRequest)
      modifies panel`pending
      ensures panel.pending
      ensures request.defaultSwapCurrency == SwapCurrency(form.swapInputCurrency, form.swapOutputCurrency)
      ensures request == SaveRequest(form.projectName, form.logoUrl, form.faviconUrl, form.navigationLinks, form.menuLinks,
                                     form.socialLinks, form.addressesOfTokenLists, request.defaultSwapCurrency)
    {
      panel.pending := true;
      request := SaveRequest(form.projectName, form.logoUrl, form.faviconUrl, form.navigationLinks, form.menuLinks,
                             form.socialLinks, form.addressesOfTokenLists,
                             SwapCurrency(form.swapInputCurrency, form.swapOutputCurrency));
    }

    /**
      Lines 140-163: once `saveAppData` has settled (`rejection` is `None` when it resolved,
      and otherwise the value it rejected with), an error becomes a popup with the error's
      `message`, and the panel stops being pending. A `null` or `undefined` rejection makes
      `error.message` throw inside the catch: the handler then stops with no popup, and the
      panel stays pending.
     */
    method FinishSave(panel: Panel.PanelPage, rejection: Option<JsValue>) returns (popup: Option<JsValue>, threw: bool)
      modifies panel`pending
      ensures threw <==> rejection.Some? && Nullish(rejection.value)
      ensures threw ==> popup.None? && panel.pending == old(panel.pending)
      ensures !threw ==> !panel.pending && (popup.Some? <==> rejection.Some?)
      ensures popup.Some? ==> popup.value == Get(rejection.value, "message")
    {
      popup, threw := None, false;
      if rejection.Some? {
        if Nullish(rejection.value) {
          threw := true;
          return;
        }
        popup := Some(Get(rejection.value, "message"));
      }
      panel.pending := false;
    }

    /**
      Lines 171-176: the new list is unique when both ids are set and no list is there yet;
      it can be created when, besides, the chain is a key of the networks table.
     */
    method NewListEffect(networksTable: JsValue)
      modifies this`isUniqueNewList, this`canCreateNewList
      ensures isUniqueNewList == IsUniqueNewList(tokenLists, newListChainId, newListId)
      ensures canCreateNewList <==> Truthy(Get(networksTable, newListChainId)) && isUniqueNewList
    {
      var isUnique := newListChainId != "" && newListId != "" && !Truthy(Get(Get(tokenLists, newListChainId), newListId));
      isUniqueNewList := isUnique;
      canCreateNewList := Truthy(Get(networksTable, newListChainId)) && newListId != "" && isUnique;
    }

    /** Line 278: the duplicate warning is shown when both ids are set and the list is not unique. */
    predicate DuplicateWarningShown()
      reads this
    {
      newListChainId != "" && newListId != "" && !isUniqueNewList
    }

    /** Lines 178-190. */
    method CreateNewTokenList()
      modifies this`tokenLists
      ensures tokenLists == WithTemplateList(old(tokenLists), newListChainId, newListId)
    {
      var lists := OwnEntries(tokenLists);
      var chainLists := OwnEntries(Get(tokenLists, newListChainId));
      tokenLists := Obj(lists[newListChainId := Obj(chainLists[newListId := TEMPLATE_LIST])]);
    }
  }

  /**
    Creating a list and re-running the uniqueness effect disables the create button and
    shows the duplicate warning.
   */
  method CreateThenRecheck(f: InterfaceForm, networksTable: JsValue)
    requires f.newListChainId != "" && f.newListId != ""
    modifies f
    ensures !f.canCreateNewList && f.DuplicateWarningShown()
  {
    f.CreateNewTokenList();
    f.NewListEffect(networksTable);
    CreatedListNotUnique(old(f.tokenLists), f.newListChainId, f.newListId);
  }
}
