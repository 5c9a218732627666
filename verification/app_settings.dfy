/**
  Domain-settings resolution (src/utils/app.ts).

  The storage contract keeps, for each domain, a JSON text and an owner address.
  `ParseSettings` turns the text into a settings record that always starts from the
  zero value `DefaultSettings()`; `FetchDomainData` reads the record for the current
  domain, layers the owner on top as `admin` and, when a factory is configured for the
  active chain, the factory's live fee state. The contract calls, `JSON.parse`,
  `filterTokenLists` and `Number` are parameters.
 */
module AppSettings {
  import opened Options
  import opened JsValues

  const ZERO_ADDRESS: string := "0x0000000000000000000000000000000000000000"
  const ZERO_HASH: string := "0x0000000000000000000000000000000000000000000000000000000000000000"

  /** The name of the application's section of the stored JSON. */
  const STORAGE_APP_KEY: string := "definance"

  datatype SwapCurrency = SwapCurrency(input: JsValue, output: JsValue)

  /** The settings snapshot (`StorageState`). Fields copied from the stored JSON keep whatever value it held. */
  datatype Settings = Settings(
    admin: string,
    contracts: JsValue,
    factory: JsValue,
    router: JsValue,
    pairHash: JsValue,
    feeRecipient: JsValue,
    protocolFee: JsValue,
    totalFee: JsValue,
    allFeeToProtocol: JsValue,
    possibleProtocolPercent: seq<JsValue>,
    totalSwaps: JsValue,
    domain: JsValue,
    projectName: JsValue,
    logo: JsValue,
    favicon: JsValue,
    tokenListsByChain: JsValue,
    tokenLists: JsValue,
    navigationLinks: seq<JsValue>,
    menuLinks: seq<JsValue>,
    socialLinks: seq<JsValue>,
    addressesOfTokenLists: seq<JsValue>,
    defaultSwapCurrency: SwapCurrency)

  /** The record the storage contract returns for a domain. */
  datatype StorageRecord = StorageRecord(info: string, owner: string)

  /** The factory's `allInfo()` result; a member it lacks is `Undefined`. */
  datatype FactoryInfo = FactoryInfo(
    protocolFee: JsValue,
    feeTo: JsValue,
    totalFee: JsValue,
    allFeeToProtocol: JsValue,
    totalSwaps: JsValue,
    possibleProtocolPercent: JsValue,
    initCodePairHash: JsValue)

  /** The host name used as the storage key: the location's hostname, else its host, else "". */
  function CurrentDomain(hostname: string, host: string): (d: string)
    ensures d == hostname || d == host
    ensures d == "" <==> hostname == "" && host == ""
    ensures hostname != "" ==> d == hostname
  {
    if hostname != "" then hostname else host
  }

  /** `Array.isArray(v) && !!v.length`. */
  predicate ValidArray(v: JsValue)
  {
    v.Arr? && |v.elems| > 0
  }

  /** The zero value: every string field "", every list and map empty, the fee fields undefined. */
  function DefaultSettings(): (d: Settings)
    ensures d.admin == ""
    ensures d.factory == d.router == d.pairHash == d.feeRecipient == Str("")
    ensures d.domain == d.projectName == d.logo == d.favicon == Str("")
    ensures d.defaultSwapCurrency == SwapCurrency(Str(""), Str(""))
    ensures d.contracts == Obj(map[]) && d.tokenListsByChain == Obj(map[]) && d.tokenLists == Arr([])
    ensures d.possibleProtocolPercent == [] && d.navigationLinks == [] && d.menuLinks == []
    ensures d.socialLinks == [] && d.addressesOfTokenLists == []
    ensures d.protocolFee == Undefined && d.totalFee == Undefined
    ensures d.allFeeToProtocol == Undefined && d.totalSwaps == Undefined
  {
    Settings(
      admin := "",
      contracts := Obj(map[]),
      factory := Str(""),
      router := Str(""),
      pairHash := Str(""),
      feeRecipient := Str(""),
      protocolFee := Undefined,
      totalFee := Undefined,
      allFeeToProtocol := Undefined,
      possibleProtocolPercent := [],
      totalSwaps := Undefined,
      domain := Str(""),
      projectName := Str(""),
      logo := Str(""),
      favicon := Str(""),
      tokenListsByChain := Obj(map[]),
      tokenLists := Arr([]),
      navigationLinks := [],
      menuLinks := [],
      socialLinks := [],
      addressesOfTokenLists := [],
      defaultSwapCurrency := SwapCurrency(Str(""), Str("")))
  }

  /**
    The application section of the parsed JSON once the guards of lines 46-51 have run:
    a missing or falsy section becomes `{}` and a missing or falsy `contracts` member
    becomes `{}`. `None` when the guards throw: the text did not parse, its top level is
    `null` or a primitive, or the section is a truthy primitive (writing a property on
    `null` or on a primitive throws in strict-mode code). An array section has no named
    members besides the `contracts` written into it.
   */
  function AppSection(parsed: Option<JsValue>): (o: Option<map<string, JsValue>>)
    ensures o.Some? ==> "contracts" in o.value && Truthy(o.value["contracts"])
    // The guards throw exactly on unparsable text, a `null` or primitive top level, or a truthy primitive section.
    ensures o.Some? <==> parsed.Some? && (parsed.value.Obj? || parsed.value.Arr?)
                         && (!Truthy(Get(parsed.value, STORAGE_APP_KEY)) || Get(parsed.value, STORAGE_APP_KEY).Arr?
                             || Get(parsed.value, STORAGE_APP_KEY).Obj?)
    // A missing, falsy or array section has nothing but the empty `contracts`.
    ensures o.Some? && !Get(parsed.value, STORAGE_APP_KEY).Obj? ==> o.value == map["contracts" := Obj(map[])]
    // An object section keeps every stored member, and a truthy stored `contracts`.
    ensures o.Some? && Get(parsed.value, STORAGE_APP_KEY).Obj? ==>
              var app := Get(parsed.value, STORAGE_APP_KEY).fields;
              o.value.Keys == app.Keys + {"contracts"}
              && (forall k | k in app && k != "contracts" :: o.value[k] == app[k])
              && (Truthy(Get(Obj(app), "contracts")) ==> o.value["contracts"] == app["contracts"])
              && (!Truthy(Get(Obj(app), "contracts")) ==> o.value["contracts"] == Obj(map[]))
  {
    match parsed
    case None => None
    case Some(root) =>
      if !(root.Obj? || root.Arr?) then None
      else
        var app := Get(root, STORAGE_APP_KEY);
        if !Truthy(app) || app.Arr? then Some(map["contracts" := Obj(map[])])
        else if app.Obj? then
          Some(if Truthy(Get(app, "contracts")) then app.fields else app.fields["contracts" := Obj(map[])])
        else None
  }

  /** `if (v) field = v`: a truthy value replaces the field, anything else leaves it. */
  function IfTruthy(v: JsValue, current: JsValue): JsValue
  {
    if Truthy(v) then v else current
  }

  /** `if (validArray(v)) field = v`. */
  function IfValidArray(v: JsValue, current: seq<JsValue>): seq<JsValue>
  {
    if ValidArray(v) then v.elems else current
  }

  /** Lines 104-109: the truthy parts of a truthy stored `defaultSwapCurrency` replace the defaults. */
  function SwapCurrencyOf(v: JsValue, current: SwapCurrency): SwapCurrency
  {
    if Truthy(v) then SwapCurrency(IfTruthy(Get(v, "input"), current.input), IfTruthy(Get(v, "output"), current.output))
    else current
  }

  /** The stored token lists are used when truthy with at least one key (line 96). */
  predicate HasTokenLists(lists: JsValue)
  {
    Truthy(lists) && KeyCount(lists) > 0
  }

  /**
    Lines 74-84 applied to the zero value: the contract addresses of the active chain
    and the pair-code hash and fee recipient.
   */
  function Wired(section: map<string, JsValue>, chainId: nat): (r: Settings)
    // Only these five fields leave the zero value.
    ensures r == DefaultSettings().(contracts := r.contracts, factory := r.factory, router := r.router,
                                    pairHash := r.pairHash, feeRecipient := r.feeRecipient)
    ensures r.contracts == Get(Obj(section), "contracts")
    // factory and router are those of the active chain's entry, or stay "".
    ensures Truthy(Index(r.contracts, chainId)) ==>
              r.factory == Get(Index(r.contracts, chainId), "factory") && r.router == Get(Index(r.contracts, chainId), "router")
    ensures !Truthy(Index(r.contracts, chainId)) ==> r.factory == Str("") && r.router == Str("")
    // The all-zero hash and address never survive; any other stored value, absent included, is copied.
    ensures r.pairHash != Str(ZERO_HASH) && r.feeRecipient != Str(ZERO_ADDRESS)
    ensures Get(Obj(section), "pairHash") != Str(ZERO_HASH) ==> r.pairHash == Get(Obj(section), "pairHash")
    ensures Get(Obj(section), "feeRecipient") != Str(ZERO_ADDRESS) ==> r.feeRecipient == Get(Obj(section), "feeRecipient")
    // A stored all-zero value leaves the field at its "" default.
    ensures Get(Obj(section), "pairHash") == Str(ZERO_HASH) ==> r.pairHash == Str("")
    ensures Get(Obj(section), "feeRecipient") == Str(ZERO_ADDRESS) ==> r.feeRecipient == Str("")
  {
    var o := Obj(section);
    var entry := Index(Get(o, "contracts"), chainId);
    var pairHash := Get(o, "pairHash");
    var feeRecipient := Get(o, "feeRecipient");
    DefaultSettings().(
      contracts := Get(o, "contracts"),
      factory := if Truthy(entry) then Get(entry, "factory") else Str(""),
      router := if Truthy(entry) then Get(entry, "router") else Str(""),
      pairHash := if pairHash != Str(ZERO_HASH) then pairHash else Str(""),
      feeRecipient := if feeRecipient != Str(ZERO_ADDRESS) then feeRecipient else Str(""))
  }

  /**
    Lines 85-98 applied to `s`: the branding fields take truthy stored values, the link
    and address lists take non-empty stored arrays, and the per-chain token lists are
    kept when they have at least one key.
   */
  function Branded(section: map<string, JsValue>, s: Settings): (r: Settings)
    // Nothing else changes.
    ensures r == s.(domain := r.domain, projectName := r.projectName, logo := r.logo, favicon := r.favicon,
                    navigationLinks := r.navigationLinks, menuLinks := r.menuLinks, socialLinks := r.socialLinks,
                    addressesOfTokenLists := r.addressesOfTokenLists, tokenListsByChain := r.tokenListsByChain)
    // A truthy stored text value is copied; a falsy one leaves the field as it was.
    ensures Truthy(Get(Obj(section), "domain")) ==> r.domain == Get(Obj(section), "domain")
    ensures !Truthy(Get(Obj(section), "domain")) ==> r.domain == s.domain
    ensures Truthy(Get(Obj(section), "projectName")) ==> r.projectName == Get(Obj(section), "projectName")
    ensures !Truthy(Get(Obj(section), "projectName")) ==> r.projectName == s.projectName
    // The stored `logoUrl` and `faviconUrl` are the `logo` and `favicon` fields.
    ensures Truthy(Get(Obj(section), "logoUrl")) ==> r.logo == Get(Obj(section), "logoUrl")
    ensures !Truthy(Get(Obj(section), "logoUrl")) ==> r.logo == s.logo
    ensures Truthy(Get(Obj(section), "faviconUrl")) ==> r.favicon == Get(Obj(section), "faviconUrl")
    ensures !Truthy(Get(Obj(section), "faviconUrl")) ==> r.favicon == s.favicon
    // A non-empty stored array replaces its list; anything else leaves the list as it was.
    ensures ValidArray(Get(Obj(section), "navigationLinks")) ==> r.navigationLinks == Get(Obj(section), "navigationLinks").elems
    ensures !ValidArray(Get(Obj(section), "navigationLinks")) ==> r.navigationLinks == s.navigationLinks
    ensures ValidArray(Get(Obj(section), "menuLinks")) ==> r.menuLinks == Get(Obj(section), "menuLinks").elems
    ensures !ValidArray(Get(Obj(section), "menuLinks")) ==> r.menuLinks == s.menuLinks
    ensures ValidArray(Get(Obj(section), "socialLinks")) ==> r.socialLinks == Get(Obj(section), "socialLinks").elems
    ensures !ValidArray(Get(Obj(section), "socialLinks")) ==> r.socialLinks == s.socialLinks
    ensures ValidArray(Get(Obj(section), "addressesOfTokenLists")) ==>
              r.addressesOfTokenLists == Get(Obj(section), "addressesOfTokenLists").elems
    ensures !ValidArray(Get(Obj(section), "addressesOfTokenLists")) ==> r.addressesOfTokenLists == s.addressesOfTokenLists
    // The per-chain lists are replaced exactly when the stored ones are truthy and have a key.
    ensures HasTokenLists(Get(Obj(section), "tokenLists")) ==> r.tokenListsByChain == Get(Obj(section), "tokenLists")
    ensures !HasTokenLists(Get(Obj(section), "tokenLists")) ==> r.tokenListsByChain == s.tokenListsByChain
  {
    var o := Obj(section);
    var lists := Get(o, "tokenLists");
    s.(
      domain := IfTruthy(Get(o, "domain"), s.domain),
      projectName := IfTruthy(Get(o, "projectName"), s.projectName),
      logo := IfTruthy(Get(o, "logoUrl"), s.logo),
      favicon := IfTruthy(Get(o, "faviconUrl"), s.favicon),
      navigationLinks := IfValidArray(Get(o, "navigationLinks"), s.navigationLinks),
      menuLinks := IfValidArray(Get(o, "menuLinks"), s.menuLinks),
      socialLinks := IfValidArray(Get(o, "socialLinks"), s.socialLinks),
      addressesOfTokenLists := IfValidArray(Get(o, "addressesOfTokenLists"), s.addressesOfTokenLists),
      tokenListsByChain := if HasTokenLists(lists) then lists else s.tokenListsByChain)
  }

  /** `filterTokenLists` is called on the active chain's stored lists (lines 96-101), and throws. */
  predicate FilterThrows(section: map<string, JsValue>, chainId: nat, filter: (nat, JsValue) -> Option<JsValue>)
  {
    var lists := Get(Obj(section), "tokenLists");
    HasTokenLists(lists) && Truthy(Index(lists, chainId)) && filter(chainId, Index(lists, chainId)).None?
  }

  /** The record as it stands when `filterTokenLists` is called (lines 74-98). */
  function Filled(section: map<string, JsValue>, chainId: nat): Settings
  {
    Branded(section, Wired(section, chainId))
  }

  /**
    What `parseSettings` returns for the parse result `parsed` on chain `chainId`, where
    `filter` is `filterTokenLists` and `None` from it means that it threw. The record starts
    as the zero value and is filled field by field; an exception leaves the fields filled
    so far in place, because the catch returns that same record.
   */
  function Parsed(parsed: Option<JsValue>, chainId: nat, filter: (nat, JsValue) -> Option<JsValue>): (r: Settings)
    // JSON that does not parse, or whose top level is not an object, gives exactly the zero value.
    ensures AppSection(parsed).None? ==> r == DefaultSettings()
    ensures r.admin == "" && Truthy(r.contracts)
    ensures r.pairHash != Str(ZERO_HASH) && r.feeRecipient != Str(ZERO_ADDRESS)
    // The active list only ever comes from the active chain's entry of the per-chain lists.
    ensures r.tokenLists == Arr([]) || filter(chainId, Index(r.tokenListsByChain, chainId)) == Some(r.tokenLists)
    ensures r.defaultSwapCurrency.input == Str("") || Truthy(r.defaultSwapCurrency.input)
    ensures r.defaultSwapCurrency.output == Str("") || Truthy(r.defaultSwapCurrency.output)
    // Everything but the active lists and the swap pair is settled before `filterTokenLists` can throw.
    ensures AppSection(parsed).Some? ==>
              r.(tokenLists := Arr([]), defaultSwapCurrency := SwapCurrency(Str(""), Str(""))) == Filled(AppSection(parsed).value, chainId)
    // The filtered lists of the active chain become the active lists.
    ensures AppSection(parsed).Some? ==>
              var lists := Get(Obj(AppSection(parsed).value), "tokenLists");
              (HasTokenLists(lists) && Truthy(Index(lists, chainId)) && filter(chainId, Index(lists, chainId)).Some? ==>
                 r.tokenLists == filter(chainId, Index(lists, chainId)).value)
              && (!(HasTokenLists(lists) && Truthy(Index(lists, chainId))) ==> r.tokenLists == Arr([]))
    // Unless the filter threw, the truthy parts of a truthy stored swap pair replace the defaults.
    ensures AppSection(parsed).Some? && !FilterThrows(AppSection(parsed).value, chainId, filter) ==>
              var swap := Get(Obj(AppSection(parsed).value), "defaultSwapCurrency");
              (Truthy(swap) && Truthy(Get(swap, "input")) ==> r.defaultSwapCurrency.input == Get(swap, "input"))
              && (!(Truthy(swap) && Truthy(Get(swap, "input"))) ==> r.defaultSwapCurrency.input == Str(""))
              && (Truthy(swap) && Truthy(Get(swap, "output")) ==> r.defaultSwapCurrency.output == Get(swap, "output"))
              && (!(Truthy(swap) && Truthy(Get(swap, "output"))) ==> r.defaultSwapCurrency.output == Str(""))
  {
    match AppSection(parsed)
    case None => DefaultSettings()
    case Some(section) => FromSection(section, chainId, filter)
  }

  /** Lines 74-109 on the application section that the guards let through. */
  function FromSection(section: map<string, JsValue>, chainId: nat, filter: (nat, JsValue) -> Option<JsValue>): (r: Settings)
    ensures r.admin == "" && r.contracts == Get(Obj(section), "contracts")
    ensures r.pairHash != Str(ZERO_HASH) && r.feeRecipient != Str(ZERO_ADDRESS)
    ensures r.(tokenLists := Arr([]), defaultSwapCurrency := SwapCurrency(Str(""), Str(""))) == Filled(section, chainId)
    ensures r.tokenLists == Arr([]) || filter(chainId, Index(r.tokenListsByChain, chainId)) == Some(r.tokenLists)
    ensures var lists := Get(Obj(section), "tokenLists");
            (HasTokenLists(lists) && Truthy(Index(lists, chainId)) && filter(chainId, Index(lists, chainId)).Some? ==>
               r.tokenLists == filter(chainId, Index(lists, chainId)).value)
            && (!(HasTokenLists(lists) && Truthy(Index(lists, chainId))) ==> r.tokenLists == Arr([]))
    ensures FilterThrows(section, chainId, filter) ==> r.defaultSwapCurrency == SwapCurrency(Str(""), Str(""))
    ensures !FilterThrows(section, chainId, filter) ==>
              var swap := Get(Obj(section), "defaultSwapCurrency");
              (Truthy(swap) && Truthy(Get(swap, "input")) ==> r.defaultSwapCurrency.input == Get(swap, "input"))
              && (!(Truthy(swap) && Truthy(Get(swap, "input"))) ==> r.defaultSwapCurrency.input == Str(""))
              && (Truthy(swap) && Truthy(Get(swap, "output")) ==> r.defaultSwapCurrency.output == Get(swap, "output"))
              && (!(Truthy(swap) && Truthy(Get(swap, "output"))) ==> r.defaultSwapCurrency.output == Str(""))
  {
    var head := Filled(section, chainId);
    var lists := Get(Obj(section), "tokenLists");
    var chainLists := Index(lists, chainId);
    var filtered := if HasTokenLists(lists) && Truthy(chainLists) then filter(chainId, chainLists) else Some(head.tokenLists);
    match filtered
    case None => head
    case Some(l) => head.(tokenLists := l, defaultSwapCurrency := SwapCurrencyOf(Get(Obj(section), "defaultSwapCurrency"), head.defaultSwapCurrency))
  }

  /** An exception from `filterTokenLists` leaves the active token lists and the default swap pair at their zero values. */
  lemma FilterFailureKeepsDefaults(parsed: Option<JsValue>, chainId: nat, filter: (nat, JsValue) -> Option<JsValue>)
    requires AppSection(parsed).Some?
    requires HasTokenLists(Get(Obj(AppSection(parsed).value), "tokenLists"))
    requires Truthy(Index(Get(Obj(AppSection(parsed).value), "tokenLists"), chainId))
    requires filter(chainId, Index(Get(Obj(AppSection(parsed).value), "tokenLists"), chainId)) == None
    ensures Parsed(parsed, chainId, filter) == Filled(AppSection(parsed).value, chainId)
    ensures Parsed(parsed, chainId, filter).tokenLists == Arr([])
    ensures Parsed(parsed, chainId, filter).defaultSwapCurrency == SwapCurrency(Str(""), Str(""))
  {
  }

  /**
    The stored branding of an object section reaches the record: a truthy `domain`,
    `projectName`, `logoUrl` or `faviconUrl` is what `parseSettings` returns in the
    corresponding field, whether or not `filterTokenLists` throws.
   */
  lemma StoredBrandingReachesRecord(root: JsValue, chainId: nat, filter: (nat, JsValue) -> Option<JsValue>)
    requires root.Obj? || root.Arr?
    requires Get(root, STORAGE_APP_KEY).Obj?
    ensures var app := Get(root, STORAGE_APP_KEY); var r := Parsed(Some(root), chainId, filter);
            (Truthy(Get(app, "domain")) ==> r.domain == Get(app, "domain"))
            && (Truthy(Get(app, "projectName")) ==> r.projectName == Get(app, "projectName"))
            && (Truthy(Get(app, "logoUrl")) ==> r.logo == Get(app, "logoUrl"))
            && (Truthy(Get(app, "faviconUrl")) ==> r.favicon == Get(app, "faviconUrl"))
  {
  }

  /**
    `parseSettings(settings, chainId)`: never throws. The guards of lines 44-54 on the
    parsed JSON; any exception among them returns the untouched zero value.
   */
  method ParseSettings(settings: string, chainId: nat, jsonParse: string -> Option<JsValue>,
                       filter: (nat, JsValue) -> Option<JsValue>) returns (r: Settings)
    ensures r == Parsed(jsonParse(settings), chainId, filter)
  {
    r := DefaultSettings();
    var parsed := jsonParse(settings);
    if parsed.None? {
      return;  // JSON.parse threw
    }
    var root := parsed.value;
    if !(root.Obj? || root.Arr?) {
      return;  // writing settingsJSON[STORAGE_APP_KEY] on null or a primitive throws
    }
    var app := Get(root, STORAGE_APP_KEY);
    if !Truthy(app) {
      app := Obj(map[]);
    }
    if app.Arr? {
      app := Obj(map[]);  // an array section has no named members
    } else if !app.Obj? {
      return;  // writing `contracts` on a truthy primitive throws
    }
    if !Truthy(Get(app, "contracts")) {
      app := Obj(app.fields["contracts" := Obj(map[])]);
    }
    assert AppSection(parsed) == Some(app.fields);
    r := FillSettings(app.fields, chainId, filter);
  }

  /**
    Lines 74-109: the fresh zero-value record filled field by field from the application
    section. When `filterTokenLists` throws, the record is returned as filled so far.
   */
  method FillSettings(section: map<string, JsValue>, chainId: nat, filter: (nat, JsValue) -> Option<JsValue>)
    returns (r: Settings)
    requires "contracts" in section && Truthy(section["contracts"])
    ensures r == FromSection(section, chainId, filter)
  {
    r := FillFields(section, chainId);
    var lists := Get(Obj(section), "tokenLists");
    if HasTokenLists(lists) && Truthy(Index(lists, chainId)) {
      var filtered := filter(chainId, Index(lists, chainId));
      if filtered.None? {
        return;  // filterTokenLists threw: the catch hands back the record as filled so far
      }
      r := r.(tokenLists := filtered.value);
    }
    var swap := Get(Obj(section), "defaultSwapCurrency");
    if Truthy(swap) {
      var input, output := Get(swap, "input"), Get(swap, "output");
      r := r.(defaultSwapCurrency := SwapCurrency(IfTruthy(input, r.defaultSwapCurrency.input),
                                                  IfTruthy(output, r.defaultSwapCurrency.output)));
    }
  }

  /** Lines 74-98: the assignments before `filterTokenLists` is reached, one field at a time. */
  method FillFields(section: map<string, JsValue>, chainId: nat) returns (r: Settings)
    ensures r == Filled(section, chainId)
  {
    r := FillContracts(section, chainId);
    r := FillBranding(section, r);
  }

  /** Lines 74-84: the contract addresses, the pair-code hash and the fee recipient. */
  method FillContracts(section: map<string, JsValue>, chainId: nat) returns (r: Settings)
    ensures r == Wired(section, chainId)
  {
    r := DefaultSettings();
    var contracts := Get(Obj(section), "contracts");
    r := r.(contracts := contracts);
    var entry := Index(contracts, chainId);
    if Truthy(entry) {
      r := r.(factory := Get(entry, "factory"), router := Get(entry, "router"));
    }
    var pairHash, feeRecipient := Get(Obj(section), "pairHash"), Get(Obj(section), "feeRecipient");
    if pairHash != Str(ZERO_HASH) { r := r.(pairHash := pairHash); }
    if feeRecipient != Str(ZERO_ADDRESS) { r := r.(feeRecipient := feeRecipient); }
  }

  /** Lines 85-98: the branding fields, the link and address lists and the per-chain token lists. */
  method FillBranding(section: map<string, JsValue>, s: Settings) returns (r: Settings)
    ensures r == Branded(section, s)
  {
    r := s;
    r := r.(domain := IfTruthy(Get(Obj(section), "domain"), r.domain));
    r := r.(projectName := IfTruthy(Get(Obj(section), "projectName"), r.projectName));
    r := r.(logo := IfTruthy(Get(Obj(section), "logoUrl"), r.logo));
    r := r.(favicon := IfTruthy(Get(Obj(section), "faviconUrl"), r.favicon));
    r := r.(navigationLinks := IfValidArray(Get(Obj(section), "navigationLinks"), r.navigationLinks));
    r := r.(menuLinks := IfValidArray(Get(Obj(section), "menuLinks"), r.menuLinks));
    r := r.(socialLinks := IfValidArray(Get(Obj(section), "socialLinks"), r.socialLinks));
    r := r.(addressesOfTokenLists := IfValidArray(Get(Obj(section), "addressesOfTokenLists"), r.addressesOfTokenLists));
    var lists := Get(Obj(section), "tokenLists");
    r := r.(tokenListsByChain := if HasTokenLists(lists) then lists else r.tokenListsByChain);
  }

  /** `chainId || 0`. */
  function ChainOrZero(chainId: Option<nat>): nat
  {
    if chainId.Some? then chainId.value else 0
  }

  /** `JSON.parse(info || '{}')`. */
  function ParsedInfo(info: string, jsonParse: string -> Option<JsValue>): Option<JsValue>
  {
    jsonParse(if info == "" then "{}" else info)
  }

  /**
    An empty stored text gives the zero value except for the pair-code hash and the fee
    recipient: their absent stored values differ from the all-zero constants, so they are
    copied, and become `undefined`.
   */
  lemma EmptyInfoSettings(chainId: nat, jsonParse: string -> Option<JsValue>, filter: (nat, JsValue) -> Option<JsValue>)
    requires jsonParse("{}") == Some(Obj(map[]))
    ensures Parsed(ParsedInfo("", jsonParse), chainId, filter) == DefaultSettings().(pairHash := Undefined, feeRecipient := Undefined)
  {
    var section := map["contracts" := Obj(map[])];
    assert AppSection(ParsedInfo("", jsonParse)) == Some(section);
    assert Index(Obj(map[]), chainId) == Undefined;
    assert Get(Obj(section), "tokenLists") == Undefined;
    assert Filled(section, chainId) == DefaultSettings().(pairHash := Undefined, feeRecipient := Undefined);
  }

  /** The factory information layered on top of `base`, when a factory is configured and its `allInfo()` call succeeds. */
  function Enrichment(base: Settings, allInfo: JsValue -> Option<FactoryInfo>): Option<FactoryInfo>
  {
    if Truthy(base.factory) then allInfo(base.factory) else None
  }

  /** `POSSIBLE_PROTOCOL_PERCENT.map(Number)` for a non-empty array, else []. */
  function ProtocolPercents(v: JsValue, toNumber: JsValue -> JsValue): (r: seq<JsValue>)
    ensures |r| == (if ValidArray(v) then |v.elems| else 0)
    ensures ValidArray(v) ==> forall i :: 0 <= i < |r| ==> r[i] == toNumber(v.elems[i])
  {
    if ValidArray(v) then seq(|v.elems|, i requires 0 <= i < |v.elems| => toNumber(v.elems[i])) else []
  }

  /**
    `fetchDomainData(chainId, library, storage)`. `getData` is the storage contract's
    lookup by domain and `allInfo` the factory's info call by factory address; `None`
    from either means the call threw. The result is `None` exactly when the storage read
    fails; a failing factory call leaves the unenriched snapshot.
   */
  method FetchDomainData(chainId: Option<nat>, hostname: string, host: string,
                         getData: string -> Option<StorageRecord>, jsonParse: string -> Option<JsValue>,
                         filter: (nat, JsValue) -> Option<JsValue>, allInfo: JsValue -> Option<FactoryInfo>,
                         toNumber: JsValue -> JsValue) returns (r: Option<Settings>)
    ensures r.None? <==> getData(CurrentDomain(hostname, host)).None?
    ensures r.Some? ==>
              var rec := getData(CurrentDomain(hostname, host)).value;
              (r.value.admin == "" <==> rec.owner == ZERO_ADDRESS || rec.owner == "")
              && (r.value.admin != "" ==> r.value.admin == rec.owner)
    ensures r.Some? ==>
              var rec := getData(CurrentDomain(hostname, host)).value;
              var base := Parsed(ParsedInfo(rec.info, jsonParse), ChainOrZero(chainId), filter).(admin := r.value.admin);
              match Enrichment(base, allInfo)
              case None => r.value == base
              case Some(info) =>
                r.value == base.(pairHash := info.initCodePairHash, protocolFee := info.protocolFee,
                                 feeRecipient := info.feeTo, totalFee := info.totalFee,
                                 allFeeToProtocol := info.allFeeToProtocol, totalSwaps := info.totalSwaps,
                                 possibleProtocolPercent := ProtocolPercents(info.possibleProtocolPercent, toNumber))
  {
    var fullData := DefaultSettings();
    var currentDomain := CurrentDomain(hostname, host);
    var record := getData(currentDomain);
    if record.None? {
      return None;  // the storage read threw
    }
    var info, owner := record.value.info, record.value.owner;
    var settings := ParseSettings(if info == "" then "{}" else info, ChainOrZero(chainId), jsonParse, filter);
    fullData := settings.(admin := if owner == ZERO_ADDRESS then "" else owner);
    if Truthy(fullData.factory) {
      var factoryInfo := allInfo(fullData.factory);
      if factoryInfo.Some? {
        var i := factoryInfo.value;
        return Some(fullData.(pairHash := i.initCodePairHash, protocolFee := i.protocolFee, feeRecipient := i.feeTo,
                              totalFee := i.totalFee, allFeeToProtocol := i.allFeeToProtocol,
                              possibleProtocolPercent := ProtocolPercents(i.possibleProtocolPercent, toNumber),
                              totalSwaps := i.totalSwaps));
      }
      // the factory call threw: keep the unenriched snapshot
    }
    return Some(fullData);
  }
}
