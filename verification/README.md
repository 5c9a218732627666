# FlexChange front end: a verified model of its decision logic

FlexChange is a decentralised-exchange front end. One deployment serves many domains. Each domain's settings are a JSON text kept in an on-chain storage contract, next to the address of its owner. The front end does these things:

- It reads the settings and falls back to a zero value wherever they are missing or malformed.
- It decides whether to show the exchange, the admin panel, a greeting or a connection screen.
- It lets the owner edit the settings.
- It prepares the contract calls that store the settings.

This project models that decision logic in Dafny and proves what the code promises about it. The model follows the source's own form:

- **Value computations are functions.** This covers settings parsing, view selection, symbol shortening and call arguments.
- **Effects and handlers are methods of classes.** Each class holds the fields that a React component keeps in `useState`. Effects and handlers update those fields, so they are methods with `modifies` clauses.

| file | module | models |
|---|---|---|
| `options.dfy` | `Options` | `Option` and `Result` |
| `js_values.dfy` | `JsValues` | JavaScript values: truthiness, property reads (`v[k]`, `v?.k`), numeric keys, `Object.keys(v).length`, object spread, `toLowerCase` on ASCII letters |
| `app_settings.dfy` | `AppSettings` | `src/utils/app.ts`: `defaultSettings`, `parseSettings`, `fetchDomainData` |
| `readiness.dfy` | `Readiness` | `src/app/index.tsx`: the readiness flags, their effects, the favicon cache, the render branch |
| `connection.dfy` | `ConnectionGate` | `src/pages/Connection.tsx` |
| `panel.dfy` | `Panel` | `src/pages/Panel/index.tsx` |
| `panel_interface.dfy` | `PanelInterface` | `src/pages/Panel/Interface.tsx` |
| `pool_finder.dfy` | `PoolFinder` | `src/pages/PoolFinder/index.tsx` |
| `settings_menu.dfy` | `SettingsMenu` | `src/components/Settings/index.tsx` |
| `currency_input_panel.dfy` | `CurrencyInputPanel` | `src/components/CurrencyInputPanel/index.tsx` |
| `storage.dfy` | `ProjectStorage` | `src/utils/storage.js` |

Foreign code is passed in as parameters:

- `JSON.parse` (`None` when it throws);
- `filterTokenLists`, `Number` and `String`;
- `validUrl.isUri`;
- `EVM_ADDRESS_REGEXP` (an address predicate);
- `SUPPORTED_CHAIN_IDS` and `SUPPORTED_NETWORKS`;
- `networks.json`;
- the `storageMethods` names;
- the results of contract calls (`getData`, `allInfo`, `saveAppData`, `resetAppData`).

The browser's favicon entry in `localStorage` is a field. Each `window.location.reload()` increments a counter.

`STORAGE_APP_KEY` is taken to be `"definance"`. The guards of `app.ts` use the constant, while line 56 destructures the literal key `definance`. The model assumes the two agree.

## Model

| member | source | states |
|---|---|---|
| AppSettings.CurrentDomain | src/utils/app.ts:9-11 | The domain is the hostname when that is non-empty, else the host; it is empty only when both are |
| AppSettings.DefaultSettings | src/utils/app.ts:15-38 | The zero value: every string field is empty, every list and map is empty, and the fee fields and `totalSwaps` are undefined |
| AppSettings.ValidArray | src/utils/app.ts:13 | `validArray`: an array with at least one element. `Branded` states which lists it lets through and `ProtocolPercents` what it converts |
| AppSettings.AppSection | src/utils/app.ts:44-56 | The guards throw, and the section is absent, exactly when the text does not parse, the top level is `null` or a primitive, or the section is a truthy primitive. A missing, falsy or array section becomes `{contracts: {}}`. An object section keeps every stored member; its `contracts` is kept when truthy and becomes `{}` otherwise, so it is always truthy |
| AppSettings.Wired | src/utils/app.ts:74-84 | Only `contracts`, `factory`, `router`, `pairHash` and `feeRecipient` leave the zero value. `factory` and `router` are those of `contracts[chainId]` exactly when that entry is truthy, and `""` otherwise. A stored all-zero hash or address leaves its field `""`; any other stored value, absent ones included, is copied as is |
| AppSettings.Branded | src/utils/app.ts:85-98 | Nothing but the branding fields, the four lists and `tokenListsByChain` changes. A truthy stored `domain`, `projectName`, `logoUrl` or `faviconUrl` is copied into `domain`, `projectName`, `logo` or `favicon`, and a falsy one leaves the field as it was. A non-empty stored array replaces its list, and anything else leaves the list. `tokenListsByChain` is replaced exactly when the stored lists are truthy with at least one key |
| AppSettings.Parsed | src/utils/app.ts:40-122 | `parseSettings` never throws. An unusable text gives exactly `defaultSettings()`. `admin` is always `""` and `contracts` always truthy. The zero hash and address never appear. Apart from the active token lists and the swap pair, the record is the one filled before `filterTokenLists` runs. When the stored lists have a truthy entry for the active chain and the filter succeeds, its result is the active list; without such an entry the active list is `[]`. Unless the filter threw, a truthy `input` or `output` of a truthy stored `defaultSwapCurrency` is copied, and otherwise stays `""` |
| AppSettings.FilterThrows | src/utils/app.ts:96-101 | The condition under which `filterTokenLists` is called on the active chain's lists and throws; `Parsed` and `FilterFailureKeepsDefaults` state what follows from it |
| AppSettings.StoredBrandingReachesRecord | src/utils/app.ts:44-89 | A truthy `domain`, `projectName`, `logoUrl` or `faviconUrl` stored in an object section of the parsed JSON is the value `parseSettings` returns in the corresponding field, whether or not the filter throws |
| AppSettings.FilterFailureKeepsDefaults | src/utils/app.ts:99-110 | When `filterTokenLists` throws, the catch returns the record filled so far: the active token lists and the default swap pair keep their zero values |
| AppSettings.ParseSettings | src/utils/app.ts:40-56 | The step-by-step guards of the method give the result `Parsed` specifies |
| AppSettings.FillSettings | src/utils/app.ts:74-109 | The fill of the zero-value record, then the filter and the swap pair, gives the record `FromSection` specifies for a guarded section; a throwing filter returns the record as filled so far |
| AppSettings.FromSection | src/utils/app.ts:74-109 | On a guarded section: `admin` stays `""` and `contracts` is the stored one. Apart from the active lists and the swap pair, the record is the one filled before the filter runs. A successful filter of the active chain's stored lists becomes the active list, and without such lists it is `[]`. A throwing filter leaves the swap pair at `""`; otherwise a truthy stored `input` or `output` is copied |
| AppSettings.FillFields | src/utils/app.ts:74-98 | The assignments before the filter is reached give exactly the `Filled` record |
| AppSettings.FillContracts | src/utils/app.ts:74-84 | The contract, hash and fee-recipient assignments on the zero value give exactly the `Wired` record |
| AppSettings.FillBranding | src/utils/app.ts:85-98 | The branding, list and per-chain list assignments give exactly the `Branded` record |
| AppSettings.EmptyInfoSettings | src/utils/app.ts:134 | An empty stored text (`info \|\| '{}'`) gives the zero value, except that `pairHash` and `feeRecipient` become undefined, because their absent values are copied |
| AppSettings.ProtocolPercents | src/utils/app.ts:161 | A non-empty array is converted element by element with `Number`, in order; anything else gives `[]` |
| AppSettings.FetchDomainData | src/utils/app.ts:124-174 | The result is `null` exactly when the storage read fails. `admin` is `""` exactly when the owner is the zero address (or empty), and otherwise the owner. Enrichment is tried only with a non-empty factory: on success the seven factory fields override the parsed record (`pairHash` from `INIT_CODE_PAIR_HASH`, `feeRecipient` from `feeTo`); on failure the unenriched record is returned |
| Readiness.AddressMatch | src/app/index.tsx:118-120 | `v?.match(EVM_ADDRESS_REGEXP)` throws exactly for a non-nullish non-string, and matches exactly for a string address |
| Readiness.ValidateAddress | src/app/index.tsx:39 | `validateAddress` holds exactly for a non-empty string address, and throws exactly for a truthy non-string |
| Readiness.ChainUsable | src/app/index.tsx:118-120 | The chain is usable exactly when `contracts[chainId]` names a factory address and a router address |
| Readiness.FaviconStep | src/app/index.tsx:104-113 | The cache is written exactly for a truthy favicon that differs from the cached one. It is removed exactly when loading is over, the favicon is falsy and the cache is non-empty. An equal favicon changes nothing |
| Readiness.FaviconSettles | src/app/index.tsx:104-113 | After one write or removal (and its reload), a string or empty favicon causes no further change: no reload loop |
| Readiness.App.constructor | src/app/index.tsx:97-99 | First render: loading, no snapshot, network available, no setup required, greeting inactive, not ready |
| Readiness.App.FlipDomainDataTrigger | src/app/index.tsx:93-95 | The trigger is negated |
| Readiness.App.DomainDataEffect | src/app/index.tsx:101-114 | The greeting is active exactly when there is no snapshot or its `admin` is empty. The cache follows `FaviconStep`, and each change of it adds one reload |
| Readiness.App.NetworkEffect | src/app/index.tsx:116-124 | Without a truthy chain id and a snapshot the flag is unchanged. Otherwise the network is available exactly when the chain is supported and usable. A throwing lookup leaves the flag unchanged |
| Readiness.App.EnoughData | src/app/index.tsx:129 | Enough data exactly when admin, factory and router all pass `validateAddress` |
| Readiness.App.SetupEffect | src/app/index.tsx:126-134 | After loading, missing or malformed addresses set `isSetupRequired`, and nothing ever resets it |
| Readiness.App.CompleteFetch | src/app/index.tsx:141-148 | Loading ends whether or not data came back. Only a non-null result replaces the store and the snapshot |
| Readiness.App.FetchEffect | src/app/index.tsx:136-155 | A fetch starts exactly when there is a storage contract and no `pairHash` in the store. Without a start nothing changes |
| Readiness.App.ReadyEffect | src/app/index.tsx:157-161 | Ready exactly when the wallet is active and admin, factory and router are non-empty |
| Readiness.App.Screen | src/app/index.tsx:178-231 | Loader while loading, whatever the other flags. Admin panel or exchange only when ready on an available network, with `appManagement` consulted only there. Then the greeting when it is active. Otherwise the connection screen |
| Readiness.BootWithCompleteSettings | src/app/index.tsx:178-186 | With complete settings for a supported chain, the effects lead to the exchange, or to the admin panel under management |
| Readiness.BootWithFailedRead | src/app/index.tsx:116-161 | A failed storage read still ends loading and leaves no snapshot. After the mount effects, the greeting is shown, management or not, unless the wallet is active and the store the shell started with already names an admin, a factory and a router; then the exchange (or the admin panel under management) is shown. A store still at its empty default always leads to the greeting |
| ConnectionGate.IsAdminAccountIgnoresCase | src/pages/Connection.tsx:97-99 | The admin check does not depend on the letter case of either address, except when the admin is a differently-cased spelling of the zero address: the source's `admin !== ZERO_ADDRESS` guard is case-sensitive |
| ConnectionGate.CaseVariantOfZeroAdmitted | src/pages/Connection.tsx:98 | An admin stored as a differently-cased spelling of the zero address (an upper-case `0X` prefix, say) passes the guard and admits the zero-address account, while its lower-cased spelling admits nobody |
| ConnectionGate.IsAdminAccount | src/pages/Connection.tsx:97-99 | The admin comparison; `IsAdminAccountIgnoresCase` and `ZeroAdminNobody` state that it ignores letter case and admits nobody for the zero address |
| ConnectionGate.ZeroAdminNobody | src/pages/Connection.tsx:98 | The zero address is nobody's admin, and no account at all is never admin |
| ConnectionGate.NetworksListing | src/pages/Connection.tsx:120-131 | The supported networks are listed exactly when `SUPPORTED_NETWORKS.length` is truthy. A zero length renders the text "0" |
| ConnectionGate.View | src/pages/Connection.tsx:103-147 | Setup required comes first: the panel for the admin, the not-ready notice for anyone else. Then an unsupported network shows the listing. Otherwise the wallet prompt is shown |
| ConnectionGate.KeyedNetworksNeverListed | src/pages/Connection.tsx:120 | A `SUPPORTED_NETWORKS` keyed by chain id has no `length`, so the unsupported-network view lists nothing |
| ConnectionGate.ConnectionScreen.constructor | src/pages/Connection.tsx:94 | Not admin, modal closed |
| ConnectionGate.ConnectionScreen.ModalEffect | src/pages/Connection.tsx:88-92 | The wallet modal is opened exactly on an available network without required setup |
| ConnectionGate.ConnectionScreen.AdminEffect | src/pages/Connection.tsx:97-99 | `isAdmin` holds exactly when the admin is not the zero address and equals the connected account ignoring case |
| ConnectionGate.ModalOnlyWithConnectView | src/pages/Connection.tsx:88-147 | On a fresh screen the modal opens exactly when the wallet prompt is the view. The panel is shown only to the admin |
| Panel.AllowedNetworks | src/pages/Panel/index.tsx:96-98 | A network is kept exactly when it is supported and its chain id is in `wpNetworkIds`, and the list never gets longer |
| Panel.AllowedNetworksOrder | src/pages/Panel/index.tsx:96-98 | The filter keeps the original order: it distributes over concatenation |
| Panel.AllowedNetworksAll | src/pages/Panel/index.tsx:96-98 | When every chain id is listed, nothing is filtered out |
| Panel.ActiveNetworks | src/pages/Panel/index.tsx:94-104 | With no WordPress data or an empty `wpNetworkIds`, all supported networks are active. Otherwise exactly the supported networks whose chain id is listed are active, in their original order (the `AllowedNetworks` filter) |
| Panel.Contents | src/pages/Panel/index.tsx:171-190 | Exactly the content whose key equals the current tab is shown, and none for another key |
| Panel.PanelPage.constructor | src/pages/Panel/index.tsx:87-116 | Not pending, no networks, empty wrapped token, tab `contracts`, confirmation closed |
| Panel.PanelPage.NetworksEffect | src/pages/Panel/index.tsx:94-104 | The active networks become `ActiveNetworks` of the WordPress data |
| Panel.PanelPage.WrappedTokenEffect | src/pages/Panel/index.tsx:106-113 | Updated only for a truthy chain id, to `networks[chainId]?.wrappedToken?.address` |
| Panel.PanelPage.SelectTab | src/pages/Panel/index.tsx:138 | The clicked tab becomes current |
| Panel.PanelPage.RequestReset | src/pages/Panel/PanelHeader.tsx:101 | The reset button opens the confirmation |
| Panel.PanelPage.DismissConfirm | src/pages/Panel/index.tsx:149 | Dismissing closes the confirmation |
| Panel.PanelPage.ResetData | src/pages/Panel/index.tsx:118-124 | The confirmation closes first. The trigger is flipped only after the reset succeeded; a failed reset throws and leaves it |
| Panel.PanelPage.ReturnTabs | src/pages/Panel/index.tsx:126-143 | `contracts`, `interface`, then `migration` exactly on the storage network. A button is active exactly when its key is the current tab, so at most one is |
| Panel.MigrationOutlivesItsTab | src/pages/Panel/index.tsx:126-190 | After a switch away from the storage network, the migration content stays shown although its tab is gone |
| PanelInterface.JsonOfClean | src/pages/Panel/Interface.tsx:74-101 | `JSON.stringify` loses nothing of a value with no `undefined` inside |
| PanelInterface.SettingsChangedExactly | src/pages/Panel/Interface.tsx:74-101 | An unchanged form is never reported changed. For values without `undefined` inside, the form is reported changed exactly when one of the nine fields differs from the stored snapshot |
| PanelInterface.SettingsChanged | src/pages/Panel/Interface.tsx:74-101 | The dirty check on the serialised form fields; `SettingsChangedExactly` and `FreshFormUnchanged` state when it holds |
| PanelInterface.FreshFormUnchanged | src/pages/Panel/Interface.tsx:52-84 | A form opened on settings as `parseSettings` leaves them is not reported changed |
| PanelInterface.WithTemplateList | src/pages/Panel/Interface.tsx:178-190 | The template list lands at `[chain][id]`. Every other chain and every other list of the chain is unchanged |
| PanelInterface.CreatedListNotUnique | src/pages/Panel/Interface.tsx:171-190 | A list just created is no longer unique, so it cannot be created twice |
| PanelInterface.IsUniqueNewList | src/pages/Panel/Interface.tsx:171-172 | A chain and an id are both set and no list is stored under them; `CreatedListNotUnique` states that creating the list makes it false |
| PanelInterface.InterfaceForm.constructor | src/pages/Panel/Interface.tsx:52-72 | The form starts from the stored settings, with `\|\| ''` on the swap currencies. The first validity flags are `isUri` of the stored URLs, without the empty-URL exception. Saving is refused. The new list is `templatelist` on no chain |
| PanelInterface.InterfaceForm.Edit | src/pages/Panel/Interface.tsx:196-200 | The form takes the typed values |
| PanelInterface.InterfaceForm.EditNewList | src/pages/Panel/Interface.tsx:264-275 | The new list's chain and id take the typed values |
| PanelInterface.InterfaceForm.ValidityEffect | src/pages/Panel/Interface.tsx:58-64 | An empty URL is valid. A non-empty one is valid exactly when `isUri` accepts it |
| PanelInterface.InterfaceForm.DirtyEffect | src/pages/Panel/Interface.tsx:88-113 | `settingsChanged` is the serialised comparison of the form with the stored snapshot |
| PanelInterface.InterfaceForm.SaveGuardEffect | src/pages/Panel/Interface.tsx:117-119 | Saving is refused exactly off the storage network, with nothing changed, or with an invalid logo or favicon |
| PanelInterface.InterfaceForm.StartSave | src/pages/Panel/Interface.tsx:121-139 | `pending` is set first. The request packs the swap currencies as one `defaultSwapCurrency` pair |
| PanelInterface.InterfaceForm.FinishSave | src/pages/Panel/Interface.tsx:140-163 | A resolved save clears `pending` with no popup. A rejection with an object becomes a popup carrying its `message`, and then `pending` is cleared. A `null` or `undefined` rejection makes the catch throw: no popup, and `pending` stays as it was |
| PanelInterface.InterfaceForm.NewListEffect | src/pages/Panel/Interface.tsx:171-176 | The list is unique exactly when both ids are set and no truthy list is at `[chain][id]`. It can be created exactly when, besides, the chain is a key of the networks table |
| PanelInterface.InterfaceForm.CreateNewTokenList | src/pages/Panel/Interface.tsx:178-190 | The token lists become `WithTemplateList` of the old ones |
| PanelInterface.InterfaceForm.DuplicateWarningShown | src/pages/Panel/Interface.tsx:278 | The "you have such a list" warning shows when a chain and an id are set and the list is not unique; `CreateThenRecheck` states that it appears after a creation |
| PanelInterface.CreateThenRecheck | src/pages/Panel/Interface.tsx:171-280 | After a creation and the uniqueness effect, the create button is disabled and the duplicate warning shows |
| PoolFinder.Result | src/pages/PoolFinder/index.tsx:160-201 | A missing currency shows only the prerequisite message. An existing pair shows the position card exactly to a holder with a pair, and otherwise the add-liquidity prompt. "Create pool" appears exactly for a pair that does not exist. Invalid and loading follow. The final `null` branch is unreachable |
| PoolFinder.ValidPairNoLiquidity | src/pages/PoolFinder/index.tsx:56-63 | No pair contract, or an existing one with both reserves zero; `EmptyReservesNeverCreatePool` states that the second half never decides the view |
| PoolFinder.HasPosition | src/pages/PoolFinder/index.tsx:65-66 | A known, positive liquidity-token balance; `Result` and `HolderSeesPosition` state which card it selects |
| PoolFinder.PoolFoundBanner | src/pages/PoolFinder/index.tsx:147 | The "pool found" banner is shown exactly to a holder; `HolderSeesPosition` states it |
| PoolFinder.AddLink | src/pages/PoolFinder/index.tsx:168-178 | The `/add/<id0>/<id1>` link of both prompts; `Result` states which prompt carries it |
| PoolFinder.EmptyReservesNeverCreatePool | src/pages/PoolFinder/index.tsx:56-178 | The empty-reserves half of `validPairNoLiquidity` holds for an existing pair but never leads to "create pool" |
| PoolFinder.HolderSeesPosition | src/pages/PoolFinder/index.tsx:147-163 | A positive balance shows the "pool found" banner and, for an existing pair, the position card |
| PoolFinder.PoolFinderPage.constructor | src/pages/PoolFinder/index.tsx:41-45 | Search closed, field TOKEN1, first currency the base currency, second none |
| PoolFinder.PoolFinderPage.PairEffect | src/pages/PoolFinder/index.tsx:50-54 | A loaded pair is added to the user's pairs; no pair adds nothing |
| PoolFinder.PoolFinderPage.OpenSearch | src/pages/PoolFinder/index.tsx:103-131 | A picker's click opens the search for its field |
| PoolFinder.PoolFinderPage.SelectCurrency | src/pages/PoolFinder/index.tsx:68-77 | The choice goes to the active field's currency; the other is unchanged |
| PoolFinder.PoolFinderPage.DismissSearch | src/pages/PoolFinder/index.tsx:79-81 | The search closes |
| PoolFinder.PoolFinderPage.SelectedCurrency | src/pages/PoolFinder/index.tsx:208 | The modal marks the currency of the field that is not active |
| PoolFinder.PickSecond | src/pages/PoolFinder/index.tsx:127-131 | Picking through the second picker fills it alone, and the modal then marks the first currency |
| SettingsMenu.Menu.constructor | src/components/Settings/index.tsx:149 | The confirmation starts closed |
| SettingsMenu.Menu.ToggleMenu | src/components/Settings/index.tsx:194 | The menu button flips the flyout |
| SettingsMenu.Menu.ClickOutside | src/components/Settings/index.tsx:151 | A click outside leaves the flyout closed |
| SettingsMenu.Menu.EnableExpertMode | src/components/Settings/index.tsx:153-156 | The flyout flips and the confirmation opens; expert mode is untouched |
| SettingsMenu.Menu.DisableExpertMode | src/components/Settings/index.tsx:158-161 | Expert mode flips once and the confirmation closes |
| SettingsMenu.Menu.ExpertToggle | src/components/Settings/index.tsx:230-236 | With expert mode on, it is turned off at once. With it off, it stays off and the confirmation opens |
| SettingsMenu.Menu.DismissConfirmation | src/components/Settings/index.tsx:166-174 | Dismissing or closing the dialog closes it and leaves expert mode |
| SettingsMenu.Menu.SingleHopToggle | src/components/Settings/index.tsx:249 | The single-hop flag becomes its negation |
| SettingsMenu.Menu.WizardBadge | src/components/Settings/index.tsx:196-202 | The wizard badge shows exactly in expert mode; `TurnOnExpertMode` and `BackOutOfExpertMode` state when it appears |
| SettingsMenu.TurnOnExpertMode | src/components/Settings/index.tsx:153-236 | Switch then confirm: expert mode is on, the badge shows, the flyout and dialog are closed, and single-hop is unchanged |
| SettingsMenu.BackOutOfExpertMode | src/components/Settings/index.tsx:166-174 | Switch then dismiss: expert mode stays off and there is no badge |
| CurrencyInputPanel.Abbreviated | src/components/CurrencyInputPanel/index.tsx:183 | A long symbol becomes its first 4 characters, `...` and its last 5: 12 characters |
| CurrencyInputPanel.SelectedSymbol | src/components/CurrencyInputPanel/index.tsx:181-184 | Undefined without a currency. Unchanged up to 20 characters. Abbreviated beyond |
| CurrencyInputPanel.SelectedSymbolStable | src/components/CurrencyInputPanel/index.tsx:181-184 | A shown symbol has at most 20 characters, and shortening it again changes nothing |
| CurrencyInputPanel.AbbreviatedCollides | src/components/CurrencyInputPanel/index.tsx:183 | Two long symbols look the same exactly when their kept characters agree |
| CurrencyInputPanel.Selector | src/components/CurrencyInputPanel/index.tsx:205-218 | A pair names both tokens. Otherwise a non-empty symbol is shown, else the `selectToken` prompt |
| CurrencyInputPanel.BalanceLabel | src/components/CurrencyInputPanel/index.tsx:223-239 | The label exists only for a visible input and a connected account. It is non-empty only with balances shown, a currency and a balance. Its prefix is `customBalanceText`, else `Balance: ` |
| CurrencyInputPanel.BalanceShownIffKnown | src/components/CurrencyInputPanel/index.tsx:233-235 | With the default prefix, the label is non-empty exactly when balances are shown and a currency and balance exist |
| CurrencyInputPanel.SearchModalRendered | src/components/CurrencyInputPanel/index.tsx:242 | The search modal exists only when selection is enabled and a selection handler is given |
| CurrencyInputPanel.Panel.constructor | src/components/CurrencyInputPanel/index.tsx:172 | The modal starts closed |
| CurrencyInputPanel.Panel.Click | src/components/CurrencyInputPanel/index.tsx:198-202 | A click opens the modal only when selection is enabled |
| CurrencyInputPanel.Panel.DismissSearch | src/components/CurrencyInputPanel/index.tsx:177-179 | Dismissing closes the modal |
| CurrencyInputPanel.ClickThenDismiss | src/components/CurrencyInputPanel/index.tsx:172-202 | A click on a disabled selector does not open the modal; an enabled one does, until dismissed |
| ProjectStorage.Member | src/utils/storage.js:118 | A property read throws exactly on `null` and `undefined` |
| ProjectStorage.TokenAddresses | src/utils/storage.js:118 | The addresses of the tokens, in order; it throws unless the tokens are an array of non-nullish items |
| ProjectStorage.OptionArguments | src/utils/storage.js:107-126 | `setProjectName`, `setLogoUrl` and `setBrandColor` take `[value]`. An unknown method has no arguments. Only a type error can fail |
| ProjectStorage.ProjectOptionCall | src/utils/storage.js:123-137 | The contract is called exactly for a known, non-empty method whose arguments were built. An unknown method throws `No such method` |
| ProjectStorage.TokenListArguments | src/utils/storage.js:117-118 | `setTokenList` sends the list's name and its tokens' addresses in order |
| ProjectStorage.FullDataArguments | src/utils/storage.js:120-121 | `setFullData` sends the value with `tokens` replaced by the addresses; every other member is unchanged |
| ProjectStorage.SaveProjectOption | src/utils/storage.js:97-137 | The switch on `method` and `args` gives the call `ProjectOptionCall` specifies |
| ProjectStorage.GetData | src/utils/storage.js:36-46 | A hash with no ASCII letter or digit gets an error returned, without a request. Any other hash is read from the gateway |
| ProjectStorage.GetDataOneCharacterSuffices | src/utils/storage.js:37-39 | One ASCII letter or digit anywhere in the hash is enough for the request to go to `gateway/hash` |
| ProjectStorage.GenerateNewKeys | src/utils/storage.js:10-19 | A missing or empty server IP or port throws `No destination` before any request. Otherwise the key-server URL is built |
| ProjectStorage.SaveAllOptions | src/utils/storage.js:57-68 | `projectName` is sent as `name` and `logoUrl` as `logo`. `brandColor`, `listName` and `tokens` pass through. Nullish options throw |
| ProjectStorage.SaveAllOptionsRoundTrip | src/utils/storage.js:57-68 | Renaming a stored project's fields to the form's names and saving gives the stored record back |

## Left out

- Network, contract and RPC I/O are left out: `getData`, `allInfo`, `saveAppData`, `resetAppData`, axios, Pinata, `window.ethereum`. Their outcomes are inputs.
- The asynchrony of effects is left out. There are no stale responses and no interleaving of awaited calls. Each effect is a method called in sequence, and the caller chooses the order.
- Numbers are integers. Floating point, `NaN`, and `Number(chainId)` on non-integer ids are not modelled.
- `toSignificant` balance formatting is left out: the formatted balance is an input.
- Key order in JavaScript objects is not modelled, because `Obj` is a map.
- SettingsChangedExactly: two nested objects with the same members in a different order serialise differently, and the model treats them as equal.
- Members inherited from prototypes (`"length"` of an array under `?.`, `toString`) are not modelled. Only own members are read.
- String lengths count Dafny characters, not UTF-16 code units. This matters only for symbols outside the Basic Multilingual Plane.
- JsValues.ToLower: lower-cases only the ASCII letters `A`-`Z`. JavaScript's `toLowerCase` applies full Unicode case mapping, which can change other letters and even the length. Its only use is comparing hex addresses, where the two agree.
- `.match` results are read as booleans. The regular expression is the parameter `isAddress`.
- Readiness.App.NetworkEffect: the source stores the `&&` value itself (an array or `null`); the model stores its truthiness.
- The redux store is modelled as a copy of the fetched record. The reducer is not part of this model.
- Readiness.App.DomainDataEffect: a favicon that is not a string is written as the parameter `toStr` renders it. For such a favicon, `FaviconSettles` does not guarantee there is no reload loop.
- Panel.ActiveNetworks: a `wpNetworkIds` that is not an array is not modelled.
- PanelInterface.InterfaceForm.NewListEffect: a nullish `tokenLists` makes the source throw; the model reads `undefined`.
- PanelInterface.InterfaceForm.FinishSave: the popup's `code` and the transaction summary added through `onHash` are not modelled.
- The contents shown inside the connection screen's panel and the wallet status widget are not modelled.
- The admin panel's sub-forms other than the interface form (contracts, migration, token lists editor) are not modelled.
- `src/hooks/useColor.ts` and the presentation and styling components are left out.
- `STORAGE_NETWORK_ID`, `SUPPORTED_NETWORKS` and `storageMethods` come from modules that are not part of this model. They are parameters.
- Lines 52-54 of `src/utils/app.ts` test `contracts` again after it was just set, so they never run. They are not modelled.
