/**
  The application shell's readiness controller (src/app/index.tsx).

  The shell holds a handful of flags that its effects update: whether the domain's
  settings are still loading, the settings snapshot, whether the wallet's network is
  usable, whether the owner still has to set the exchange up, whether the greeting screen
  is active and whether the exchange is ready. Each effect body is a method; React
  decides when they run, so the order in which they are called is left to the caller.
  `Screen` picks what is rendered from the flags.

  `EVM_ADDRESS_REGEXP` and `SUPPORTED_CHAIN_IDS` come from a module that is not part of
  this model: they are the parameters `isAddress` and `supported`. The browser's
  `localStorage` favicon entry is the field `faviconCache`, and each
  `window.location.reload()` adds one to `reloads`.
 */
module Readiness {
  import opened Options
  import opened JsValues
  import opened AppSettings

  /** The branches of the shell's render. */
  datatype View =
    | Loader
    | AdminPanel
    | MainApp
    | Greeting
    | Connection(isAvailableNetwork: bool, isSetupRequired: bool)

  /**
    `v?.match(EVM_ADDRESS_REGEXP)` read as a boolean: `None` when the call throws, which it
    does for a value that is neither nullish nor a string (it has no `match` method).
   */
  function AddressMatch(v: JsValue, isAddress: string -> bool): (r: Option<bool>)
    ensures r.None? <==> !Nullish(v) && !v.Str?
    ensures r == Some(true) <==> v.Str? && isAddress(v.s)
  {
    if Nullish(v) then Some(false)
    else if v.Str? then Some(isAddress(v.s))
    else None
  }

  /**
    `validateAddress(v)` (line 39), `v && v.match(EVM_ADDRESS_REGEXP)`, read as a boolean:
    a falsy value is not an address; `None` when `match` throws on a truthy non-string.
   */
  function ValidateAddress(v: JsValue, isAddress: string -> bool): (r: Option<bool>)
    ensures r.None? <==> Truthy(v) && !v.Str?
    ensures r == Some(true) <==> v.Str? && v.s != "" && isAddress(v.s)
  {
    if !Truthy(v) then Some(false)
    else if v.Str? then Some(isAddress(v.s))
    else None
  }

  /**
    Lines 118-120: whether the settings name a factory and a router address for the
    chain. The router is only looked at when the factory matched; `None` when a lookup
    or a `match` throws.
   */
  function ChainUsable(contracts: JsValue, chainId: nat, isAddress: string -> bool): (r: Option<bool>)
    ensures r == Some(true) <==>
              && !Nullish(contracts)
              && var entry := Index(contracts, chainId);
              && Get(entry, "factory").Str? && isAddress(Get(entry, "factory").s)
              && Get(entry, "router").Str? && isAddress(Get(entry, "router").s)
    ensures r.None? ==> !Nullish(contracts) ==> !Nullish(Index(contracts, chainId))
  {
    if Nullish(contracts) then None
    else
      var entry := Index(contracts, chainId);
      var factory := if Nullish(entry) then Undefined else Get(entry, "factory");
      var router := if Nullish(entry) then Undefined else Get(entry, "router");
      if AddressMatch(factory, isAddress) != Some(true) then AddressMatch(factory, isAddress)
      else AddressMatch(router, isAddress)
  }

  /** What the favicon effect does with the browser's cached favicon entry. */
  datatype FaviconAction = Write(url: JsValue) | Remove | Keep

  /** `favicon !== localStorage.getItem('faviconUrl')` fails: the cache holds exactly this favicon. */
  predicate CachedAs(favicon: JsValue, cache: Option<string>)
  {
    cache.Some? && favicon == Str(cache.value)
  }

  /**
    Lines 107-113: a non-empty favicon that differs from the cached entry is written; once
    loading is over, a cached entry with no favicon left is removed. Either way the page reloads.
   */
  function FaviconStep(favicon: JsValue, loading: bool, cache: Option<string>): (a: FaviconAction)
    ensures a.Write? <==> Truthy(favicon) && !CachedAs(favicon, cache)
    ensures a.Write? ==> a.url == favicon
    ensures a == Remove <==> !loading && !Truthy(favicon) && cache.Some? && cache.value != ""
    // An equal favicon causes no reload.
    ensures CachedAs(favicon, cache) ==> a == Keep
  {
    if Truthy(favicon) && !CachedAs(favicon, cache) then Write(favicon)
    else if !loading && !Truthy(favicon) && cache.Some? && cache.value != "" then Remove
    else Keep
  }

  /** The cache after an action; `localStorage` stores the string form `toStr` of the value. */
  function CacheAfter(cache: Option<string>, a: FaviconAction, toStr: JsValue -> string): Option<string>
  {
    match a
    case Write(url) => Some(if url.Str? then url.s else toStr(url))
    case Remove => None
    case Keep => cache
  }

  /** A string favicon settles: after one step (and its reload) the next step keeps the cache. */
  lemma FaviconSettles(favicon: JsValue, loading: bool, cache: Option<string>, toStr: JsValue -> string)
    requires favicon.Str? || !Truthy(favicon)
    ensures FaviconStep(favicon, loading, CacheAfter(cache, FaviconStep(favicon, loading, cache), toStr)) == Keep
  {
  }

  class App {
    var isAppDataLoading: bool
    var domainData: Option<Settings>
    var isAvailableNetwork: bool
    var isSetupRequired: bool
    var greetingScreenIsActive: bool
    var appIsReady: bool
    var domainDataTrigger: bool
    /** The application state slice the shell reads through `useAppState` (admin, factory, router, pairHash). */
    var store: Settings
    var faviconCache: Option<string>
    var reloads: nat

    /** The state on first render (lines 77, 79, 97-99, 126, 157). */
    constructor(initialStore: Settings, cachedFavicon: Option<string>)
      ensures isAppDataLoading && domainData.None?
      ensures isAvailableNetwork && !isSetupRequired && !greetingScreenIsActive && !appIsReady
      ensures !domainDataTrigger && store == initialStore
      ensures faviconCache == cachedFavicon && reloads == 0
    {
      isAppDataLoading := true;
      domainData := None;
      isAvailableNetwork := true;
      isSetupRequired := false;
      greetingScreenIsActive := false;
      appIsReady := false;
      domainDataTrigger := false;
      store := initialStore;
      faviconCache := cachedFavicon;
      reloads := 0;
    }

    /**
      `setDomainDataTrigger((state) => !state)`: the shell flips the trigger on every change
      of chain (lines 93-95); the admin panel flips it after a reset.
     */
    method FlipDomainDataTrigger()
      modifies this`domainDataTrigger
      ensures domainDataTrigger == !old(domainDataTrigger)
    {
      domainDataTrigger := !domainDataTrigger;
    }

    /** The snapshot's favicon, `domainData?.favicon`. */
    function Favicon(): JsValue
      reads this
    {
      if domainData.Some? then domainData.value.favicon else Undefined
    }

    /**
      Lines 101-114: the greeting is active exactly when there is no snapshot or it has no
      admin; the favicon cache follows `FaviconStep`, and every change to it reloads the page.
     */
    method DomainDataEffect(toStr: JsValue -> string)
      modifies this`greetingScreenIsActive, this`faviconCache, this`reloads
      ensures greetingScreenIsActive <==> domainData.None? || domainData.value.admin == ""
      ensures faviconCache == CacheAfter(old(faviconCache), FaviconStep(Favicon(), isAppDataLoading, old(faviconCache)), toStr)
      ensures reloads == old(reloads) + (if FaviconStep(Favicon(), isAppDataLoading, old(faviconCache)) == Keep then 0 else 1)
    {
      greetingScreenIsActive := domainData.None? || domainData.value.admin == "";
      var favicon := Favicon();
      var cached := faviconCache;
      if Truthy(favicon) && !(cached.Some? && favicon == Str(cached.value)) {
        faviconCache := Some(if favicon.Str? then favicon.s else toStr(favicon));
        reloads := reloads + 1;
      } else if !isAppDataLoading && !Truthy(favicon) && cached.Some? && cached.value != "" {
        faviconCache := None;
        reloads := reloads + 1;
      }
    }

    /**
      Lines 116-124: with a truthy chain id and a snapshot, the network is available exactly
      when the chain is supported and the snapshot names a factory and a router address
      for it. `threw` when a lookup or a `match` throws; the flag is then unchanged.
     */
    method NetworkEffect(chainId: Option<nat>, supported: set<nat>, isAddress: string -> bool) returns (threw: bool)
      modifies this`isAvailableNetwork
      ensures (chainId.None? || chainId.value == 0 || domainData.None?) ==> !threw && isAvailableNetwork == old(isAvailableNetwork)
      ensures chainId.Some? && chainId.value != 0 && domainData.Some? ==>
                && (threw <==> ChainUsable(domainData.value.contracts, chainId.value, isAddress).None?)
                && (threw ==> isAvailableNetwork == old(isAvailableNetwork))
                && (!threw ==>
                      (isAvailableNetwork <==>
                         chainId.value in supported && ChainUsable(domainData.value.contracts, chainId.value, isAddress) == Some(true)))
    {
      threw := false;
      if chainId.Some? && chainId.value != 0 && domainData.Some? {
        var usable := ChainUsable(domainData.value.contracts, chainId.value, isAddress);
        if usable.None? {
          threw := true;
          return;
        }
        isAvailableNetwork := chainId.value in supported && usable.value;
      }
    }

    /** Lines 129-131: admin, factory and router all pass `validateAddress`; `None` when one of the checks throws. */
    function EnoughData(isAddress: string -> bool): (r: Option<bool>)
      reads this
      ensures r == Some(true) <==>
                store.admin != "" && isAddress(store.admin)
                && store.factory.Str? && store.factory.s != "" && isAddress(store.factory.s)
                && store.router.Str? && store.router.s != "" && isAddress(store.router.s)
    {
      var admin := ValidateAddress(Str(store.admin), isAddress);
      var factory := ValidateAddress(store.factory, isAddress);
      if admin != Some(true) then admin
      else if factory != Some(true) then factory
      else ValidateAddress(store.router, isAddress)
    }

    /**
      Lines 126-134: once loading is over, missing or malformed admin, factory or router
      addresses make setup required. Nothing ever sets the flag back to false.
     */
    method SetupEffect(isAddress: string -> bool) returns (threw: bool)
      modifies this`isSetupRequired
      ensures threw <==> !isAppDataLoading && EnoughData(isAddress).None?
      ensures isSetupRequired <==> old(isSetupRequired) || (!isAppDataLoading && EnoughData(isAddress) == Some(false))
      ensures old(isSetupRequired) ==> isSetupRequired
    {
      threw := false;
      if !isAppDataLoading {
        var enough := EnoughData(isAddress);
        if enough.None? {
          threw := true;
          return;
        }
        if !enough.value {
          isSetupRequired := true;
        }
      }
    }


    /**
      Lines 141-148: a completed fetch. A result replaces the store and the snapshot; no
      result (the storage read failed) leaves them. Loading ends either way.
     */
    method CompleteFetch(data: Option<Settings>)
      modifies this`store, this`domainData, this`isAppDataLoading
      ensures !isAppDataLoading
      ensures data.Some? ==> store == data.value && domainData == data
      ensures data.None? ==> store == old(store) && domainData == old(domainData)
    {
      if data.Some? {
        store := data.value;
        domainData := data;
      }
      isAppDataLoading := false;
    }

    /**
      Lines 136-155: the fetch of the domain's settings starts only with a storage contract
      and no pair-code hash in the store; a started fetch completes with `data` (`None` when
      the storage read failed). Without a start, nothing changes and loading goes on.
     */
    method FetchEffect(hasStorage: bool, data: Option<Settings>) returns (started: bool)
      modifies this`store, this`domainData, this`isAppDataLoading
      ensures started <==> hasStorage && !Truthy(old(store.pairHash))
      ensures started ==> !isAppDataLoading && store == (if data.Some? then data.value else old(store))
                          && domainData == (if data.Some? then data else old(domainData))
      ensures !started ==> store == old(store) && domainData == old(domainData) && isAppDataLoading == old(isAppDataLoading)
    {
      started := false;
      if !hasStorage {
        return;
      }
      if !Truthy(store.pairHash) {
        started := true;
        CompleteFetch(data);
      }
    }

    /** Lines 157-161: ready exactly when the wallet is active and admin, factory and router are all non-empty. */
    method ReadyEffect(active: bool)
      modifies this`appIsReady
      ensures appIsReady <==> active && store.admin != "" && Truthy(store.factory) && Truthy(store.router)
    {
      appIsReady := active && store.admin != "" && Truthy(store.factory) && Truthy(store.router);
    }

    /**
      Lines 178-231: the loader while loading; then the admin panel or the exchange when the
      exchange is ready on an available network, `appManagement` choosing between them; then
      the greeting; then the connection screen.
     */
    function Screen(appManagement: bool): (v: View)
      reads this
      ensures v == Loader <==> isAppDataLoading
      ensures v == AdminPanel <==> !isAppDataLoading && appIsReady && isAvailableNetwork && appManagement
      ensures v == MainApp <==> !isAppDataLoading && appIsReady && isAvailableNetwork && !appManagement
      ensures v == Greeting <==> !isAppDataLoading && !(appIsReady && isAvailableNetwork) && greetingScreenIsActive
      ensures v.Connection? ==> v == Connection(isAvailableNetwork, isSetupRequired)
    {
      if isAppDataLoading then Loader
      else if appIsReady && isAvailableNetwork then (if appManagement then AdminPanel else MainApp)
      else if greetingScreenIsActive then Greeting
      else Connection(isAvailableNetwork, isSetupRequired)
    }
  }

  /**
    The first load of a domain whose settings are complete: the storage read returns a
    snapshot with an admin address and factory and router addresses for the wallet's
    supported chain. After the effects have run, the exchange is shown, and the admin
    panel when management is switched on.
   */
  method BootWithCompleteSettings(initialStore: Settings, cache: Option<string>, data: Settings, chainId: nat,
                                  supported: set<nat>, isAddress: string -> bool, toStr: JsValue -> string)
    returns (v: View, managed: View)
    requires chainId != 0 && chainId in supported
    requires data.admin != "" && isAddress(data.admin)
    requires Index(data.contracts, chainId) != Undefined && !Nullish(data.contracts)
    requires data.factory == Get(Index(data.contracts, chainId), "factory")
    requires data.router == Get(Index(data.contracts, chainId), "router")
    requires data.factory.Str? && data.factory.s != "" && isAddress(data.factory.s)
    requires data.router.Str? && data.router.s != "" && isAddress(data.router.s)
    ensures v == MainApp && managed == AdminPanel
  {
    var app := new App(initialStore, cache);
    app.CompleteFetch(Some(data));
    app.DomainDataEffect(toStr);
    var networkThrew := app.NetworkEffect(Some(chainId), supported, isAddress);
    var setupThrew := app.SetupEffect(isAddress);
    app.ReadyEffect(true);
    v := app.Screen(false);
    managed := app.Screen(true);
  }

  /**
    A failed storage read still ends loading (lines 141-148) and leaves no snapshot, so
    the greeting is active and the network effect has nothing to check. After the mount
    effects (lines 116-161), what is shown depends only on the store the shell started
    with: the greeting, management or not, unless the wallet is active and that store
    already names an admin, a factory and a router, in which case the exchange is shown.
    A store still at its empty default therefore always leads to the greeting.
   */
  method BootWithFailedRead(initialStore: Settings, cache: Option<string>, chainId: Option<nat>, active: bool,
                            supported: set<nat>, isAddress: string -> bool, toStr: JsValue -> string)
    returns (v: View, managed: View)
    ensures var readyBefore := active && initialStore.admin != "" && Truthy(initialStore.factory) && Truthy(initialStore.router);
            (!readyBefore ==> v == Greeting && managed == Greeting)
            && (readyBefore ==> v == MainApp && managed == AdminPanel)
    ensures initialStore.admin == "" ==> v == Greeting && managed == Greeting
  {
    var app := new App(initialStore, cache);
    app.CompleteFetch(None);
    app.DomainDataEffect(toStr);
    var networkThrew := app.NetworkEffect(chainId, supported, isAddress);
    var setupThrew := app.SetupEffect(isAddress);
    app.ReadyEffect(active);
    v := app.Screen(false);
    managed := app.Screen(true);
  }
}
