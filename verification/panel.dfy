/**
  The admin panel page (src/pages/Panel/index.tsx): the networks offered to the owner,
  the wrapped-token address of the wallet's chain, the tab bar and the reset
  confirmation. `SUPPORTED_NETWORKS`, `STORAGE_NETWORK_ID` and `networks.json` are
  parameters; `resetAppData` is a call whose outcome is a parameter.
 */
module Panel {
  import opened Options
  import opened JsValues
  import Readiness

  /** An entry of `SUPPORTED_NETWORKS`. */
  datatype Network = Network(chainId: nat, name: string)

  /** What the panel reads of the WordPress information: its `wpNetworkIds` list, when it has one. */
  datatype WordpressInfo = WordpressInfo(wpNetworkIds: Option<seq<JsValue>>)

  /**
    `networks.filter(({ chainId }) => ids.includes(chainId))`: a network is kept exactly
    when it is supported and its chain id is listed, in the original order.
   */
  function AllowedNetworks(networks: seq<Network>, ids: seq<JsValue>): (r: seq<Network>)
    ensures |r| <= |networks|
    ensures forall n :: n in r <==> n in networks && Num(n.chainId) in ids
  {
    if networks == [] then []
    else
      assert networks == [networks[0]] + networks[1..];
      (if Num(networks[0].chainId) in ids then [networks[0]] else []) + AllowedNetworks(networks[1..], ids)
  }

  /** Filtering keeps the original order: it distributes over concatenation. */
  lemma {:induction false} AllowedNetworksOrder(a: seq<Network>, b: seq<Network>, ids: seq<JsValue>)
    ensures AllowedNetworks(a + b, ids) == AllowedNetworks(a, ids) + AllowedNetworks(b, ids)
  {
    if a == [] {
      assert a + b == b;
    } else {
      var head := if Num(a[0].chainId) in ids then [a[0]] else [];
      assert (a + b)[0] == a[0];
      assert (a + b)[1..] == a[1..] + b;
      AllowedNetworksOrder(a[1..], b, ids);
      calc {
        AllowedNetworks(a + b, ids);
        head + AllowedNetworks(a[1..] + b, ids);
        head + (AllowedNetworks(a[1..], ids) + AllowedNetworks(b, ids));
        (head + AllowedNetworks(a[1..], ids)) + AllowedNetworks(b, ids);
      }
    }
  }

  /** When every supported chain is listed, nothing is filtered out. */
  lemma {:induction false} AllowedNetworksAll(networks: seq<Network>, ids: seq<JsValue>)
    requires forall i :: 0 <= i < |networks| ==> Num(networks[i].chainId) in ids
    ensures AllowedNetworks(networks, ids) == networks
  {
    if networks != [] {
      AllowedNetworksAll(networks[1..], ids);
    }
  }

  /**
    Lines 94-104: with no WordPress information, or no non-empty `wpNetworkIds`, every
    supported network is active; otherwise the listed ones are.
   */
  function ActiveNetworks(wordpress: Option<WordpressInfo>, supported: seq<Network>): (r: seq<Network>)
    ensures wordpress.None? || wordpress.value.wpNetworkIds.None? || wordpress.value.wpNetworkIds.value == [] ==>
              r == supported
    ensures wordpress.Some? && wordpress.value.wpNetworkIds.Some? && wordpress.value.wpNetworkIds.value != [] ==>
              r == AllowedNetworks(supported, wordpress.value.wpNetworkIds.value)
              && forall n :: n in r <==> n in supported && Num(n.chainId) in wordpress.value.wpNetworkIds.value
  {
    if wordpress.Some? && wordpress.value.wpNetworkIds.Some? && wordpress.value.wpNetworkIds.value != [] then
      AllowedNetworks(supported, wordpress.value.wpNetworkIds.value)
    else supported
  }

  /** A tab of the tab bar. */
  datatype Tab = Tab(tabKey: string, tabName: string)

  /** A rendered tab button. */
  datatype TabButton = TabButton(tab: Tab, active: bool)

  /** The keys of the contents the page can show, in order (lines 171-189). */
  const CONTENT_KEYS: seq<string> := ["contracts", "interface", "migration"]

  /**
    Lines 171-190: each content is rendered when the current tab equals its key, so at
    most one is, and it is the current tab's own content.
   */
  function Contents(tab: string): (shown: seq<string>)
    ensures tab in CONTENT_KEYS ==> shown == [tab]
    ensures tab !in CONTENT_KEYS ==> shown == []
  {
    (if tab == "contracts" then ["contracts"] else [])
    + (if tab == "interface" then ["interface"] else [])
    + (if tab == "migration" then ["migration"] else [])
  }

  class PanelPage {
    /** Whether a contract call of the panel or of one of its forms is under way. */
    var pending: bool
    var activeNetworks: seq<Network>
    var wrappedToken: JsValue
    var tab: string
    var showConfirm: bool

    /** The state on first render (lines 87, 92, 106, 115-116). */
    constructor()
      ensures !pending && activeNetworks == [] && wrappedToken == Str("") && tab == "contracts" && !showConfirm
    {
      pending := false;
      activeNetworks := [];
      wrappedToken := Str("");
      tab := "contracts";
      showConfirm := false;
    }

    /** Lines 94-104. */
    method NetworksEffect(wordpress: Option<WordpressInfo>, supported: seq<Network>)
      modifies this`activeNetworks
      ensures activeNetworks == ActiveNetworks(wordpress, supported)
    {
      if wordpress.Some? {
        var ids := wordpress.value.wpNetworkIds;
        activeNetworks := if ids.Some? && ids.value != [] then AllowedNetworks(supported, ids.value) else supported;
      } else {
        activeNetworks := supported;
      }
    }

    /**
      Lines 108-113: on a truthy chain id the wrapped-token address is read from the
      networks table through optional chaining (undefined when any step is missing);
      otherwise it is left as it was.
     */
    method WrappedTokenEffect(chainId: Option<nat>, networksTable: JsValue)
      modifies this`wrappedToken
      ensures chainId.Some? && chainId.value != 0 ==>
                wrappedToken == Get(Get(Index(networksTable, chainId.value), "wrappedToken"), "address")
      ensures chainId.None? || chainId.value == 0 ==> wrappedToken == old(wrappedToken)
    {
      if chainId.Some? && chainId.value != 0 {
        wrappedToken := Get(Get(Index(networksTable, chainId.value), "wrappedToken"), "address");
      }
    }

    /** A tab button's click (line 138). */
    method SelectTab(key: string)
      modifies this`tab
      ensures tab == key
    {
      tab := key;
    }

    /** The reset button of the panel header opens the confirmation. */
    method RequestReset()
      modifies this`showConfirm
      ensures showConfirm
    {
      showConfirm := true;
    }

    /** Line 149: dismissing the confirmation closes it. */
    method DismissConfirm()
      modifies this`showConfirm
      ensures !showConfirm
    {
      showConfirm := false;
    }

    /**
      Lines 118-124: the confirmation closes first; the trigger of the shell is flipped only
      after `resetAppData` has completed. When it throws (`resetSucceeds` false) the
      trigger is left.
     */
    method ResetData(app: Readiness.App, resetSucceeds: bool) returns (threw: bool)
      modifies this`showConfirm, app`domainDataTrigger
      ensures !showConfirm
      ensures threw <==> !resetSucceeds
      ensures app.domainDataTrigger == (if resetSucceeds then !old(app.domainDataTrigger) else old(app.domainDataTrigger))
    {
      showConfirm := false;
      if !resetSucceeds {
        return true;
      }
      app.FlipDomainDataTrigger();
      threw := false;
    }

    /**
      Lines 126-143: the contracts and interface tabs, then the migration tab on the
      storage network; a button is active exactly when its key is the current tab.
     */
    method ReturnTabs(chainId: Option<nat>, storageNetworkId: nat) returns (buttons: seq<TabButton>)
      ensures |buttons| == (if chainId == Some(storageNetworkId) then 3 else 2)
      ensures buttons[0].tab.tabKey == "contracts" && buttons[1].tab.tabKey == "interface"
      ensures |buttons| == 3 ==> buttons[2].tab.tabKey == "migration"
      ensures forall i :: 0 <= i < |buttons| ==> (buttons[i].active <==> buttons[i].tab.tabKey == tab)
      ensures forall i, j :: 0 <= i < j < |buttons| && buttons[i].active && buttons[j].active ==> false
    {
      var tabs := [Tab("contracts", "swapContracts"), Tab("interface", "interface")];
      if chainId == Some(storageNetworkId) {
        tabs := tabs + [Tab("migration", "migration")];
      }
      var current := tab;
      buttons := seq(|tabs|, i requires 0 <= i < |tabs| => TabButton(tabs[i], tabs[i].tabKey == current));
    }
  }

  /**
    The content follows the tab, not the tab bar: a migration tab selected on the storage
    network keeps its content shown after the wallet moves to another chain, although the
    tab bar no longer offers it.
   */
  method MigrationOutlivesItsTab(storageNetworkId: nat, otherChain: nat) returns (buttons: seq<TabButton>, shown: seq<string>)
    requires otherChain != storageNetworkId
    ensures forall i :: 0 <= i < |buttons| ==> buttons[i].tab.tabKey != "migration"
    ensures shown == ["migration"]
  {
    var page := new PanelPage();
    var before := page.ReturnTabs(Some(storageNetworkId), storageNetworkId);
    page.SelectTab(before[2].tab.tabKey);
    buttons := page.ReturnTabs(Some(otherChain), storageNetworkId);
    shown := Contents(page.tab);
  }
}
