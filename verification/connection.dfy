/**
  The screen shown while the application is not usable (src/pages/Connection.tsx): the
  admin check of the connected account, the wallet modal it opens, and which of its
  three views it renders. `SUPPORTED_NETWORKS` is given as its `length` property (a
  JavaScript value, absent on a keyed object) and its values in order.
 */
module ConnectionGate {
  import opened Options
  import opened JsValues
  import opened AppSettings
  import Panel

  /**
    Line 98: the account is the admin when the stored admin is not the zero address and
    the two agree ignoring letter case; with no account connected the comparison is with
    `undefined` and fails.
   */
  predicate IsAdminAccount(admin: string, account: Option<string>)
  {
    admin != ZERO_ADDRESS && account.Some? && ToLower(admin) == ToLower(account.value)
  }

  /** The admin check depends on neither spelling's letter case. */
  lemma IsAdminAccountIgnoresCase(admin: string, account: string)
    requires admin != ZERO_ADDRESS && ToLower(admin) != ZERO_ADDRESS
    ensures IsAdminAccount(admin, Some(account)) <==> IsAdminAccount(ToLower(admin), Some(ToLower(account)))
  {
    ToLowerIdempotent(admin);
    ToLowerIdempotent(account);
  }

  /**
    The zero-address guard compares the stored spelling exactly, so case independence
    fails there: an admin stored as a differently-cased spelling of the zero address (an
    upper-case `0X` prefix, say) passes the guard and admits the zero-address account,
    while its lower-cased spelling admits nobody.
   */
  lemma CaseVariantOfZeroAdmitted(admin: string)
    requires admin != ZERO_ADDRESS && ToLower(admin) == ZERO_ADDRESS
    ensures IsAdminAccount(admin, Some(ZERO_ADDRESS))
    ensures !IsAdminAccount(ToLower(admin), Some(ZERO_ADDRESS))
  {
    ToLowerIdempotent(admin);
  }

  /** The zero address never owns the application, whoever is connected. */
  lemma ZeroAdminNobody(account: Option<string>)
    ensures !IsAdminAccount(ZERO_ADDRESS, account)
  {
  }

  /**
    Lines 120-131: `length && (list)`. A truthy length shows the list; a length of zero is
    rendered as the text "0"; any other falsy length renders nothing.
   */
  datatype Listing = NetworkList(networks: seq<Panel.Network>) | ZeroText | NoListing

  /** The three views of lines 103-147. */
  datatype GateView =
    | PanelView
    | NotReadyYet
    | UnsupportedNetwork(listing: Listing)
    | ConnectWallet

  function NetworksListing(networksLength: JsValue, networks: seq<Panel.Network>): (l: Listing)
    ensures l.NetworkList? <==> Truthy(networksLength)
    ensures l.NetworkList? ==> l.networks == networks
    ensures l.ZeroText? <==> networksLength == Num(0)
  {
    if Truthy(networksLength) then NetworkList(networks)
    else if networksLength == Num(0) then ZeroText
    else NoListing
  }

  /**
    Lines 103-147: a required setup shows the panel to the admin and a notice to anyone
    else; otherwise an unusable network shows the supported ones, and a usable one asks
    for a wallet.
   */
  function View(isAvailableNetwork: bool, isSetupRequired: bool, isAdmin: bool,
                networksLength: JsValue, networks: seq<Panel.Network>): (v: GateView)
    ensures v.PanelView? <==> isSetupRequired && isAdmin
    ensures v.NotReadyYet? <==> isSetupRequired && !isAdmin
    ensures v.UnsupportedNetwork? <==> !isSetupRequired && !isAvailableNetwork
    ensures v.UnsupportedNetwork? ==> v.listing == NetworksListing(networksLength, networks)
    ensures v.ConnectWallet? <==> !isSetupRequired && isAvailableNetwork
  {
    if isSetupRequired then (if isAdmin then PanelView else NotReadyYet)
    else if !isAvailableNetwork then UnsupportedNetwork(NetworksListing(networksLength, networks))
    else ConnectWallet
  }

  /** With `SUPPORTED_NETWORKS` keyed by chain id, it has no `length`, and no network is listed. */
  lemma KeyedNetworksNeverListed(table: map<string, JsValue>, networks: seq<Panel.Network>)
    requires "length" !in table
    ensures View(false, false, false, Get(Obj(table), "length"), networks) == UnsupportedNetwork(NoListing)
  {
  }

  class ConnectionScreen {
    var isAdmin: bool
    var walletModalOpen: bool

    /** Line 94. */
    constructor()
      ensures !isAdmin && !walletModalOpen
    {
      isAdmin := false;
      walletModalOpen := false;
    }

    /** Lines 88-92: on a usable network that needs no setup the wallet modal is opened; it is never closed here. */
    method ModalEffect(isAvailableNetwork: bool, isSetupRequired: bool)
      modifies this`walletModalOpen
      ensures walletModalOpen <==> old(walletModalOpen) || (isAvailableNetwork && !isSetupRequired)
    {
      if isAvailableNetwork && !isSetupRequired {
        walletModalOpen := true;
      }
    }

    /** Lines 97-99. */
    method AdminEffect(admin: string, account: Option<string>)
      modifies this`isAdmin
      ensures isAdmin == IsAdminAccount(admin, account)
    {
      var sameAccount := false;
      if account.Some? {
        sameAccount := ToLower(admin) == ToLower(account.value);
      }
      isAdmin := admin != ZERO_ADDRESS && sameAccount;
    }

    function Render(isAvailableNetwork: bool, isSetupRequired: bool, networksLength: JsValue,
                    networks: seq<Panel.Network>): GateView
      reads this
    {
      View(isAvailableNetwork, isSetupRequired, isAdmin, networksLength, networks)
    }
  }

  /**
    The wallet modal opens exactly on the view that asks for a wallet: the effect and the
    render agree on when a wallet is wanted.
   */
  method ModalOnlyWithConnectView(isAvailableNetwork: bool, isSetupRequired: bool, admin: string,
                                  account: Option<string>, networksLength: JsValue, networks: seq<Panel.Network>)
    returns (modalOpen: bool, v: GateView)
    ensures modalOpen <==> v.ConnectWallet?
    ensures v.PanelView? ==> IsAdminAccount(admin, account)
  {
    var screen := new ConnectionScreen();
    screen.ModalEffect(isAvailableNetwork, isSetupRequired);
    screen.AdminEffect(admin, account);
    modalOpen := screen.walletModalOpen;
    v := screen.Render(isAvailableNetwork, isSetupRequired, networksLength, networks);
  }
}
