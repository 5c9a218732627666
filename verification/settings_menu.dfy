/**
  The settings menu of the swap widget (src/components/Settings/index.tsx): the menu
  flyout, the expert-mode switch with its confirmation dialog, and the single-hop switch.
  The store's `toggleExpertMode` is modelled as flipping the `expertMode` field, and
  `toggle` of the settings modal as flipping `menuOpen`.
 */
module SettingsMenu {

  class Menu {
    var menuOpen: bool
    var showConfirmation: bool
    var expertMode: bool
    var singleHopOnly: bool

    /** Line 149: the dialog starts closed; the flags come from the user store. */
    constructor(expert: bool, singleHop: bool)
      ensures !menuOpen && !showConfirmation && expertMode == expert && singleHopOnly == singleHop
    {
      menuOpen := false;
      showConfirmation := false;
      expertMode := expert;
      singleHopOnly := singleHop;
    }

    /** Line 194: the menu button flips the flyout. */
    method ToggleMenu()
      modifies this`menuOpen
      ensures menuOpen == !old(menuOpen)
    {
      menuOpen := !menuOpen;
    }

    /** Line 151: a click outside closes an open flyout and does nothing to a closed one. */
    method ClickOutside()
      modifies this`menuOpen
      ensures !menuOpen
    {
      if menuOpen {
        ToggleMenu();
      }
    }

    /** Lines 153-156: the flyout is flipped and the confirmation opens; expert mode is not touched. */
    method EnableExpertMode()
      modifies this`menuOpen, this`showConfirmation
      ensures menuOpen == !old(menuOpen) && showConfirmation
    {
      ToggleMenu();
      showConfirmation := true;
    }

    /** Lines 158-161: expert mode is flipped once and the confirmation closes. */
    method DisableExpertMode()
      modifies this`expertMode, this`showConfirmation
      ensures expertMode == !old(expertMode) && !showConfirmation
    {
      expertMode := !expertMode;
      showConfirmation := false;
    }

    /**
      Lines 230-236: the expert-mode switch turns expert mode off at once, and asks for
      confirmation before turning it on.
     */
    method ExpertToggle()
      modifies this`menuOpen, this`showConfirmation, this`expertMode
      ensures old(expertMode) ==> !expertMode && !showConfirmation && menuOpen == old(menuOpen)
      ensures !old(expertMode) ==> !expertMode && showConfirmation && menuOpen == !old(menuOpen)
    {
      if expertMode {
        DisableExpertMode();
      } else {
        EnableExpertMode();
      }
    }

    /** Lines 166 and 174: dismissing the dialog or its close icon leaves expert mode as it was. */
    method DismissConfirmation()
      modifies this`showConfirmation
      ensures !showConfirmation
    {
      showConfirmation := false;
    }

    /** Line 249: the single-hop switch sets the flag to its negation. */
    method SingleHopToggle()
      modifies this`singleHopOnly
      ensures singleHopOnly == !old(singleHopOnly)
    {
      singleHopOnly := if singleHopOnly then false else true;
    }

    /** Lines 196-202: the wizard badge on the menu button. */
    predicate WizardBadge()
      reads this
    {
      expertMode
    }
  }

  /**
    Turning expert mode on takes the switch and then the dialog's confirm button: the
    menu closes, expert mode is on, the dialog is closed and the badge shows.
   */
  method TurnOnExpertMode(menu: Menu)
    requires menu.menuOpen && !menu.expertMode
    modifies menu
    ensures menu.expertMode && menu.WizardBadge()
    ensures !menu.menuOpen && !menu.showConfirmation
    ensures menu.singleHopOnly == old(menu.singleHopOnly)
  {
    menu.ExpertToggle();
    menu.DisableExpertMode();
  }

  /** Backing out of the dialog leaves expert mode off. */
  method BackOutOfExpertMode(menu: Menu)
    requires menu.menuOpen && !menu.expertMode
    modifies menu
    ensures !menu.expertMode && !menu.WizardBadge()
    ensures !menu.menuOpen && !menu.showConfirmation
  {
    menu.ExpertToggle();
    menu.DismissConfirmation();
  }
}
