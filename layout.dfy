/** The two pieces of view state of the dashboard layout: whether the mobile
    sidebar is open and whether the profile dropdown is open, and the click
    handlers that change them. */
module Layout {

  datatype Flags = Flags(sidebarOpen: bool, profileDropdownOpen: bool)

  /** The handlers that update the flags. */
  datatype Event =
    | MenuButton            // the hamburger button in the header
    | SidebarCloseButton    // the X button in the sidebar header
    | NavLinkClick          // a click on any navigation link
    | OverlayClick          // a click on the dimmed overlay behind the sidebar
    | ProfileButton         // the avatar button in the header
    | ProfileSettingsLink   // the "Profile Settings" entry of the dropdown

  predicate IsSidebarEvent(e: Event)
  {
    e.MenuButton? || e.SidebarCloseButton? || e.NavLinkClick? || e.OverlayClick?
  }

  /** The flags after one handler runs. Sidebar events set the sidebar flag
      (open for the menu button, closed otherwise) and leave the dropdown flag
      alone; dropdown events leave the sidebar flag alone, the avatar button
      negates the dropdown flag and the settings link clears it. */
  function Step(f: Flags, e: Event): (g: Flags)
    ensures IsSidebarEvent(e) ==>
      g.sidebarOpen == e.MenuButton? && g.profileDropdownOpen == f.profileDropdownOpen
    ensures !IsSidebarEvent(e) ==>
      g.sidebarOpen == f.sidebarOpen && g.profileDropdownOpen == (e.ProfileButton? && !f.profileDropdownOpen)
  {
    match e
    case MenuButton => f.(sidebarOpen := true)
    case SidebarCloseButton => f.(sidebarOpen := false)
    case NavLinkClick => f.(sidebarOpen := false)
    case OverlayClick => f.(sidebarOpen := false)
    case ProfileButton => f.(profileDropdownOpen := !f.profileDropdownOpen)
    case ProfileSettingsLink => f.(profileDropdownOpen := false)
  }

  /** Pressing the avatar button twice restores the flags. */
  lemma ProfileButtonTwice(f: Flags)
    ensures Step(Step(f, ProfileButton), ProfileButton) == f
  {
  }

  /** Whatever the starting state, every sidebar event but the menu button
      leaves the sidebar closed, and repeating a sidebar event changes nothing. */
  lemma SidebarEventsIdempotent(f: Flags, e: Event)
    requires IsSidebarEvent(e)
    ensures Step(Step(f, e), e) == Step(f, e)
    ensures !e.MenuButton? ==> !Step(f, e).sidebarOpen
  {
  }

  class DashboardLayout {
    var sidebarOpen: bool
    var profileDropdownOpen: bool

    function View(): Flags
      reads this
    {
      Flags(sidebarOpen, profileDropdownOpen)
    }

    /** Both panels start closed. */
    constructor ()
      ensures View() == Flags(false, false)
    {
      sidebarOpen := false;
      profileDropdownOpen := false;
    }

    method ClickMenuButton()
      modifies this
      ensures sidebarOpen && profileDropdownOpen == old(profileDropdownOpen)
      ensures View() == Step(old(View()), MenuButton)
    {
      sidebarOpen := true;
    }

    method ClickSidebarCloseButton()
      modifies this
      ensures !sidebarOpen && profileDropdownOpen == old(profileDropdownOpen)
      ensures View() == Step(old(View()), SidebarCloseButton)
    {
      sidebarOpen := false;
    }

    method ClickNavLink()
      modifies this
      ensures !sidebarOpen && profileDropdownOpen == old(profileDropdownOpen)
      ensures View() == Step(old(View()), NavLinkClick)
    {
      sidebarOpen := false;
    }

    /** The overlay is only rendered while the sidebar is open; the contract
        holds in any state. */
    method ClickOverlay()
      modifies this
      ensures !sidebarOpen && profileDropdownOpen == old(profileDropdownOpen)
      ensures View() == Step(old(View()), OverlayClick)
    {
      sidebarOpen := false;
    }

    method ClickProfileButton()
      modifies this
      ensures profileDropdownOpen == !old(profileDropdownOpen) && sidebarOpen == old(sidebarOpen)
      ensures View() == Step(old(View()), ProfileButton)
    {
      profileDropdownOpen := !profileDropdownOpen;
    }

    /** The link is only rendered while the dropdown is open; the contract
        holds in any state. */
    method ClickProfileSettingsLink()
      modifies this
      ensures !profileDropdownOpen && sidebarOpen == old(sidebarOpen)
      ensures View() == Step(old(View()), ProfileSettingsLink)
    {
      profileDropdownOpen := false;
    }
  }
}
