/**
 * The navigation sidebar: a list of links chosen by the user's role, a collapse
 * switch reported to the parent, a mobile open switch, and a logo chosen by theme.
 */
module Sidebar {
  import opened Wrappers
  import opened Catalog
  import RecursoCrud

  /** A navigation link: its target and its text. */
  datatype NavItem = NavItem(to: string, text: string)

  const BaseItems: seq<NavItem> := [
    NavItem("/", "Inicio"),
    NavItem("/explorar", "Explorar"),
    NavItem("/profile", "Mi perfil"),
    NavItem("/profile", "Guardados")
  ]

  /** The link to the resource manager. */
  const ManagerItem := NavItem("/admin/recursos", "Gestor de Recursos")

  const FooterItems: seq<NavItem> := [
    NavItem("/ayuda", "Ayuda"),
    NavItem("/ajustes", "Ajustes")
  ]

  /** The role the sidebar uses: the user's role, else the stored one, else "visitante". */
  function EffectiveRol(user: Option<RecursoCrud.User>, stored: Option<string>): (r: string)
    ensures r != ""
    ensures RecursoCrud.RolOf(user).Some? ==> r == RecursoCrud.RolOf(user).value
    ensures RecursoCrud.RolOf(user).None? && Truthy(stored) ==> r == stored.value
    ensures RecursoCrud.RolOf(user).None? && !Truthy(stored) ==> r == "visitante"
  {
    var rol := RecursoCrud.RolOf(user);
    if rol.Some? then rol.value else if Truthy(stored) then stored.value else "visitante"
  }

  /** Teachers and administrators get the manager link. */
  predicate SeesManager(rol: string) {
    rol == "docente" || rol == "admin"
  }

  /** The base items, the manager link for teachers and administrators, then the footer. */
  function NavItems(rol: string): (r: seq<NavItem>)
    ensures |r| == if SeesManager(rol) then 7 else 6
    ensures r[..4] == BaseItems
    ensures r[|r| - 2..] == FooterItems
    ensures ManagerItem in r <==> SeesManager(rol)
  {
    var r := BaseItems + (if SeesManager(rol) then [ManagerItem] else []) + FooterItems;
    assert r[..4] == BaseItems;
    assert r[|r| - 2..] == FooterItems;
    r
  }

  /**
   * For a signed-in user with a role, the sidebar offers the manager to exactly the
   * users the manager page lets in.
   */
  lemma ManagerLinkMatchesAccess(user: Option<RecursoCrud.User>, stored: Option<string>)
    requires RecursoCrud.RolOf(user).Some?
    ensures ManagerItem in NavItems(EffectiveRol(user, stored)) <==> RecursoCrud.CanManage(RecursoCrud.RolOf(user))
  {
  }

  /** Without a user role, the stored role decides, and with neither the manager link is absent. */
  lemma VisitorSeesNoManager(user: Option<RecursoCrud.User>)
    requires RecursoCrud.RolOf(user).None?
    ensures ManagerItem !in NavItems(EffectiveRol(user, None))
    ensures |NavItems(EffectiveRol(user, None))| == 6
  {
  }

  const LogoLight := "/images/LogoMayorSearch.png"
  const LogoOther := "/images/LogoMayorSearch2.png"

  /** The logo file: one for the light theme, the other for every other theme. */
  function Logo(theme: string): (r: string)
    ensures r == LogoLight <==> theme == "light"
    ensures r == LogoOther <==> theme != "light"
  {
    if theme == "light" then LogoLight else LogoOther
  }

  /** The sidebar's state. */
  class SidebarState {
    var isMobileOpen: bool
    var isCollapsed: bool
    var navItems: seq<NavItem>

    constructor()
      ensures !isMobileOpen && !isCollapsed && navItems == []
    {
      isMobileOpen := false;
      isCollapsed := false;
      navItems := [];
    }

    /** The effect that runs when the user or the signed-in flag changes. */
    method RefreshItems(user: Option<RecursoCrud.User>, stored: Option<string>)
      modifies this
      ensures navItems == NavItems(EffectiveRol(user, stored))
      ensures isMobileOpen == old(isMobileOpen) && isCollapsed == old(isCollapsed)
    {
      var rol := RecursoCrud.RolOf(user);
      var userRol := if rol.Some? then rol.value else if Truthy(stored) then stored.value else "visitante";
      var adminItems := if userRol == "docente" || userRol == "admin" then [ManagerItem] else [];
      navItems := BaseItems + adminItems + FooterItems;
    }

    /** `toggleMobile`. */
    method ToggleMobile()
      modifies this
      ensures isMobileOpen == !old(isMobileOpen)
      ensures isCollapsed == old(isCollapsed) && navItems == old(navItems)
    {
      isMobileOpen := !isMobileOpen;
    }

    /**
     * `toggleCollapse`: flips the flag and returns the value handed to `onCollapse`,
     * or nothing when the parent gave no callback.
     */
    method ToggleCollapse(hasCallback: bool) returns (notified: Option<bool>)
      modifies this
      ensures isCollapsed == !old(isCollapsed)
      ensures notified == if hasCallback then Some(isCollapsed) else None
      ensures isMobileOpen == old(isMobileOpen) && navItems == old(navItems)
    {
      var newValue := !isCollapsed;
      isCollapsed := newValue;
      notified := if hasCallback then Some(newValue) else None;
    }
  }
}
