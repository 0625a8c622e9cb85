/** The sidebar provider of src/contexts/SidebarContext.tsx: one flag,
    expanded at first. */
module SidebarContext {
  class SidebarProvider {
    var isCollapsed: bool

    constructor ()
      ensures !isCollapsed
    {
      isCollapsed := false;
    }

    /** `toggleSidebar`. */
    method ToggleSidebar()
      modifies this
      ensures isCollapsed == !old(isCollapsed)
    {
      isCollapsed := !isCollapsed;
    }

    /** `setSidebarCollapsed`. */
    method SetSidebarCollapsed(collapsed: bool)
      modifies this
      ensures isCollapsed == collapsed
    {
      isCollapsed := collapsed;
    }
  }

  /** Toggling twice restores the flag, and setting it is idempotent. */
  method ToggleTwiceRestores(p: SidebarProvider, collapsed: bool) returns (afterToggles: bool, afterSets: bool)
    modifies p
    ensures afterToggles == old(p.isCollapsed)
    ensures afterSets == collapsed
  {
    p.ToggleSidebar();
    p.ToggleSidebar();
    afterToggles := p.isCollapsed;
    p.SetSidebarCollapsed(collapsed);
    p.SetSidebarCollapsed(collapsed);
    afterSets := p.isCollapsed;
  }
}
