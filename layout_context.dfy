// The layout context: whether each sidebar is open and which component the
// right sidebar shows. Each operation is a transition on `LayoutState`; the
// provider object applies them to its fields. Whether the screen is mobile
// comes from a window-size hook and is passed in where it is read.
module LayoutContext {
  import opened Wrappers

  /** A `ReactNode` shown in the right sidebar, named by the component it renders. */
  type Component = string

  datatype LayoutState = LayoutState(left: bool, right: bool, component: Option<Component>)

  /** `useState(false)` twice and `useState(null)`. */
  const Initial: LayoutState := LayoutState(false, false, None)

  /** The screen-size effect: desktop opens both sidebars, mobile closes both. */
  function ForScreen(s: LayoutState, isMobile: bool): (r: LayoutState)
    ensures r.left == !isMobile && r.right == !isMobile && r.component == s.component
  {
    s.(left := !isMobile, right := !isMobile)
  }

  /** The navigation effect: on mobile both sidebars close; on desktop nothing changes. */
  function OnNavigate(s: LayoutState, isMobile: bool): (r: LayoutState)
    ensures isMobile ==> !r.left && !r.right
    ensures !isMobile ==> r == s
    ensures r.component == s.component
  {
    if isMobile then s.(left := false, right := false) else s
  }

  function OpenLeft(s: LayoutState): (r: LayoutState)
    ensures r.left && !r.right && r.component == s.component
  {
    s.(right := false).(left := true)
  }

  function CloseLeft(s: LayoutState): (r: LayoutState)
    ensures !r.left && r.right == s.right && r.component == s.component
  {
    s.(left := false)
  }

  function OpenRight(s: LayoutState): (r: LayoutState)
    ensures r.right && !r.left && r.component == s.component
  {
    s.(left := false).(right := true)
  }

  function CloseRight(s: LayoutState): (r: LayoutState)
    ensures !r.right && r.left == s.left && r.component == s.component
  {
    s.(right := false)
  }

  function ToggleLeft(s: LayoutState): LayoutState
  {
    if s.left then CloseLeft(s) else OpenLeft(s)
  }

  function ToggleRight(s: LayoutState): LayoutState
  {
    if s.right then CloseRight(s) else OpenRight(s)
  }

  function SetRightSidebar(s: LayoutState, c: Component): (r: LayoutState)
    ensures r.component == Some(c) && r.left == s.left && r.right == s.right
  {
    s.(component := Some(c))
  }

  function SetRightSidebarAndOpen(s: LayoutState, c: Component): (r: LayoutState)
    ensures r.component == Some(c) && r.right && r.left == s.left
  {
    s.(component := Some(c), right := true)
  }

  function ClearRightSidebar(s: LayoutState): (r: LayoutState)
    ensures r.component.None? && !r.right && r.left == s.left
  {
    s.(component := None, right := false)
  }

  function OpenDefaultRightSidebar(s: LayoutState, c: Component, isMobile: bool): (r: LayoutState)
    ensures r.component == Some(c) && r.left == s.left
    ensures r.right == (s.right || !isMobile)
  {
    var withComponent := s.(component := Some(c));
    if !isMobile then withComponent.(right := true) else withComponent
  }

  // ---------------------------------------------------------------- properties

  /** A toggle flips its own sidebar; opening one sidebar closes the other. */
  lemma ToggleFlips(s: LayoutState)
    ensures ToggleLeft(s).left == !s.left && ToggleRight(s).right == !s.right
    ensures !s.left ==> !ToggleLeft(s).right
    ensures s.left ==> ToggleLeft(s).right == s.right
    ensures !s.right ==> !ToggleRight(s).left
    ensures s.right ==> ToggleRight(s).left == s.left
    ensures ToggleLeft(s).component == s.component && ToggleRight(s).component == s.component
  {
  }

  /** Toggling the left sidebar twice restores it, and always leaves the right one closed. */
  lemma ToggleLeftTwice(s: LayoutState)
    ensures ToggleLeft(ToggleLeft(s)).left == s.left
    ensures !ToggleLeft(ToggleLeft(s)).right
  {
  }

  /** Once any open or toggle operation has run, at most one sidebar is open, until the screen effect runs. */
  lemma OpenOperationsAreExclusive(s: LayoutState)
    ensures !(OpenLeft(s).left && OpenLeft(s).right)
    ensures !(OpenRight(s).left && OpenRight(s).right)
    ensures !(s.left && s.right) ==> !(ToggleLeft(s).left && ToggleLeft(s).right)
    ensures !(s.left && s.right) ==> !(ToggleRight(s).left && ToggleRight(s).right)
  {
  }

  /** On mobile the default sidebar is only stored, never shown. */
  lemma DefaultSidebarOnMobile(s: LayoutState, c: Component)
    requires !s.right
    ensures !OpenDefaultRightSidebar(s, c, true).right
    ensures OpenDefaultRightSidebar(s, c, false).right
  {
  }

  // ---------------------------------------------------------------- provider

  /** `LayoutProvider`'s state. */
  class LayoutProvider {
    var isLeftSidebarOpen: bool
    var isRightSidebarOpen: bool
    var rightSidebarComponent: Option<Component>

    function State(): LayoutState
      reads this
    {
      LayoutState(isLeftSidebarOpen, isRightSidebarOpen, rightSidebarComponent)
    }

    /** Both sidebars start closed, with no component. */
    constructor ()
      ensures State() == Initial
    {
      isLeftSidebarOpen := false;
      isRightSidebarOpen := false;
      rightSidebarComponent := None;
    }

    method InitializeForScreen(isMobile: bool)
      modifies this
      ensures State() == ForScreen(old(State()), isMobile)
    {
      if isMobile {
        isLeftSidebarOpen := false;
        isRightSidebarOpen := false;
      } else {
        isLeftSidebarOpen := true;
        isRightSidebarOpen := true;
      }
    }

    method LocationChanged(isMobile: bool)
      modifies this
      ensures State() == OnNavigate(old(State()), isMobile)
    {
      if isMobile {
        isLeftSidebarOpen := false;
        isRightSidebarOpen := false;
      }
    }

    method OpenLeftSidebar()
      modifies this
      ensures State() == OpenLeft(old(State()))
    {
      isRightSidebarOpen := false;
      isLeftSidebarOpen := true;
    }

    method CloseLeftSidebar()
      modifies this
      ensures State() == CloseLeft(old(State()))
    {
      isLeftSidebarOpen := false;
    }

    method OpenRightSidebar()
      modifies this
      ensures State() == OpenRight(old(State()))
    {
      isLeftSidebarOpen := false;
      isRightSidebarOpen := true;
    }

    method CloseRightSidebar()
      modifies this
      ensures State() == CloseRight(old(State()))
    {
      isRightSidebarOpen := false;
    }

    /** `toggleLeftSidebar`: through `closeLeftSidebar` or `openLeftSidebar`. */
    method ToggleLeftSidebar()
      modifies this
      ensures State() == ToggleLeft(old(State()))
    {
      if isLeftSidebarOpen {
        CloseLeftSidebar();
      } else {
        OpenLeftSidebar();
      }
    }

    method ToggleRightSidebar()
      modifies this
      ensures State() == ToggleRight(old(State()))
    {
      if isRightSidebarOpen {
        CloseRightSidebar();
      } else {
        OpenRightSidebar();
      }
    }

    method SetRightSidebarComponent(c: Component)
      modifies this
      ensures State() == SetRightSidebar(old(State()), c)
    {
      rightSidebarComponent := Some(c);
    }

    method SetRightSidebarComponentAndOpen(c: Component)
      modifies this
      ensures State() == SetRightSidebarAndOpen(old(State()), c)
    {
      rightSidebarComponent := Some(c);
      isRightSidebarOpen := true;
    }

    method ClearRightSidebarComponent()
      modifies this
      ensures State() == ClearRightSidebar(old(State()))
    {
      rightSidebarComponent := None;
      isRightSidebarOpen := false;
    }

    method OpenDefaultRightSidebarComponent(c: Component, isMobile: bool)
      modifies this
      ensures State() == OpenDefaultRightSidebar(old(State()), c, isMobile)
    {
      rightSidebarComponent := Some(c);
      if !isMobile {
        isRightSidebarOpen := true;
      }
    }
  }
}
