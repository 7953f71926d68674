/**
  The site header. On the home page ("/") it shows one button per page
  section, each bound to an optional scroll callback handed in by the page;
  elsewhere it shows a single link back home. It also owns the open/closed
  flag of the mobile menu and the scrolled flag that switches its
  background, and it flips the light/dark theme held by the theme store.
 */
module Header {
  import opened Wrappers

  /** The navigation targets a page may supply a callback for. */
  datatype NavItem = About | Experience | CaseStudies | Skills | Testimonials | Contact

  /** The two layouts of the navigation. */
  datatype Mode = HomeMode | OtherMode

  /** The controls of the navigation bar (and of the open mobile panel). */
  datatype Control = SectionButton(item: NavItem) | HomeLink | ThemeButton

  /** Scroll distance, in pixels, past which the header counts as scrolled. */
  const ScrollThreshold: real := 10.0

  /** Home mode holds exactly on the root path. */
  function ModeOf(pathname: string): (m: Mode)
    ensures m == HomeMode <==> pathname == "/"
  {
    if pathname == "/" then HomeMode else OtherMode
  }

  /** The home page's controls: a button per section, then the theme switch. */
  const HomeControls: seq<Control> :=
    [SectionButton(About), SectionButton(Experience), SectionButton(CaseStudies),
     SectionButton(Skills), SectionButton(Testimonials), SectionButton(Contact), ThemeButton]

  lemma SectionsListed()
    ensures forall item :: SectionButton(item) in HomeControls
  {
    forall item: NavItem
      ensures SectionButton(item) in HomeControls
    {
      match item
      case About =>
      case Experience =>
      case CaseStudies =>
      case Skills =>
      case Testimonials =>
      case Contact =>
    }
  }

  /**
    The controls shown in a mode: every section button on the home page and
    only the contact button elsewhere; the home link exactly off the home
    page; the theme switch always.
   */
  function Controls(m: Mode): (cs: seq<Control>)
    ensures forall item :: SectionButton(item) in cs <==> m == HomeMode || item == Contact
    ensures HomeLink in cs <==> m == OtherMode
    ensures ThemeButton in cs
  {
    match m
    case HomeMode =>
      SectionsListed();
      HomeControls
    case OtherMode =>
      [HomeLink, SectionButton(Contact), ThemeButton]
  }

  /**
    The callback a button is wired to: present only when the page handed in
    callbacks and one for this item among them.
   */
  function HandlerFor(onNavigate: Option<set<NavItem>>, item: NavItem): (h: Option<NavItem>)
    ensures h.Some? <==> onNavigate.Some? && item in onNavigate.value
    ensures h.Some? ==> h.value == item
  {
    if onNavigate.Some? && item in onNavigate.value then Some(item) else None
  }

  /** The theme after the switch is pressed: dark becomes light, anything else becomes dark. */
  function ToggledTheme(theme: string): (t: string)
    ensures t == "light" || t == "dark"
    ensures t == "light" <==> theme == "dark"
  {
    if theme == "dark" then "light" else "dark"
  }

  /** Pressing the switch twice restores the theme exactly when it was light or dark. */
  lemma ToggleThemeTwice(theme: string)
    ensures ToggledTheme(ToggledTheme(theme)) == theme <==> theme == "light" || theme == "dark"
  {
  }

  class Header {
    const pathname: string
    /** The callbacks the page supplied; None when the page passes no `onNavigate` at all. */
    const onNavigate: Option<set<NavItem>>
    var isMenuOpen: bool
    var isScrolled: bool
    /** The theme store's current value; the store itself lives outside the header. */
    var theme: string
    /** The callbacks invoked so far, oldest first: their scrolling happens outside the header. */
    var invoked: seq<NavItem>

    constructor (pathname: string, onNavigate: Option<set<NavItem>>, theme: string)
      ensures this.pathname == pathname && this.onNavigate == onNavigate && this.theme == theme
      ensures !isMenuOpen && !isScrolled && invoked == []
    {
      this.pathname := pathname;
      this.onNavigate := onNavigate;
      this.theme := theme;
      isMenuOpen := false;
      isScrolled := false;
      invoked := [];
    }

    /** The mobile panel and its controls, shown exactly while the menu is open. */
    function MobilePanel(): (panel: Option<seq<Control>>)
      reads this
      ensures panel.Some? <==> isMenuOpen
      ensures panel.Some? ==> panel.value == Controls(ModeOf(pathname))
    {
      if isMenuOpen then Some(Controls(ModeOf(pathname))) else None
    }

    /** The scroll listener: the header is scrolled exactly past the threshold, strictly. */
    method OnScroll(scrollY: real)
      modifies this
      ensures isScrolled <==> scrollY > ScrollThreshold
      ensures isMenuOpen == old(isMenuOpen) && theme == old(theme) && invoked == old(invoked)
    {
      isScrolled := scrollY > 10.0;
    }

    method ToggleMenu()
      modifies this
      ensures isMenuOpen == !old(isMenuOpen)
      ensures isScrolled == old(isScrolled) && theme == old(theme) && invoked == old(invoked)
    {
      isMenuOpen := !isMenuOpen;
    }

    method CloseMenu()
      modifies this
      ensures !isMenuOpen
      ensures isScrolled == old(isScrolled) && theme == old(theme) && invoked == old(invoked)
    {
      isMenuOpen := false;
    }

    /**
      With a callback: invoke it once, then close the menu. Without one:
      nothing happens, and an open menu stays open.
     */
    method HandleNavigation(handler: Option<NavItem>)
      modifies this
      ensures handler.Some? ==> invoked == old(invoked) + [handler.value] && !isMenuOpen
      ensures handler.None? ==> invoked == old(invoked) && isMenuOpen == old(isMenuOpen)
      ensures isScrolled == old(isScrolled) && theme == old(theme)
    {
      if handler.Some? {
        invoked := invoked + [handler.value];
        CloseMenu();
      }
    }

    /** A press on a section button (or the contact button): navigate through the page's callback, if any. */
    method PressSection(item: NavItem)
      modifies this
      ensures invoked == old(invoked) + (if onNavigate.Some? && item in onNavigate.value then [item] else [])
      ensures isMenuOpen == (old(isMenuOpen) && !(onNavigate.Some? && item in onNavigate.value))
      ensures isScrolled == old(isScrolled) && theme == old(theme)
    {
      HandleNavigation(HandlerFor(onNavigate, item));
    }

    /** The home link of the open mobile panel closes the menu; the route change is the router's. */
    method PressMobileHomeLink()
      modifies this
      ensures !isMenuOpen
      ensures isScrolled == old(isScrolled) && theme == old(theme) && invoked == old(invoked)
    {
      CloseMenu();
    }

    method ToggleTheme()
      modifies this
      ensures theme == ToggledTheme(old(theme))
      ensures isMenuOpen == old(isMenuOpen) && isScrolled == old(isScrolled) && invoked == old(invoked)
    {
      theme := if theme == "dark" then "light" else "dark";
    }
  }

  /** A client: two presses of the menu button restore the menu. */
  method ToggleMenuTwice(h: Header)
    modifies h
    ensures h.isMenuOpen == old(h.isMenuOpen)
  {
    h.ToggleMenu();
    h.ToggleMenu();
  }

  /**
    A client: on a page that passes no callbacks (the contact page, say),
    the contact button does nothing, even with the mobile menu open.
   */
  method ContactWithoutCallbacks(h: Header)
    requires h.onNavigate == None
    modifies h
    ensures h.invoked == old(h.invoked) && h.isMenuOpen == old(h.isMenuOpen)
  {
    h.PressSection(Contact);
  }
}
