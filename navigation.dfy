/**
 * Model of www/js/components/navigation.js: the collapsible main menu.
 *
 * The two elements the handlers touch are abstracted to plain data: the
 * `aria-expanded` attribute of `.menu-toggle` (absent or a string) and the
 * class set of `.main-nav`.  The two click listeners become the operations
 * `OnToggleClick` and `OnNavListClick` of the class `Menu`.
 */
module Navigation {
  import opened Wrappers

  /** The class that marks the menu as open. */
  const Active := "active"

  /** Which of the elements `setupNavigation` queries are present in the page. */
  datatype Markup = Markup(hasMenuToggle: bool, hasNavList: bool)

  /**
   * What `setupNavigation` achieves: the listeners it registers, and whether it
   * throws (calling `addEventListener` on a missing element is a TypeError).
   */
  datatype Registration = Registration(toggleListener: bool, linkListener: bool, threw: bool)

  /** The state the two handlers read and write. */
  datatype MenuState = MenuState(expanded: Option<string>, navClasses: set<string>)

  /** `getAttribute('aria-expanded') === 'true'`. */
  predicate IsExpanded(s: MenuState) {
    s.expanded == Some("true")
  }

  /** The invariant both handlers keep: the attribute says "true" exactly when the menu has `active`. */
  predicate Consistent(s: MenuState) {
    IsExpanded(s) <==> Active in s.navClasses
  }

  /**
   * Registration as `setupNavigation` performs it: the toggle listener first,
   * then the nav-list listener; a missing element stops it with an exception.
   */
  function SetupNavigation(m: Markup): (r: Registration)
    ensures r.toggleListener <==> m.hasMenuToggle
    ensures r.linkListener <==> m.hasMenuToggle && m.hasNavList
    ensures r.threw <==> !(m.hasMenuToggle && m.hasNavList)
  {
    if !m.hasMenuToggle then Registration(false, false, true)
    else if !m.hasNavList then Registration(true, false, true)
    else Registration(true, true, false)
  }

  /** The effect of one click on `.menu-toggle`. */
  function Toggled(s: MenuState): (r: MenuState)
    ensures r.expanded == Some("false") <==> IsExpanded(s)
    ensures r.expanded == Some("true") <==> !IsExpanded(s)
    ensures Active in r.navClasses <==> Active !in s.navClasses
    ensures r.navClasses - {Active} == s.navClasses - {Active}
    ensures Consistent(s) ==> Consistent(r)
  {
    var wasExpanded := s.expanded == Some("true");
    MenuState(Some(if wasExpanded then "false" else "true"),
              if Active in s.navClasses then s.navClasses - {Active} else s.navClasses + {Active})
  }

  /** The effect of one click inside `.nav-list` whose target has tag name `targetTag`. */
  function LinkClicked(s: MenuState, targetTag: string): (r: MenuState)
    ensures targetTag == "A" ==> r.expanded == Some("false") && r.navClasses == s.navClasses - {Active}
    ensures targetTag != "A" ==> r == s
    ensures Consistent(s) ==> Consistent(r)
  {
    if targetTag == "A" then MenuState(Some("false"), s.navClasses - {Active}) else s
  }

  /** Two toggle clicks restore the class set and whether the menu reads as expanded. */
  lemma ToggleTwiceRestores(s: MenuState)
    ensures Toggled(Toggled(s)).navClasses == s.navClasses
    ensures IsExpanded(Toggled(Toggled(s))) == IsExpanded(s)
  {
    var t := Toggled(s);
    if Active in s.navClasses {
      assert t.navClasses == s.navClasses - {Active};
      assert Toggled(t).navClasses == (s.navClasses - {Active}) + {Active};
    } else {
      assert t.navClasses == s.navClasses + {Active};
      assert Toggled(t).navClasses == (s.navClasses + {Active}) - {Active};
    }
  }

  /** A link click closes the menu whatever state it was in, so a second one changes nothing. */
  lemma LinkClickIdempotent(s: MenuState)
    ensures LinkClicked(LinkClicked(s, "A"), "A") == LinkClicked(s, "A")
    ensures Consistent(LinkClicked(s, "A")) && !IsExpanded(LinkClicked(s, "A"))
  {
  }

  /**
   * The menu after `setupNavigation`: the registration outcome and the two
   * pieces of element state the listeners update in place.
   */
  class Menu {
    const registration: Registration
    var expanded: Option<string>
    var navClasses: set<string>

    function State(): MenuState
      reads this
    {
      MenuState(expanded, navClasses)
    }

    /** `setupNavigation` run on a page with markup `m` and the given initial element state. */
    constructor (m: Markup, expanded: Option<string>, navClasses: set<string>)
      ensures registration == SetupNavigation(m)
      ensures State() == MenuState(expanded, navClasses)
    {
      registration := SetupNavigation(m);
      this.expanded := expanded;
      this.navClasses := navClasses;
    }

    /** A click on `.menu-toggle`; without a registered listener nothing happens. */
    method OnToggleClick()
      modifies this
      ensures State() == if registration.toggleListener then Toggled(old(State())) else old(State())
    {
      if registration.toggleListener {
        var isExpanded := expanded == Some("true");
        expanded := Some(if !isExpanded then "true" else "false");
        if Active in navClasses {
          navClasses := navClasses - {Active};
        } else {
          navClasses := navClasses + {Active};
        }
      }
    }

    /** A click inside `.nav-list` on an element with tag name `targetTag`. */
    method OnNavListClick(targetTag: string)
      modifies this
      ensures State() == if registration.linkListener then LinkClicked(old(State()), targetTag) else old(State())
    {
      if registration.linkListener && targetTag == "A" {
        navClasses := navClasses - {Active};
        expanded := Some("false");
      }
    }
  }
}
