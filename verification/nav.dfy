/**
 * The navigation menu toggle of public/js/nav.js: the menu is open when
 * `.nav-links` has the `active` class; the `.nav-toggle` button's
 * `aria-expanded` attribute and text follow that state; a click on any link
 * in the menu closes it. Without both elements no handler is installed.
 */
module Nav {

  const MenuLabel := "[ MENU ]"
  const CloseLabel := "[ CLOSE ]"

  /** The menu as the page shows it: whether `.nav-links` has `active`, the
      toggle's `aria-expanded` attribute and its text. */
  datatype MenuState = MenuState(active: bool, ariaExpanded: string, text: string)

  /** A boolean as `setAttribute` writes it. */
  function AttributeText(b: bool): (s: string)
    ensures s == "true" <==> b
    ensures s == "false" <==> !b
  {
    if b then "true" else "false"
  }

  /** The attribute and the text agree with the class. */
  predicate Consistent(m: MenuState) {
    m.ariaExpanded == AttributeText(m.active)
    && m.text == (if m.active then CloseLabel else MenuLabel)
  }

  /** A click on the toggle: `active` flips, then the attribute and the text
      are set from the new class state. */
  function ToggleClick(m: MenuState): (r: MenuState)
    ensures r.active == !m.active
    ensures r.ariaExpanded == "true" <==> r.active
    ensures r.ariaExpanded == "false" <==> !r.active
    ensures r.text == CloseLabel <==> r.active
    ensures r.text == MenuLabel <==> !r.active
  {
    var isExpanded := !m.active;
    MenuState(isExpanded, AttributeText(isExpanded), if isExpanded then CloseLabel else MenuLabel)
  }

  /** A click on a menu link: the menu is closed, whatever its state. */
  function LinkClick(m: MenuState): (r: MenuState)
    ensures !r.active && r.ariaExpanded == "false" && r.text == MenuLabel
  {
    MenuState(false, "false", MenuLabel)
  }

  /** Both handlers leave the menu consistent, from any state. */
  lemma HandlersRestoreConsistency(m: MenuState)
    ensures Consistent(ToggleClick(m))
    ensures Consistent(LinkClick(m))
  {
  }

  /** Two toggle clicks restore `active`; on a consistent menu they restore
      the whole state. */
  lemma ToggleTwice(m: MenuState)
    ensures ToggleClick(ToggleClick(m)).active == m.active
    ensures Consistent(m) ==> ToggleClick(ToggleClick(m)) == m
  {
  }

  /** Closing an already closed menu changes nothing. */
  lemma LinkClickIdempotent(m: MenuState)
    ensures LinkClick(LinkClick(m)) == LinkClick(m)
    ensures Consistent(m) && !m.active ==> LinkClick(m) == m
  {
  }

  /** The menu as the page holds it. `installed` records whether both
      `.nav-toggle` and `.nav-links` were found, and so whether the handlers
      exist at all. */
  class NavMenu {
    const installed: bool
    var active: bool
    var ariaExpanded: string
    var text: string

    ghost function State(): MenuState
      reads this
    {
      MenuState(active, ariaExpanded, text)
    }

    constructor (hasToggle: bool, hasLinks: bool, initial: MenuState)
      ensures installed == (hasToggle && hasLinks)
      ensures State() == initial
    {
      installed := hasToggle && hasLinks;
      active := initial.active;
      ariaExpanded := initial.ariaExpanded;
      text := initial.text;
    }

    /** The `.nav-toggle` click handler. */
    method OnToggleClick()
      modifies this
      ensures State() == if installed then ToggleClick(old(State())) else old(State())
    {
      if installed {
        active := !active;
        var isExpanded := active;
        ariaExpanded := AttributeText(isExpanded);
        if isExpanded {
          text := CloseLabel;
        } else {
          text := MenuLabel;
        }
      }
    }

    /** The click handler installed on every link inside `.nav-links`. */
    method OnLinkClick()
      modifies this
      ensures State() == if installed then LinkClick(old(State())) else old(State())
    {
      if installed {
        active := false;
        ariaExpanded := "false";
        text := MenuLabel;
      }
    }
  }
}
