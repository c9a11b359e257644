/** The page shell: which navigation entry is highlighted, the back button and the mobile menu. */
module Layout {
  import opened Text
  import Constants

  /** `location.pathname.substring(1) || 'home'`. */
  function CurrentPath(pathname: string): (r: string)
    ensures r != ""
    ensures |pathname| <= 1 ==> r == "home"
    ensures |pathname| >= 2 ==> r == pathname[1..]
  {
    if |pathname| <= 1 then "home" else pathname[1..]
  }

  /** `isNavItemActive(itemId)` against the current path. */
  predicate IsNavItemActive(currentPath: string, itemId: string) {
    if itemId == "home" then currentPath == "home"
    else currentPath == itemId || StartsWith(currentPath, itemId + "/")
  }

  /** `isHome`: the pathname is the root. */
  predicate IsHome(pathname: string) {
    pathname == "/" || pathname == ""
  }

  /** The `to` of an item's link. */
  function LinkTarget(itemId: string): string {
    "/" + if itemId == "home" then "" else itemId
  }

  datatype BackAction = ScrollToTop | GoBack

  /** What `handleBack` does: go back in history, unless at home or at the start of the history. */
  function HandleBack(pathname: string, historyLength: int): (r: BackAction)
    ensures r == GoBack <==> !IsHome(pathname) && historyLength > 1
  {
    if IsHome(pathname) || historyLength <= 1 then ScrollToTop else GoBack
  }

  /** The back button is rendered only away from home. */
  predicate BackButtonShown(pathname: string) {
    !IsHome(pathname)
  }

  /** The back button is shown exactly where it can act, and away from home it goes back whenever there is history. */
  lemma BackButtonGoesBack(pathname: string, historyLength: int)
    ensures HandleBack(pathname, historyLength) == GoBack <==> BackButtonShown(pathname) && historyLength > 1
    ensures !BackButtonShown(pathname) <==> pathname == "/" || pathname == ""
  {
  }

  /** The Home entry is highlighted only on the path "home", so "home-environment" does not light it. */
  lemma HomeActiveExactly(currentPath: string)
    ensures IsNavItemActive(currentPath, "home") <==> currentPath == "home"
    ensures !IsNavItemActive("home-environment", "home")
  {
  }

  /** Any path under `id + "/"` highlights the item `id`. */
  lemma SubPathActivates(itemId: string, rest: string)
    requires itemId != "home"
    ensures IsNavItemActive(itemId + "/" + rest, itemId)
  {
    assert (itemId + "/" + rest)[..|itemId| + 1] == itemId + "/";
  }

  /** A path that continues `id` with anything but '/' does not highlight the item `id`. */
  lemma LongerIdNotActive(itemId: string, c: char, rest: string)
    requires c != '/'
    ensures !IsNavItemActive(itemId + [c] + rest, itemId)
  {
    var path := itemId + [c] + rest;
    assert path[|itemId|] == c;
    if itemId == "home" {
      assert |path| > |"home"|;
    }
  }

  /** For instance, `nutrition/labels` highlights Nutrition and `nutritionx` does not. */
  lemma SectionPrefixExamples()
    ensures IsNavItemActive("nutrition/labels", "nutrition")
    ensures !IsNavItemActive("nutritionx", "nutrition")
  {
    SubPathActivates("nutrition", "labels");
    assert "nutrition" + "/" + "labels" == "nutrition/labels";
    LongerIdNotActive("nutrition", 'x', "");
    assert "nutrition" + ['x'] + "" == "nutritionx";
  }

  /** Visiting an item's link target highlights that item. */
  lemma LinkTargetActivates(itemId: string)
    requires itemId != ""
    ensures IsNavItemActive(CurrentPath(LinkTarget(itemId)), itemId)
  {
    if itemId != "home" {
      assert LinkTarget(itemId)[1..] == itemId;
    }
  }

  /** A path under `b + "/"` holds a '/', so it is not an id without one. */
  lemma SlashPrefixExcludesId(path: string, b: string, a: string)
    requires StartsWith(path, b + "/") && '/' !in a
    ensures path != a
  {
    assert path[|b|] == (b + "/")[|b|] == '/';
  }

  /** Two ids without '/' whose slash-prefixes both start a path are the same id. */
  lemma SlashPrefixesAgree(path: string, a: string, b: string)
    requires StartsWith(path, a + "/") && StartsWith(path, b + "/")
    requires '/' !in a && '/' !in b
    ensures a == b
  {
    assert path[|a|] == (a + "/")[|a|] == '/';
    assert path[|b|] == (b + "/")[|b|] == '/';
    assert forall i :: 0 <= i < |a| ==> path[i] == (a + "/")[i] == a[i];
    assert forall i :: 0 <= i < |b| ==> path[i] == (b + "/")[i] == b[i];
    assert |a| == |b|;
    assert a == path[..|a|] == b;
  }

  /** For ids without '/', at most one is highlighted on any path. */
  lemma ActiveIdsAgree(path: string, a: string, b: string)
    requires '/' !in a && '/' !in b
    requires IsNavItemActive(path, a) && IsNavItemActive(path, b)
    ensures a == b
  {
    if a != "home" && b != "home" {
      if StartsWith(path, a + "/") && StartsWith(path, b + "/") {
        SlashPrefixesAgree(path, a, b);
      } else if StartsWith(path, a + "/") {
        SlashPrefixExcludesId(path, a, b);
      } else if StartsWith(path, b + "/") {
        SlashPrefixExcludesId(path, b, a);
      }
    } else if a != "home" {
      if StartsWith(path, a + "/") { SlashPrefixExcludesId(path, a, "home"); }
    } else if b != "home" {
      if StartsWith(path, b + "/") { SlashPrefixExcludesId(path, b, "home"); }
    }
  }

  /** With the shipped navigation list, at most one entry is highlighted for any path. */
  lemma AtMostOneActive(path: string)
    ensures forall i, j ::
      (0 <= i < |Constants.NavigationItems| && 0 <= j < |Constants.NavigationItems| &&
       IsNavItemActive(path, Constants.NavigationItems[i].id) &&
       IsNavItemActive(path, Constants.NavigationItems[j].id)) ==> i == j
  {
    Constants.NavigationIdsDistinct();
    Constants.NavigationIdsPlain();
    var items := Constants.NavigationItems;
    forall i, j | 0 <= i < |items| && 0 <= j < |items| &&
      IsNavItemActive(path, items[i].id) && IsNavItemActive(path, items[j].id)
      ensures i == j
    {
      ActiveIdsAgree(path, items[i].id, items[j].id);
    }
  }

  datatype Overflow = Hidden | Unset

  /** The shell's state: the current location and the mobile menu flag. */
  class Shell {
    var pathname: string
    var isMenuOpen: bool

    constructor (pathname: string)
      ensures this.pathname == pathname && !isMenuOpen
    {
      this.pathname := pathname;
      isMenuOpen := false;
    }

    /** `document.body.style.overflow`, as the menu effect leaves it. */
    function BodyOverflow(): (r: Overflow)
      reads this
      ensures r == Hidden <==> isMenuOpen
    {
      if isMenuOpen then Hidden else Unset
    }

    /** The menu button. */
    method ToggleMenu()
      modifies this`isMenuOpen
      ensures isMenuOpen == !old(isMenuOpen)
    {
      isMenuOpen := !isMenuOpen;
    }

    /** The backdrop and the close button. */
    method CloseMenu()
      modifies this`isMenuOpen
      ensures !isMenuOpen
    {
      isMenuOpen := false;
    }

    /** A location change, by following any link: the effect on `location` closes the menu. */
    method Navigate(to: string)
      modifies this
      ensures pathname == to && !isMenuOpen
    {
      pathname := to;
      isMenuOpen := false;
    }
  }

  /** Two presses of the menu button restore the menu flag. */
  method ToggleTwice(s: Shell)
    modifies s
    ensures s.isMenuOpen == old(s.isMenuOpen) && s.pathname == old(s.pathname)
    ensures s.BodyOverflow() == old(s.BodyOverflow())
  {
    s.ToggleMenu();
    s.ToggleMenu();
  }
}
