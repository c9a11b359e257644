/** The navigation list and the icon lookup shared by the layout. */
module Constants {
  import opened Wrappers

  /** The icons `getIcon` can return. */
  datatype Icon = Home | Leaf | Apple | Coffee | Dumbbell | Brain | HomeIcon | BookOpen | Cpu

  /** A navigation entry; `title` is the source's `label`. */
  datatype NavItem = NavItem(id: string, title: string, description: Option<string>, icon: string)

  const NavigationItems: seq<NavItem> := [
    NavItem("home", "Home", None, "Home"),
    NavItem("healthy-living", "Healthy Living", Some("Foundations of wellness"), "Leaf"),
    NavItem("nutrition", "Nutrition", Some("What fuels you"), "Apple"),
    NavItem("lifestyle", "Lifestyle", Some("Smart daily habits"), "Coffee"),
    NavItem("fitness", "Fitness", Some("Movement for life"), "Dumbbell"),
    NavItem("wellbeing", "Wellbeing", Some("Mental balance"), "Brain"),
    NavItem("home-environment", "Home Env", Some("Healthy living spaces"), "HomeIcon"),
    NavItem("resources", "Resources", Some("Guides & Trackers"), "BookOpen"),
    NavItem("ai-tools", "AI Tools", Some("Smart Assistance"), "Cpu")
  ]

  /** The `case` label under which `getIcon` returns each icon. */
  function IconName(i: Icon): string {
    match i
    case Home => "Home"
    case Leaf => "Leaf"
    case Apple => "Apple"
    case Coffee => "Coffee"
    case Dumbbell => "Dumbbell"
    case Brain => "Brain"
    case HomeIcon => "HomeIcon"
    case BookOpen => "BookOpen"
    case Cpu => "Cpu"
  }

  /** `getIcon(name)`: the icon whose case label is `name`, and Home for any other name. */
  function GetIcon(name: string): (r: Icon)
    ensures forall i :: IconName(i) == name ==> r == i
    ensures IconName(r) == name || r == Home
  {
    match name
    case "Home" => Home
    case "Leaf" => Leaf
    case "Apple" => Apple
    case "Coffee" => Coffee
    case "Dumbbell" => Dumbbell
    case "Brain" => Brain
    case "HomeIcon" => HomeIcon
    case "BookOpen" => BookOpen
    case "Cpu" => Cpu
    case _ => Home
  }

  /** Every icon name in the navigation list has its own case in `getIcon`. */
  lemma NavigationIconsExplicit()
    ensures forall k :: 0 <= k < |NavigationItems| ==>
      IconName(GetIcon(NavigationItems[k].icon)) == NavigationItems[k].icon
  {
  }

  /** An unknown icon name falls back to the Home icon. */
  lemma UnknownIconIsHome(name: string)
    requires forall i :: IconName(i) != name
    ensures GetIcon(name) == Home
  {
  }

  /** The ids of the navigation list, in order. */
  function NavigationIds(): (ids: seq<string>)
    ensures |ids| == |NavigationItems|
    ensures forall k :: 0 <= k < |ids| ==> ids[k] == NavigationItems[k].id
  {
    seq(|NavigationItems|, k requires 0 <= k < |NavigationItems| => NavigationItems[k].id)
  }

  /** The navigation ids are pairwise distinct. */
  lemma NavigationIdsDistinct()
    ensures forall i, j :: 0 <= i < j < |NavigationItems| ==> NavigationItems[i].id != NavigationItems[j].id
  {
    var ids := NavigationIds();
    assert ids == ["home", "healthy-living", "nutrition", "lifestyle", "fitness",
                   "wellbeing", "home-environment", "resources", "ai-tools"];
    assert ids[1][1] == 'e' && ids[6][1] == 'o' && ids[0] != ids[6];
  }

  /** The navigation ids are non-empty and free of '/'. */
  lemma NavigationIdsPlain()
    ensures forall k :: 0 <= k < |NavigationItems| ==> NavigationItems[k].id != "" && '/' !in NavigationItems[k].id
  {
  }

  /** The first entry is Home, and it is the only one without a description. */
  lemma OnlyHomeLacksDescription()
    ensures NavigationItems[0].id == "home" && NavigationItems[0].description.None?
    ensures forall k :: 1 <= k < |NavigationItems| ==> NavigationItems[k].description.Some?
  {
  }
}
