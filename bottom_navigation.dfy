/**
 * The bottom navigation bar (src/components/BottomNavigation.tsx), shown on
 * every screen but the splash: four items, the one whose id equals the
 * `currentScreen` prop highlighted, each click navigating without a tag.
 */
module BottomNavigation {

  import opened Wrappers
  import opened App

  /** The item ids, in display order. */
  const NavItems: seq<Screen> := [Home, Reports, Notifications, Profile]

  /** The keys of each translation bag: one label per item. */
  function TranslationKeys(l: Language): set<string> {
    match l
    case En => {"home", "reports", "notifications", "profile"}
    case Ur => {"home", "reports", "notifications", "profile"}
  }

  /** The key an item's label is looked up under. */
  function LabelKey(item: Screen): string {
    match item
    case Home => "home"
    case Reports => "reports"
    case Notifications => "notifications"
    case Profile => "profile"
    case _ => ""
  }

  /** isActive: the item's id is the current screen. */
  predicate IsActive(currentScreen: Screen, item: Screen) {
    currentScreen == item
  }

  /** The positions of the highlighted items. */
  function ActiveItems(currentScreen: Screen): set<nat> {
    set i: nat | i < |NavItems| && IsActive(currentScreen, NavItems[i])
  }

  /** At most one item is highlighted, and one is exactly when the current screen is an item's id; the result and form screens highlight none. */
  lemma AtMostOneActive(currentScreen: Screen)
    ensures |ActiveItems(currentScreen)| <= 1
    ensures |ActiveItems(currentScreen)| == 1 <==> currentScreen in NavItems
    ensures currentScreen == Result || ResultTypeOf(currentScreen).Some? ==> ActiveItems(currentScreen) == {}
  {
    var r := ActiveItems(currentScreen);
    if currentScreen == Home {
      assert r == {0};
    } else if currentScreen == Reports {
      assert r == {1};
    } else if currentScreen == Notifications {
      assert r == {2};
    } else if currentScreen == Profile {
      assert r == {3};
    } else {
      assert r == {};
    }
  }

  /** The request a click on the `i`-th item makes: its id, with no tag. */
  function ItemNav(i: nat): (nav: Nav)
    requires i < |NavItems|
    ensures nav.resultType == None && WellTagged(nav) && nav.screen != Splash
  {
    Nav(NavItems[i], None)
  }

  /** Every item has a label in both languages, and a click clears any result tag. */
  lemma LabelsAndClicks(l: Language, i: nat, prev: AppState)
    requires i < |NavItems|
    ensures LabelKey(NavItems[i]) in TranslationKeys(l)
    ensures Navigated(prev, ItemNav(i)).resultType == None
    ensures Navigated(prev, ItemNav(i)).currentScreen == NavItems[i]
    ensures IsActive(Navigated(prev, ItemNav(i)).currentScreen, NavItems[i])
  {
  }
}
