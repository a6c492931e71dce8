/** The way to the profile screen and back: the chat screen's title and the
    drawer's "My Profile" entry record where they came from in
    `database["last_page"]`, and the profile's back arrow goes there. */
module Returns {
  import opened Data
  import opened Views
  import Navigation
  import MenuDrawer

  /** `open_profile` of the chat screen: records "/chat" as the page to return
      to and opens the profile screen. */
  method OpenProfile(page: Navigation.Page) returns (outcome: Navigation.Outcome)
    modifies page
    ensures page.database == old(page.database)["last_page" := Str("/chat")]
    ensures page.route == "/profile"
    ensures !page.onRouteChange ==> page.views == old(page.views) && outcome.Done?
    ensures page.onRouteChange && Navigation.RouteChange(page.database, page.files, "/profile").Ok? ==>
              page.views == [View("/profile", ProfileScreen(page.database["chat"].fields))] && outcome.Done?
    ensures page.onRouteChange && Navigation.RouteChange(page.database, page.files, "/profile").Err? ==>
              page.views == [] && outcome == Navigation.Raised(Navigation.RouteChange(page.database, page.files, "/profile").error)
    ensures page.onRouteChange == old(page.onRouteChange) && page.onViewPop == old(page.onViewPop)
  {
    page.database := page.database["last_page" := Str("/chat")];
    outcome := page.Go("/profile");
    if page.onRouteChange && Navigation.RouteChange(page.database, page.files, "/profile").Ok? {
      var handler := ViewHandler(page.database, page.files);
      assert handler.Ok? && handler.value["/profile"].screen == ProfileLayout(page.database).value;
    }
  }

  /** The profile screen's back arrow: `page.go(database["last_page"])`. A
      missing key raises KeyError; a value that is not a route string raises
      TypeError. */
  method ProfileBack(page: Navigation.Page) returns (outcome: Navigation.Outcome)
    modifies page
    ensures "last_page" !in old(page.database) ==>
              outcome == Navigation.Raised(KeyError("last_page")) && unchanged(page)
    ensures "last_page" in old(page.database) && !old(page.database)["last_page"].Str? ==>
              outcome == Navigation.Raised(TypeError) && unchanged(page)
    ensures "last_page" in old(page.database) && old(page.database)["last_page"].Str? ==>
              page.route == old(page.database)["last_page"].s
    ensures "last_page" in old(page.database) && old(page.database)["last_page"].Str? && !page.onRouteChange ==>
              page.views == old(page.views) && outcome == Navigation.Done
    ensures "last_page" in old(page.database) && old(page.database)["last_page"].Str? && page.onRouteChange ==>
              match Navigation.RouteChange(page.database, page.files, old(page.database)["last_page"].s)
              case Ok(v) => page.views == [v] && outcome == Navigation.Done
              case Err(e) => page.views == [] && outcome == Navigation.Raised(e)
    ensures page.database == old(page.database)
    ensures page.onRouteChange == old(page.onRouteChange) && page.onViewPop == old(page.onViewPop)
  {
    if "last_page" !in page.database {
      return Navigation.Raised(KeyError("last_page"));
    }
    var target := page.database["last_page"];
    if !target.Str? {
      return Navigation.Raised(TypeError);
    }
    outcome := page.Go(target.s);
  }

  /** Opening the profile from a chat and pressing its back arrow lands on the
      chat screen again. */
  method ChatProfileAndBack(page: Navigation.Page) returns (outcome: Navigation.Outcome)
    modifies page
    ensures page.route == "/chat"
    ensures page.database == old(page.database)["last_page" := Str("/chat")]
  {
    var shown := OpenProfile(page);
    outcome := ProfileBack(page);
  }

  /** Opening one's own profile from the drawer and pressing its back arrow
      lands on the menu, whenever the profile could be opened. */
  method OwnProfileAndBack(page: Navigation.Page) returns (outcome: Navigation.Outcome)
    modifies page
    ensures MenuDrawer.OwnProfileWrites(old(page.database)).1.None? ==> page.route == "/menu"
    ensures page.database == MenuDrawer.OwnProfileWrites(old(page.database)).0
  {
    ghost var before := page.database;
    var shown := MenuDrawer.GotoMyProfile(page);
    if MenuDrawer.OwnProfileWrites(before).1.None? {
      MenuDrawer.OwnProfileSucceeds(before);
      MenuDrawer.OwnProfileSession(before);
    }
    outcome := ProfileBack(page);
  }
}
