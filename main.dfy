/** The start-up of `main.py`: the session is seeded from the user's own
    record, the menu drawer is built from it, the two handlers are registered
    and the login screen is opened. */
module Main {
  import opened Data
  import opened Views
  import Navigation
  import MenuDrawer

  /** `page.database[key] = val` for every entry of the loaded record. */
  method Seed(page: Navigation.Page, snapshot: Database)
    modifies page
    ensures page.database == old(page.database) + snapshot
    ensures page.views == old(page.views) && page.route == old(page.route)
    ensures page.onRouteChange == old(page.onRouteChange) && page.onViewPop == old(page.onViewPop)
  {
    var pending := snapshot.Keys;
    while pending != {}
      invariant pending <= snapshot.Keys
      invariant page.database.Keys == old(page.database).Keys + (snapshot.Keys - pending)
      invariant forall k :: k in snapshot && k !in pending ==> page.database[k] == snapshot[k]
      invariant forall k :: k in old(page.database) && k !in snapshot.Keys - pending ==>
                  page.database[k] == old(page.database)[k]
      invariant page.views == old(page.views) && page.route == old(page.route)
      invariant page.onRouteChange == old(page.onRouteChange) && page.onViewPop == old(page.onViewPop)
      decreases pending
    {
      var key :| key in pending;
      page.database := page.database[key := snapshot[key]];
      pending := pending - {key};
    }
  }

  /** `FletGrm`: a fresh page seeded with `snapshot`; when the drawer cannot be
      built the start-up stops there with no handler registered, otherwise both
      handlers are registered and the page goes to "/login". */
  method FletGrm(snapshot: Database, files: DataFiles)
    returns (page: Navigation.Page, drawer: Result<MenuDrawer.Drawer>, outcome: Navigation.Outcome)
    ensures fresh(page) && page.files == files && page.database == snapshot
    ensures drawer.Err? ==>
              && outcome == Navigation.Raised(drawer.error)
              && !page.onRouteChange && !page.onViewPop
              && page.views == [View("/", Root)] && page.route == "/"
    ensures drawer.Ok? ==>
              && page.onRouteChange && page.onViewPop && page.route == "/login"
              && drawer.value.Valid() && drawer.value.icon == MenuDrawer.Up
    ensures drawer.Ok? && Navigation.RouteChange(snapshot, files, "/login").Ok? ==>
              page.views == [View("/login", LoginScreen)] && outcome == Navigation.Done
    ensures drawer.Ok? && Navigation.RouteChange(snapshot, files, "/login").Err? ==>
              page.views == [] && outcome == Navigation.Raised(Navigation.RouteChange(snapshot, files, "/login").error)
  {
    page := new Navigation.Page(files);
    Seed(page, snapshot);
    assert page.database == snapshot;
    drawer := MenuDrawer.BuildDrawer(page.database);
    if drawer.Err? {
      return page, drawer, Navigation.Raised(drawer.error);
    }
    page.onRouteChange, page.onViewPop := true, true;
    outcome := page.Go("/login");
    if Navigation.RouteChange(snapshot, files, "/login").Ok? {
      var handler := ViewHandler(snapshot, files);
      assert handler.Ok? && handler.value["/login"] == View("/login", LoginScreen);
    }
  }
}
