/** The screen manager of `main.py`: the page's view list, its current route,
    the session mapping, and the two handlers that keep them in step. */
module Navigation {
  import opened Data
  import opened Views

  /** How a handler invocation ends: normally, or by a Python exception. */
  datatype Outcome = Done | Raised(error: Error)

  /** What `route_change` pushes for a route: the freshly built view registered
      for it, or the exception that building or looking it up raised. */
  function RouteChange(db: Database, files: DataFiles, route: string): (r: Result<View>)
    ensures r.Ok? ==> route in Routes && r.value.route == route
    ensures r.Ok? ==> "phone_number" in db && "folders" in db && "chat" in db
    ensures ViewHandler(db, files).Ok? ==> (r.Ok? <==> route in Routes)
    ensures ViewHandler(db, files).Ok? && route !in Routes ==> r == Err(KeyError(route))
    ensures ViewHandler(db, files).Ok? && route in Routes ==> r == Ok(ViewHandler(db, files).value[route])
    ensures ViewHandler(db, files).Err? ==> r == Err(ViewHandler(db, files).error)
  {
    var handler :- ViewHandler(db, files);
    if route in handler then Ok(handler[route]) else Err(KeyError(route))
  }

  /** The Flet page, reduced to what the application reads and writes. */
  class Page {
    var views: seq<View>
    var route: string
    var database: Database
    var onRouteChange: bool     // `page.on_route_change` is set
    var onViewPop: bool         // `page.on_view_pop` is set
    const files: DataFiles

    /** A fresh page: one empty root view at route "/", no handlers. */
    constructor (files: DataFiles)
      ensures this.files == files
      ensures views == [View("/", Root)] && route == "/" && database == map[]
      ensures !onRouteChange && !onViewPop
    {
      this.files := files;
      views := [View("/", Root)];
      route := "/";
      database := map[];
      onRouteChange, onViewPop := false, false;
    }

    /** `route_change`: clears the list, then pushes the view `view_handler`
        registers for the current route. The list stays empty when building or
        looking up raises. */
    method HandleRouteChange() returns (outcome: Outcome)
      modifies this
      ensures RouteChange(database, files, route).Ok? ==>
                views == [RouteChange(database, files, route).value] && outcome == Done
      ensures RouteChange(database, files, route).Err? ==>
                views == [] && outcome == Raised(RouteChange(database, files, route).error)
      ensures route == old(route) && database == old(database)
      ensures onRouteChange == old(onRouteChange) && onViewPop == old(onViewPop)
    {
      views := [];
      var handler := ViewHandler(database, files);
      if handler.Err? {
        return Raised(handler.error);
      }
      if route !in handler.value {
        return Raised(KeyError(route));
      }
      views := views + [handler.value[route]];
      outcome := Done;
    }

    /** `page.go(r)`: sets the route, then runs the route-change handler if one
        is registered. */
    method Go(r: string) returns (outcome: Outcome)
      modifies this
      ensures route == r && database == old(database)
      ensures onRouteChange == old(onRouteChange) && onViewPop == old(onViewPop)
      ensures !onRouteChange ==> views == old(views) && outcome == Done
      ensures onRouteChange && RouteChange(database, files, r).Ok? ==>
                views == [RouteChange(database, files, r).value] && outcome == Done
      ensures onRouteChange && RouteChange(database, files, r).Err? ==>
                views == [] && outcome == Raised(RouteChange(database, files, r).error)
      ensures onRouteChange ==> |views| <= 1
    {
      route := r;
      outcome := Done;
      if onRouteChange {
        outcome := HandleRouteChange();
      }
    }

    /** `view_pop`: drops the top view, then navigates to the route of the view
        below it. With fewer than two views there is nothing below to index. */
    method HandleViewPop() returns (outcome: Outcome)
      modifies this
      ensures old(views) == [] ==> views == [] && outcome == Raised(IndexError) && route == old(route)
      ensures |old(views)| == 1 ==> views == [] && outcome == Raised(IndexError) && route == old(route)
      ensures |old(views)| >= 2 ==> route == old(views)[|old(views)| - 2].route
      ensures |old(views)| >= 2 && !onRouteChange ==> views == old(views)[..|old(views)| - 1] && outcome == Done
      ensures |old(views)| >= 2 && onRouteChange ==>
                match RouteChange(database, files, old(views)[|old(views)| - 2].route)
                case Ok(v) => views == [v] && outcome == Done
                case Err(e) => views == [] && outcome == Raised(e)
      ensures database == old(database)
      ensures onRouteChange == old(onRouteChange) && onViewPop == old(onViewPop)
    {
      if views == [] {
        return Raised(IndexError);
      }
      views := views[..|views| - 1];
      if views == [] {
        return Raised(IndexError);
      }
      var top := views[|views| - 1];
      outcome := Go(top.route);
    }

    /** The back gesture: the framework calls `on_view_pop` when it is set. */
    method Back() returns (outcome: Outcome)
      modifies this
      ensures !old(onViewPop) ==> views == old(views) && route == old(route) && outcome == Done
      ensures old(onViewPop) && |old(views)| <= 1 ==> views == [] && outcome == Raised(IndexError) && route == old(route)
      ensures old(onViewPop) && |old(views)| >= 2 ==> route == old(views)[|old(views)| - 2].route
      ensures old(onViewPop) && |old(views)| >= 2 && !onRouteChange ==>
                views == old(views)[..|old(views)| - 1] && outcome == Done
      ensures old(onViewPop) && |old(views)| >= 2 && onRouteChange ==>
                match RouteChange(database, files, old(views)[|old(views)| - 2].route)
                case Ok(v) => views == [v] && outcome == Done
                case Err(e) => views == [] && outcome == Raised(e)
      ensures database == old(database)
      ensures onRouteChange == old(onRouteChange) && onViewPop == old(onViewPop)
    {
      outcome := Done;
      if onViewPop {
        outcome := HandleViewPop();
      }
    }
  }

  /** Going back right after a route change always raises: the change left at
      most one view, and popping it leaves nothing to index. */
  method BackAfterRouteChange(page: Page, r: string) returns (outcome: Outcome)
    requires page.onRouteChange && page.onViewPop
    modifies page
    ensures page.views == [] && outcome == Raised(IndexError)
    ensures page.route == r && page.database == old(page.database)
  {
    var first := page.Go(r);
    outcome := page.Back();
  }
}
