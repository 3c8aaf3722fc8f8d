/**
 * The hash router: a table from paths to page handlers, the current route and
 * a default route, driven by navigate and by the browser's popstate and
 * hashchange events. Handlers are opaque page-mounting callbacks, stood for by
 * a number; running one is recorded in `runs`.
 */
module Router {
  import opened Wrappers
  import Models

  type Handler = nat

  /** getHashPath: location.hash without its leading '#', or null when nothing is left. */
  function HashPath(hash: string): (r: Option<string>)
    ensures r.None? <==> |hash| <= 1
    ensures r.Some? ==> r.value != "" && hash == [hash[0]] + r.value
  {
    if |hash| <= 1 then None else Some(hash[1..])
  }

  /** The URL navigate writes is read back as the same path. */
  lemma HashRoundTrip(path: string)
    requires path != ""
    ensures HashPath("#" + path) == Some(path)
  {
    assert ("#" + path)[1..] == path;
  }

  /** Where navigate(path) ends up: the path itself when registered, else a registered default, else nowhere. */
  function Target(routes: map<string, Handler>, defaultRoute: Option<string>, path: string): (r: Option<string>)
    ensures r.Some? ==> r.value in routes
    ensures r == Some(path) <==> path in routes
    ensures r.None? <==> path !in routes && (!Models.Truthy(defaultRoute) || defaultRoute.value !in routes)
    ensures path !in routes && r.Some? ==> r == defaultRoute
  {
    if path in routes then Some(path)
    else if Models.Truthy(defaultRoute) && defaultRoute.value in routes then defaultRoute
    else None
  }

  /** Navigating again to where navigate landed lands there again. */
  lemma TargetIdempotent(routes: map<string, Handler>, defaultRoute: Option<string>, path: string)
    requires Target(routes, defaultRoute, path).Some?
    ensures Target(routes, defaultRoute, Target(routes, defaultRoute, path).value) == Target(routes, defaultRoute, path)
  {
  }

  /** After addRoute(path, h) the path is reachable, and its handler is h whatever was there before. */
  lemma AddRouteReplaces(routes: map<string, Handler>, defaultRoute: Option<string>, path: string, h: Handler)
    ensures Target(routes[path := h], defaultRoute, path) == Some(path)
    ensures routes[path := h][path] == h
    ensures forall p :: p in routes && p != path ==> routes[path := h][p] == routes[p]
    ensures forall p :: p != path && (p in routes || path in routes || !Models.Truthy(defaultRoute) || defaultRoute.value != path)
                        ==> Target(routes[path := h], defaultRoute, p) == Target(routes, defaultRoute, p)
    ensures forall p :: p != path && p !in routes && defaultRoute == Some(path) && Models.Truthy(defaultRoute)
                        ==> Target(routes[path := h], defaultRoute, p) == Some(path)
  {
  }

  /** The path a popstate event looks at: the state's path when truthy, else the hash's. */
  function PopPath(statePath: Option<string>, hash: string): (r: Option<string>)
    ensures Models.Truthy(statePath) ==> r == statePath
    ensures !Models.Truthy(statePath) ==> r == HashPath(hash)
  {
    if Models.Truthy(statePath) then statePath else HashPath(hash)
  }

  /** The path init starts from: the hash's, else the default. */
  function InitialPath(hash: string, defaultRoute: Option<string>): (r: Option<string>)
    ensures HashPath(hash).Some? ==> r == HashPath(hash)
    ensures HashPath(hash).None? ==> r == defaultRoute
  {
    if HashPath(hash).Some? then HashPath(hash) else defaultRoute
  }

  class Router {
    var routes: map<string, Handler>
    var current: Option<string>
    var defaultRoute: Option<string>
    /** Handlers run, in order. */
    var runs: seq<Handler>
    /** Paths pushed onto the browser history. */
    var pushed: seq<string>
    /** window.location.hash, with its '#'. */
    var hash: string

    /** The current route is null or a registered path. */
    predicate Valid()
      reads this
      ensures Valid() && current.Some? ==> Target(routes, defaultRoute, current.value) == current
      ensures routes == map[] ==> (Valid() <==> current.None?)
    {
      current.None? || current.value in routes
    }

    constructor (hash0: string)
      ensures Valid()
      ensures routes == map[] && current.None? && defaultRoute.None?
      ensures runs == [] && pushed == [] && hash == hash0
    {
      routes := map[];
      current := None;
      defaultRoute := None;
      runs := [];
      pushed := [];
      hash := hash0;
    }

    /** addRoute: registers or replaces the handler of a path. */
    method AddRoute(path: string, handler: Handler)
      requires Valid()
      modifies this
      ensures Valid()
      ensures routes == old(routes)[path := handler]
      ensures current == old(current) && defaultRoute == old(defaultRoute)
      ensures runs == old(runs) && pushed == old(pushed) && hash == old(hash)
    {
      routes := routes[path := handler];
    }

    method SetDefaultRoute(path: Option<string>)
      requires Valid()
      modifies this
      ensures Valid()
      ensures defaultRoute == path
      ensures routes == old(routes) && current == old(current)
      ensures runs == old(runs) && pushed == old(pushed) && hash == old(hash)
    {
      defaultRoute := path;
    }

    /** Sets the route, runs its handler once and pushes `#path` onto the history. */
    method Enter(path: string)
      requires Valid() && path in routes
      modifies this
      ensures Valid()
      ensures current == Some(path)
      ensures runs == old(runs) + [routes[path]]
      ensures pushed == old(pushed) + [path] && hash == "#" + path
      ensures routes == old(routes) && defaultRoute == old(defaultRoute)
    {
      current := Some(path);
      runs := runs + [routes[path]];
      pushed := pushed + [path];
      hash := "#" + path;
    }

    /**
     * navigate: enters a registered path; otherwise navigates once to a
     * registered default; otherwise changes nothing.
     */
    method Navigate(path: string)
      requires Valid()
      modifies this
      ensures Valid()
      ensures routes == old(routes) && defaultRoute == old(defaultRoute)
      ensures var t := Target(routes, defaultRoute, path);
        if t.Some? then
          current == t && runs == old(runs) + [routes[t.value]]
          && pushed == old(pushed) + [t.value] && hash == "#" + t.value
        else
          current == old(current) && runs == old(runs) && pushed == old(pushed) && hash == old(hash)
      decreases if path in routes then 0 else 1
    {
      if path in routes {
        Enter(path);
      } else if Models.Truthy(defaultRoute) && defaultRoute.value in routes {
        Navigate(defaultRoute.value);
      }
    }

    /** Sets the route and runs its handler, without touching the history. */
    method Arrive(path: Option<string>)
      requires Valid()
      modifies this
      ensures Valid()
      ensures if Models.Truthy(path) && path.value in old(routes) then
          current == path && runs == old(runs) + [routes[path.value]]
        else
          current == old(current) && runs == old(runs)
      ensures routes == old(routes) && defaultRoute == old(defaultRoute)
      ensures pushed == old(pushed) && hash == old(hash)
    {
      if Models.Truthy(path) && path.value in routes {
        current := path;
        runs := runs + [routes[path.value]];
      }
    }

    /** The hashchange listener, after the browser has set the hash to `newHash`. */
    method HashChange(newHash: string)
      requires Valid()
      modifies this
      ensures Valid()
      ensures hash == newHash
      ensures var p := HashPath(newHash);
        if p.Some? && p.value in routes then current == p && runs == old(runs) + [routes[p.value]]
        else current == old(current) && runs == old(runs)
      ensures routes == old(routes) && defaultRoute == old(defaultRoute) && pushed == old(pushed)
    {
      hash := newHash;
      Arrive(HashPath(hash));
    }

    /**
     * The popstate listener, after the browser has moved to the entry with
     * hash `newHash` and state path `statePath`.
     */
    method PopState(newHash: string, statePath: Option<string>)
      requires Valid()
      modifies this
      ensures Valid()
      ensures routes == old(routes) && defaultRoute == old(defaultRoute)
      ensures var p := PopPath(statePath, newHash);
        if Models.Truthy(p) && p.value in routes then
          current == p && runs == old(runs) + [routes[p.value]] && pushed == old(pushed) && hash == newHash
        else if Models.Truthy(defaultRoute) && defaultRoute.value in routes then
          current == defaultRoute && runs == old(runs) + [routes[defaultRoute.value]]
          && pushed == old(pushed) + [defaultRoute.value] && hash == "#" + defaultRoute.value
        else
          current == old(current) && runs == old(runs) && pushed == old(pushed) && hash == newHash
    {
      hash := newHash;
      var p := PopPath(statePath, hash);
      if Models.Truthy(p) && p.value in routes {
        Arrive(p);
      } else if Models.Truthy(defaultRoute) {
        Navigate(defaultRoute.value);
      }
    }

    /** init: navigates to the hash's path, or to the default when the hash is empty. */
    method Init()
      requires Valid()
      modifies this
      ensures Valid()
      ensures routes == old(routes) && defaultRoute == old(defaultRoute)
      ensures var p := InitialPath(old(hash), defaultRoute);
        var t := if Models.Truthy(p) then Target(routes, defaultRoute, p.value) else None;
        if t.Some? then
          current == t && runs == old(runs) + [routes[t.value]]
          && pushed == old(pushed) + [t.value] && hash == "#" + t.value
        else
          current == old(current) && runs == old(runs) && pushed == old(pushed) && hash == old(hash)
    {
      var p := InitialPath(hash, defaultRoute);
      if Models.Truthy(p) {
        Navigate(p.value);
      }
    }
  }
}
