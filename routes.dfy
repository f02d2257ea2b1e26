/** Whether a receiver group is still referenced by the routing tree. */
module Routes {
  import opened Definitions

  /** True when some route, at any depth below `routes`, names `name` as its
      receiver: each route is checked before its children, and the children
      before the route's later siblings. */
  function IsContactPointInUse(name: string, routes: seq<Route>): (r: bool)
    decreases routes
  {
    if |routes| == 0 then false
    else (routes[0].receiver == name
          || IsContactPointInUse(name, routes[0].routes)
          || IsContactPointInUse(name, routes[1..]))
  }

  /** The route reached from the forest `routes` by following `path`: the first
      index picks a top-level route, each later index a child of the route
      picked before. */
  function RouteAt(routes: seq<Route>, path: seq<nat>): Option<Route>
    decreases path
  {
    if |path| == 0 || path[0] >= |routes| then None
    else if |path| == 1 then Some(routes[path[0]])
    else RouteAt(routes[path[0]].routes, path[1..])
  }

  /** Reference definition: some path in the tree leads to a route naming `name`. */
  ghost predicate Referenced(name: string, routes: seq<Route>)
  {
    exists path :: RouteAt(routes, path).Some? && RouteAt(routes, path).value.receiver == name
  }

  /** A path into the later siblings `routes[1..]` is, shifted by one, a path into `routes`. */
  lemma {:induction false} RouteAtShift(routes: seq<Route>, path: seq<nat>)
    requires |routes| > 0 && |path| > 0
    ensures RouteAt(routes, [path[0] + 1] + path[1..]) == RouteAt(routes[1..], path)
  {
    var p := [path[0] + 1] + path[1..];
    assert p[1..] == path[1..];
  }

  lemma {:induction false} InUseIsReferenced(name: string, routes: seq<Route>)
    requires IsContactPointInUse(name, routes)
    ensures Referenced(name, routes)
    decreases routes
  {
    if routes[0].receiver == name {
      assert RouteAt(routes, [0]) == Some(routes[0]);
    } else if IsContactPointInUse(name, routes[0].routes) {
      InUseIsReferenced(name, routes[0].routes);
      var p :| RouteAt(routes[0].routes, p).Some? && RouteAt(routes[0].routes, p).value.receiver == name;
      var q := [0] + p;
      assert q[1..] == p;
      assert RouteAt(routes, q) == RouteAt(routes[0].routes, p);
    } else {
      InUseIsReferenced(name, routes[1..]);
      var p :| RouteAt(routes[1..], p).Some? && RouteAt(routes[1..], p).value.receiver == name;
      RouteAtShift(routes, p);
      assert RouteAt(routes, [p[0] + 1] + p[1..]) == RouteAt(routes[1..], p);
    }
  }

  lemma {:induction false} ReferencedIsInUse(name: string, routes: seq<Route>, path: seq<nat>)
    requires RouteAt(routes, path).Some? && RouteAt(routes, path).value.receiver == name
    ensures IsContactPointInUse(name, routes)
    decreases routes
  {
    if path[0] == 0 {
      if |path| > 1 {
        ReferencedIsInUse(name, routes[0].routes, path[1..]);
      }
    } else {
      var q := [path[0] - 1] + path[1..];
      assert q[1..] == path[1..];
      RouteAtShift(routes, q);
      assert [q[0] + 1] + q[1..] == path;
      ReferencedIsInUse(name, routes[1..], q);
    }
  }

  /** The check is exactly the reference definition: true iff some route at any
      depth of the tree names the receiver group. */
  lemma InUseIffReferenced(name: string, routes: seq<Route>)
    ensures IsContactPointInUse(name, routes) <==> Referenced(name, routes)
  {
    if IsContactPointInUse(name, routes) {
      InUseIsReferenced(name, routes);
    }
    if Referenced(name, routes) {
      var p :| RouteAt(routes, p).Some? && RouteAt(routes, p).value.receiver == name;
      ReferencedIsInUse(name, routes, p);
    }
  }
}
