/**
 * The routes API as the reconcile step sees it: a store of routes keyed by
 * (namespace, name) with get, create and update, where each call can be
 * made to fail with an error other than "not found".
 */
module RouteStore {
  import opened RouteTypes

  type Key = (string, string)

  datatype StoreError = NotFound | AlreadyExists | Failed(reason: string)

  datatype Result<+T> = Ok(value: T) | Err(error: StoreError)

  /** Injected failures: a call whose entry is Some(reason) fails with Failed(reason). */
  datatype Faults = Faults(get: Option<string>, create: Option<string>, update: Option<string>)

  function KeyOf(route: Route): Key {
    (route.meta.namespace, route.meta.name)
  }

  /** Every stored route sits under its own namespace and name. */
  ghost predicate Keyed(routes: map<Key, Route>) {
    forall k :: k in routes ==> KeyOf(routes[k]) == k
  }

  /** The answer to a get by key. */
  function Fetch(routes: map<Key, Route>, faults: Faults, key: Key): (r: Result<Route>)
    ensures faults.get.Some? ==> r == Err(Failed(faults.get.value))
    ensures faults.get.None? ==> (r.Ok? <==> key in routes)
    ensures r.Ok? ==> key in routes && r.value == routes[key]
    ensures r.Err? && faults.get.None? ==> r.error == NotFound
  {
    match faults.get
    case Some(reason) => Err(Failed(reason))
    case None => if key in routes then Ok(routes[key]) else Err(NotFound)
  }

  /** The answer to a write and the store after it. */
  datatype Written = Written(result: Result<Route>, routes: map<Key, Route>)

  /** Create: stores a route under a key that is not yet taken. */
  function Insert(routes: map<Key, Route>, faults: Faults, obj: Route): (w: Written)
    ensures Keyed(routes) ==> Keyed(w.routes)
    ensures w.result.Ok? <==> faults.create.None? && KeyOf(obj) !in routes
    ensures w.result.Ok? ==> w.result.value == obj && w.routes == routes[KeyOf(obj) := obj]
    ensures w.result.Err? ==> w.routes == routes
  {
    match faults.create
    case Some(reason) => Written(Err(Failed(reason)), routes)
    case None =>
      if KeyOf(obj) in routes then Written(Err(AlreadyExists), routes)
      else Written(Ok(obj), routes[KeyOf(obj) := obj])
  }

  /** Update: replaces the route stored under an existing key. */
  function Replace(routes: map<Key, Route>, faults: Faults, obj: Route): (w: Written)
    ensures Keyed(routes) ==> Keyed(w.routes)
    ensures w.result.Ok? <==> faults.update.None? && KeyOf(obj) in routes
    ensures w.result.Ok? ==> w.result.value == obj && w.routes == routes[KeyOf(obj) := obj]
    ensures w.result.Err? ==> w.routes == routes
    ensures w.routes.Keys == routes.Keys
  {
    match faults.update
    case Some(reason) => Written(Err(Failed(reason)), routes)
    case None =>
      if KeyOf(obj) !in routes then Written(Err(NotFound), routes)
      else Written(Ok(obj), routes[KeyOf(obj) := obj])
  }

  /** A routes client backed by a map; the faults are fixed when it is made. */
  class RouteClient {
    var routes: map<Key, Route>
    const faults: Faults

    ghost predicate Valid()
      reads this
    {
      Keyed(routes)
    }

    constructor (routes: map<Key, Route>, faults: Faults)
      requires Keyed(routes)
      ensures Valid() && this.routes == routes && this.faults == faults
    {
      this.routes := routes;
      this.faults := faults;
    }

    method Get(namespace: string, name: string) returns (r: Result<Route>)
      ensures r == Fetch(routes, faults, (namespace, name))
    {
      if faults.get.Some? {
        r := Err(Failed(faults.get.value));
      } else if (namespace, name) in routes {
        r := Ok(routes[(namespace, name)]);
      } else {
        r := Err(NotFound);
      }
    }

    method Create(obj: Route) returns (r: Result<Route>)
      requires Valid()
      modifies this
      ensures Valid()
      ensures Written(r, routes) == Insert(old(routes), faults, obj)
    {
      if faults.create.Some? {
        r := Err(Failed(faults.create.value));
      } else if KeyOf(obj) in routes {
        r := Err(AlreadyExists);
      } else {
        routes := routes[KeyOf(obj) := obj];
        r := Ok(obj);
      }
    }

    method Update(obj: Route) returns (r: Result<Route>)
      requires Valid()
      modifies this
      ensures Valid()
      ensures Written(r, routes) == Replace(old(routes), faults, obj)
    {
      if faults.update.Some? {
        r := Err(Failed(faults.update.value));
      } else if KeyOf(obj) !in routes {
        r := Err(NotFound);
      } else {
        routes := routes[KeyOf(obj) := obj];
        r := Ok(obj);
      }
    }
  }
}
